/**
 * The hash router of the final project (final_project/src/router.js): the
 * text of `window.location.hash` selects one of four page names.
 */
module Router {

  /** The routing table: hash key to page name. */
  const Routes: map<string, string> := map[
    "" := "Landing",
    "select" := "SceneSelector",
    "bedroom" := "Bedroom",
    "dungeon" := "Dungeon"
  ]

  /** The fallback page for a hash that is not a key of the table. */
  const Fallback: string := "Landing"

  /** The four page names the router can produce. */
  predicate IsPageName(name: string) {
    name == "Landing" || name == "SceneSelector" || name == "Bedroom" || name == "Dungeon"
  }

  /**
   * `s.replace('#', '')`: with a string pattern, JavaScript's `replace`
   * removes only the FIRST occurrence, wherever it is.
   */
  function StripFirstHash(s: string): (r: string)
    ensures |r| == if '#' in s then |s| - 1 else |s|
  {
    if s == [] then []
    else if s[0] == '#' then s[1..]
    else [s[0]] + StripFirstHash(s[1..])
  }

  /** `getRoute()`, with the current hash passed in instead of read from the window. */
  function GetRoute(hash: string): (page: string)
    ensures IsPageName(page)
  {
    var key := StripFirstHash(hash);
    if key in Routes then Routes[key] else Fallback
  }

  /** A string without '#' passes through the strip untouched. */
  lemma {:induction false} StripWithoutHash(s: string)
    requires '#' !in s
    ensures StripFirstHash(s) == s
  {
    if s != [] {
      assert '#' !in s[1..];
      StripWithoutHash(s[1..]);
    }
  }

  /** The strip removes exactly the first '#', at whatever index it occurs. */
  lemma {:induction false} StripRemovesFirstHash(s: string, i: nat)
    requires i < |s| && s[i] == '#' && '#' !in s[..i]
    ensures StripFirstHash(s) == s[..i] + s[i + 1..]
  {
    if i > 0 {
      assert s[0] != '#' by { assert s[0] == s[..i][0]; }
      assert '#' !in s[1..][..i - 1] by { assert s[1..][..i - 1] == s[..i][1..]; }
      StripRemovesFirstHash(s[1..], i - 1);
      assert s[1..][..i - 1] + s[1..][i..] == s[1..i] + s[i + 1..];
      assert [s[0]] + s[1..i] == s[..i];
    }
  }

  /** A location hash `#key` is routed by the table entry for `key`. */
  lemma HashKeyRoutes(key: string)
    ensures GetRoute("#" + key) == if key in Routes then Routes[key] else Fallback
  {
    assert ("#" + key)[1..] == key;
  }

  /** The empty hash (no fragment, or a bare '#') gives the landing page. */
  lemma EmptyHashIsLanding()
    ensures GetRoute("") == "Landing"
    ensures GetRoute("#") == "Landing"
  {
    HashKeyRoutes("");
  }

  /** The three named routes. */
  lemma NamedRoutes()
    ensures GetRoute("#select") == "SceneSelector"
    ensures GetRoute("#bedroom") == "Bedroom"
    ensures GetRoute("#dungeon") == "Dungeon"
  {
    HashKeyRoutes("select");
    HashKeyRoutes("bedroom");
    HashKeyRoutes("dungeon");
  }

  /** Any hash whose stripped text is not one of the four keys falls back to Landing. */
  lemma UnknownHashIsLanding(hash: string)
    requires StripFirstHash(hash) !in Routes
    ensures GetRoute(hash) == "Landing"
  {
  }

  /**
   * A doubled '#' survives the strip once, so `##bedroom` (or `##` before any
   * key) reaches no table entry and routes to Landing.
   */
  lemma DoubleHashIsLanding(key: string)
    ensures GetRoute("##" + key) == "Landing"
  {
    StripRemovesFirstHash("##" + key, 0);
    assert ("##" + key)[1..] == "#" + key;
    assert ("#" + key)[0] == '#';
  }

  /** Distinct keys route to distinct pages: the table is injective. */
  lemma RoutesInjective(k1: string, k2: string)
    requires k1 in Routes && k2 in Routes && k1 != k2
    ensures Routes[k1] != Routes[k2]
  {
  }
}
