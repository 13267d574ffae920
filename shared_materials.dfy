/**
 * The glow traversal of the scene selector's hover effects
 * (final_project/src/postprocessing/sceneSelectorEffects.js:62-104) over meshes
 * that may share one material. `SceneSelectorEffects` gives every mesh a
 * material of its own; here a traversal is a sequence of visits, each naming
 * the mesh and the material it draws with, and the emissive colour belongs to
 * the material.
 *
 * As written, the colour to restore is recorded on the MESH
 * (`child.userData.originalEmissive`). A second mesh sharing the material of
 * an earlier one records the glow colour that the earlier visit has just set,
 * and the reset pass, in the same order, restores that glow colour last. The
 * corrected traversal records the colour once per MATERIAL, and one glow and
 * reset round then leaves every material as it found it.
 */
module SharedMaterials {
  import opened SceneGraph
  import SceneSelectorEffects

  /** One mesh the traversal visits, with the material it draws with. */
  datatype Visit = Visit(mesh: nat, material: nat)

  /**
   * The emissive colour of each material, and the colours recorded for
   * restoring: keyed by mesh as written, by material once corrected.
   */
  datatype Shade = Shade(emissive: map<nat, Color>, recorded: map<nat, Color>)

  /** The materials a traversal visits. */
  function Materials(vs: seq<Visit>): set<nat> {
    if vs == [] then {} else {vs[0].material} + Materials(vs[1..])
  }

  /** Every visited material has a colour. */
  predicate Drawable(s: Shade, vs: seq<Visit>) {
    forall i :: 0 <= i < |vs| ==> vs[i].material in s.emissive
  }

  /** The visited materials are exactly those some visit names; so a drawable traversal's materials all have colours. */
  lemma {:induction false} MaterialsVisited(s: Shade, vs: seq<Visit>)
    ensures forall k :: k in Materials(vs) <==> exists i :: 0 <= i < |vs| && vs[i].material == k
    ensures Drawable(s, vs) ==> Materials(vs) <= s.emissive.Keys
    decreases |vs|
  {
    if vs != [] {
      MaterialsVisited(s, vs[1..]);
      forall k ensures k in Materials(vs) <==> exists i :: 0 <= i < |vs| && vs[i].material == k {
        if k in Materials(vs[1..]) {
          var i :| 0 <= i < |vs[1..]| && vs[1..][i].material == k;
          assert vs[i + 1].material == k;
        }
        if exists i :: 0 <= i < |vs| && vs[i].material == k {
          var i :| 0 <= i < |vs| && vs[i].material == k;
          if i > 0 {
            assert vs[1..][i - 1].material == k;
          }
        }
      }
    }
  }

  // ------------------------------------------------------------ as written

  /** Glow one mesh: record the material's colour on the mesh once, then set the glow colour. */
  function GlowVisit(s: Shade, v: Visit): (r: Shade)
    requires v.material in s.emissive
    ensures r.emissive.Keys == s.emissive.Keys
    ensures r.emissive[v.material] == SceneSelectorEffects.GlowColor
    ensures v.mesh in r.recorded
  {
    Shade(s.emissive[v.material := SceneSelectorEffects.GlowColor],
          if v.mesh in s.recorded then s.recorded else s.recorded[v.mesh := s.emissive[v.material]])
  }

  /** The glow pass over a traversal, in traversal order. */
  function GlowAll(s: Shade, vs: seq<Visit>): (r: Shade)
    requires Drawable(s, vs)
    decreases |vs|
    ensures r.emissive.Keys == s.emissive.Keys
  {
    if vs == [] then s else GlowAll(GlowVisit(s, vs[0]), vs[1..])
  }

  /** Unglow one mesh: copy the colour recorded on the mesh back into its material. */
  function UnglowVisit(s: Shade, v: Visit): (r: Shade)
    requires v.material in s.emissive
    ensures r.emissive.Keys == s.emissive.Keys && r.recorded == s.recorded
    ensures v.mesh in s.recorded ==> r.emissive[v.material] == s.recorded[v.mesh]
  {
    if v.mesh in s.recorded then s.(emissive := s.emissive[v.material := s.recorded[v.mesh]]) else s
  }

  /** The reset pass over a traversal, in traversal order. */
  function UnglowAll(s: Shade, vs: seq<Visit>): (r: Shade)
    requires Drawable(s, vs)
    decreases |vs|
    ensures r.emissive.Keys == s.emissive.Keys && r.recorded == s.recorded
  {
    if vs == [] then s else UnglowAll(UnglowVisit(s, vs[0]), vs[1..])
  }

  /**
   * Two meshes sharing one black material: after one glow and reset round the
   * material is left at the glow colour.
   */
  lemma SharedMaterialStaysGlowing()
    ensures var s := Shade(map[0 := SceneSelectorEffects.Black], map[]);
            var vs := [Visit(0, 0), Visit(1, 0)];
            UnglowAll(GlowAll(s, vs), vs).emissive[0] == SceneSelectorEffects.GlowColor
            && SceneSelectorEffects.GlowColor != s.emissive[0]
  {
    var s := Shade(map[0 := SceneSelectorEffects.Black], map[]);
    var vs := [Visit(0, 0), Visit(1, 0)];
    var g1 := GlowVisit(s, vs[0]);
    assert g1.recorded == map[0 := SceneSelectorEffects.Black];
    var g2 := GlowVisit(g1, vs[1]);
    assert g2.recorded[1] == SceneSelectorEffects.GlowColor;
    assert vs[1..][0] == vs[1] && vs[1..][1..] == [];
    assert GlowAll(s, vs) == GlowAll(g1, vs[1..]) == GlowAll(g2, vs[1..][1..]) == g2;
    var u1 := UnglowVisit(g2, vs[0]);
    var u2 := UnglowVisit(u1, vs[1]);
    assert UnglowAll(g2, vs) == UnglowAll(u1, vs[1..]) == UnglowAll(u2, vs[1..][1..]) == u2;
  }

  // ------------------------------------------------------------- corrected

  /** Glow one mesh, recording the colour on the material the first time it is seen. */
  function GlowVisitFixed(s: Shade, v: Visit): (r: Shade)
    requires v.material in s.emissive
    ensures r.emissive.Keys == s.emissive.Keys
    ensures r.emissive[v.material] == SceneSelectorEffects.GlowColor
    ensures v.material in r.recorded
  {
    Shade(s.emissive[v.material := SceneSelectorEffects.GlowColor],
          if v.material in s.recorded then s.recorded else s.recorded[v.material := s.emissive[v.material]])
  }

  function GlowAllFixed(s: Shade, vs: seq<Visit>): (r: Shade)
    requires Drawable(s, vs)
    decreases |vs|
    ensures r.emissive.Keys == s.emissive.Keys
  {
    if vs == [] then s else GlowAllFixed(GlowVisitFixed(s, vs[0]), vs[1..])
  }

  /** Unglow one mesh from the colour recorded on its material. */
  function UnglowVisitFixed(s: Shade, v: Visit): (r: Shade)
    requires v.material in s.emissive
    ensures r.emissive.Keys == s.emissive.Keys && r.recorded == s.recorded
    ensures v.material in s.recorded ==> r.emissive[v.material] == s.recorded[v.material]
  {
    if v.material in s.recorded then s.(emissive := s.emissive[v.material := s.recorded[v.material]]) else s
  }

  function UnglowAllFixed(s: Shade, vs: seq<Visit>): (r: Shade)
    requires Drawable(s, vs)
    decreases |vs|
    ensures r.emissive.Keys == s.emissive.Keys && r.recorded == s.recorded
  {
    if vs == [] then s else UnglowAllFixed(UnglowVisitFixed(s, vs[0]), vs[1..])
  }

  /**
   * The corrected glow pass: every visited material glows and has its colour
   * from before the pass recorded, unless one was recorded already; nothing
   * else changes.
   */
  lemma {:induction false} GlowAllFixedEffect(s: Shade, vs: seq<Visit>)
    requires Drawable(s, vs)
    decreases |vs|
    ensures var r := GlowAllFixed(s, vs);
      && (forall k :: k in r.recorded <==> k in s.recorded || k in Materials(vs))
      && (forall k :: k in s.recorded ==> r.recorded[k] == s.recorded[k])
      && (forall k :: k in Materials(vs) && k !in s.recorded ==> k in s.emissive && r.recorded[k] == s.emissive[k])
      && (forall k :: k in s.emissive ==>
            r.emissive[k] == if k in Materials(vs) then SceneSelectorEffects.GlowColor else s.emissive[k])
  {
    if vs != [] {
      var g := GlowVisitFixed(s, vs[0]);
      assert Drawable(g, vs[1..]) by {
        forall i | 0 <= i < |vs[1..]| ensures vs[1..][i].material in g.emissive {
          assert vs[1..][i] == vs[i + 1];
        }
      }
      GlowAllFixedEffect(g, vs[1..]);
    }
  }

  /**
   * The corrected reset pass: every visited material with a recorded colour
   * gets it back; nothing else changes.
   */
  lemma {:induction false} UnglowAllFixedEffect(s: Shade, vs: seq<Visit>)
    requires Drawable(s, vs)
    decreases |vs|
    ensures var r := UnglowAllFixed(s, vs);
      forall k :: k in s.emissive ==>
        r.emissive[k] == if k in Materials(vs) && k in s.recorded then s.recorded[k] else s.emissive[k]
  {
    if vs != [] {
      var u := UnglowVisitFixed(s, vs[0]);
      assert Drawable(u, vs[1..]) by {
        forall i | 0 <= i < |vs[1..]| ensures vs[1..][i].material in u.emissive {
          assert vs[1..][i] == vs[i + 1];
        }
      }
      UnglowAllFixedEffect(u, vs[1..]);
    }
  }

  /**
   * The intended property: when every recorded colour is the material's
   * current colour (as before the first hover, when nothing is recorded), a
   * glow and reset round leaves every material's colour as it was, and the
   * recorded colours still agree with them for the next round.
   */
  lemma GlowRoundRestoresSharedMaterials(s: Shade, vs: seq<Visit>)
    requires Drawable(s, vs)
    requires forall k :: k in s.recorded ==> k in s.emissive && s.recorded[k] == s.emissive[k]
    ensures var r := UnglowAllFixed(GlowAllFixed(s, vs), vs);
      && r.emissive == s.emissive
      && (forall k :: k in r.recorded ==> k in r.emissive && r.recorded[k] == r.emissive[k])
  {
    var g := GlowAllFixed(s, vs);
    MaterialsVisited(s, vs);
    GlowAllFixedEffect(s, vs);
    assert Drawable(g, vs);
    UnglowAllFixedEffect(g, vs);
    var r := UnglowAllFixed(g, vs);
    forall k | k in s.emissive ensures r.emissive[k] == s.emissive[k] {
      if k in Materials(vs) {
        assert k in g.recorded;
      }
    }
    assert r.emissive == s.emissive;
  }
}
