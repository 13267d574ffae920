/**
 * The part of the three.js object model the final project relies on.
 * Every Object3D is a record kept in a map under its identity, so reference
 * equality (`===`) is equality of identities and in-place mutation is a map
 * update; the `Scene` class owns that map and the scene's own ordered list of
 * children.
 */
module SceneGraph {
  import opened Wrappers

  /** Identity of an Object3D. */
  type ObjId = nat

  datatype Vec3 = Vec3(x: real, y: real, z: real) {
    /** `Vector3.multiplyScalar(k)`. */
    function Times(k: real): Vec3 { Vec3(x * k, y * k, z * k) }
  }

  datatype Color = Color(r: real, g: real, b: real)

  /**
   * The material fields the hover effects read and write: `emissive` (absent
   * on unlit materials) and `emissiveIntensity`.
   */
  datatype Material = Material(emissive: Option<Color>, emissiveIntensity: real)

  /** The `userData` entries the scene selector sets and tests (absent flags read as false). */
  datatype UserData = UserData(
    isScaled: bool,
    isGlowing: bool,
    originalScale: Option<Vec3>,
    originalEmissive: Option<Color>)

  const NoUserData := UserData(false, false, None, None)

  /** An Object3D: name, `position.z`, scale, parent link, mesh-ness and material, userData. */
  datatype Obj = Obj(
    name: string,
    z: real,
    scale: Vec3,
    parent: Option<ObjId>,
    isMesh: bool,
    material: Option<Material>,
    userData: UserData)

  /** `['bedroom', 'dungeon'].includes(name)`: the names that end the climb to a root. */
  predicate IsRoomName(name: string) {
    name == "bedroom" || name == "dungeon"
  }

  /** Two object maps with the same identities and the same parent links. */
  ghost predicate SameShape(m: map<ObjId, Obj>, m': map<ObjId, Obj>) {
    m.Keys == m'.Keys && forall id :: id in m ==> m'[id].parent == m[id].parent
  }

  /** Same identities, parent links, names and positions: what styling never touches. */
  ghost predicate SameLayout(m: map<ObjId, Obj>, m': map<ObjId, Obj>) {
    SameShape(m, m') && forall id :: id in m ==> m'[id].name == m[id].name && m'[id].z == m[id].z
  }

  /** `s` without its first occurrence of `x` (`splice(indexOf(x), 1)`). */
  function RemoveFirst(s: seq<ObjId>, x: ObjId): (r: seq<ObjId>)
    ensures x !in s ==> r == s
    ensures |r| == if x in s then |s| - 1 else |s|
  {
    if s == [] then []
    else if s[0] == x then s[1..]
    else [s[0]] + RemoveFirst(s[1..], x)
  }

  ghost predicate Distinct(s: seq<ObjId>) {
    forall i, j :: 0 <= i < j < |s| ==> s[i] != s[j]
  }

  /** In a list without repeats, removing `x` removes exactly `x` and keeps the list free of repeats. */
  lemma {:induction false} RemoveFirstDistinct(s: seq<ObjId>, x: ObjId)
    requires Distinct(s)
    ensures Distinct(RemoveFirst(s, x))
    ensures forall c :: c in RemoveFirst(s, x) <==> c in s && c != x
  {
    if s != [] && s[0] != x {
      assert Distinct(s[1..]) by {
        forall i, j | 0 <= i < j < |s[1..]| ensures s[1..][i] != s[1..][j] {
          assert s[1..][i] == s[i + 1] && s[1..][j] == s[j + 1];
        }
      }
      RemoveFirstDistinct(s[1..], x);
      var t := RemoveFirst(s[1..], x);
      assert s[0] !in s[1..] by {
        forall k | 0 <= k < |s[1..]| ensures s[1..][k] != s[0] { assert s[1..][k] == s[k + 1]; }
      }
      forall i, j | 0 <= i < j < |[s[0]] + t| ensures ([s[0]] + t)[i] != ([s[0]] + t)[j] {
        if i == 0 { assert ([s[0]] + t)[j] == t[j - 1]; assert t[j - 1] in t; }
      }
    } else if s != [] {
      forall i, j | 0 <= i < j < |s[1..]| ensures s[1..][i] != s[1..][j] {
        assert s[1..][i] == s[i + 1] && s[1..][j] == s[j + 1];
      }
      forall c ensures c in s[1..] <==> c in s && c != x {
        if c in s && c != x {
          var k :| 0 <= k < |s| && s[k] == c;
          assert k != 0 && s[1..][k - 1] == c;
        }
        if c in s[1..] {
          var k :| 0 <= k < |s[1..]| && s[1..][k] == c;
          assert s[k + 1] == c && k + 1 != 0;
        }
      }
    }
  }

  /**
   * `rank` witnesses that the parent links of `m` have no cycle: every parent
   * is a known object of smaller rank.
   */
  ghost predicate Ranked(m: map<ObjId, Obj>, rank: map<ObjId, nat>) {
    && (forall id :: id in m ==> id in rank)
    && (forall id :: id in m && m[id].parent.Some? ==>
          m[id].parent.value in m && rank[m[id].parent.value] < rank[id])
  }

  /** `a` is `c` or one of `c`'s ancestors. */
  function IsAncestorOrSelf(m: map<ObjId, Obj>, ghost rank: map<ObjId, nat>, a: ObjId, c: ObjId): bool
    requires Ranked(m, rank) && c in m
    decreases rank[c]
  {
    c == a || (m[c].parent.Some? && IsAncestorOrSelf(m, rank, a, m[c].parent.value))
  }

  /** The objects `a.traverse(...)` visits: `a` and all its descendants. */
  function Subtree(m: map<ObjId, Obj>, ghost rank: map<ObjId, nat>, a: ObjId): (s: set<ObjId>)
    requires Ranked(m, rank)
    ensures s <= m.Keys
    ensures a in m ==> a in s
    ensures forall c :: c in s ==> IsAncestorOrSelf(m, rank, a, c)
  {
    set c | c in m && IsAncestorOrSelf(m, rank, a, c)
  }

  /**
   * The object the hover and click handlers settle on: climb parents while
   * there is a parent and the name is neither 'bedroom' nor 'dungeon'.
   */
  ghost function RootOf(m: map<ObjId, Obj>, rank: map<ObjId, nat>, id: ObjId): (r: ObjId)
    requires Ranked(m, rank) && id in m
    ensures r in m
    decreases rank[id]
  {
    if m[id].parent.None? || IsRoomName(m[id].name) then id
    else RootOf(m, rank, m[id].parent.value)
  }

  /**
   * RootOf is the NEAREST ancestor-or-self named 'bedroom' or 'dungeon', or
   * the topmost ancestor when there is none: it is an ancestor-or-self, it is
   * named or has no parent, and every named ancestor-or-self lies at or above it.
   */
  lemma {:induction false} RootOfIsNearest(m: map<ObjId, Obj>, rank: map<ObjId, nat>, id: ObjId)
    requires Ranked(m, rank) && id in m
    ensures IsAncestorOrSelf(m, rank, RootOf(m, rank, id), id)
    ensures IsRoomName(m[RootOf(m, rank, id)].name) || m[RootOf(m, rank, id)].parent.None?
    ensures forall a :: a in m && IsAncestorOrSelf(m, rank, a, id) && IsRoomName(m[a].name) ==>
              IsAncestorOrSelf(m, rank, a, RootOf(m, rank, id))
    decreases rank[id]
  {
    if m[id].parent.Some? && !IsRoomName(m[id].name) {
      var p := m[id].parent.value;
      RootOfIsNearest(m, rank, p);
      forall a | a in m && IsAncestorOrSelf(m, rank, a, id) && IsRoomName(m[a].name)
        ensures IsAncestorOrSelf(m, rank, a, RootOf(m, rank, id))
      {
        assert a != id;
        assert IsAncestorOrSelf(m, rank, a, p);
      }
    }
  }

  /** Ancestors have smaller rank; only the object itself has the same rank as itself. */
  lemma {:induction false} AncestorHasLowerRank(m: map<ObjId, Obj>, rank: map<ObjId, nat>, a: ObjId, c: ObjId)
    requires Ranked(m, rank) && c in m && IsAncestorOrSelf(m, rank, a, c)
    ensures a in m && rank[a] <= rank[c] && (a != c ==> rank[a] < rank[c])
    decreases rank[c]
  {
    if c != a {
      AncestorHasLowerRank(m, rank, a, m[c].parent.value);
    }
  }

  /**
   * Conversely, a room-named ancestor-or-self `a` of `id` that every other
   * room-named ancestor-or-self of `id` lies above IS the resolved root.
   */
  lemma RootOfIsUnique(m: map<ObjId, Obj>, rank: map<ObjId, nat>, id: ObjId, a: ObjId)
    requires Ranked(m, rank) && id in m && a in m
    requires IsAncestorOrSelf(m, rank, a, id) && IsRoomName(m[a].name)
    requires forall b :: b in m && IsAncestorOrSelf(m, rank, b, id) && IsRoomName(m[b].name) ==>
               IsAncestorOrSelf(m, rank, b, a)
    ensures RootOf(m, rank, id) == a
  {
    var r := RootOf(m, rank, id);
    RootOfIsNearest(m, rank, id);
    AncestorHasLowerRank(m, rank, a, r);
    if !IsRoomName(m[r].name) {
      assert a == r;
    }
    AncestorHasLowerRank(m, rank, r, a);
  }

  /** A change that keeps identities and parent links keeps every ancestry question's answer. */
  lemma {:induction false} AncestryOfSameShape(m: map<ObjId, Obj>, m': map<ObjId, Obj>, rank: map<ObjId, nat>, a: ObjId, c: ObjId)
    requires Ranked(m, rank) && SameShape(m, m') && c in m
    ensures Ranked(m', rank)
    ensures IsAncestorOrSelf(m, rank, a, c) == IsAncestorOrSelf(m', rank, a, c)
    decreases rank[c]
  {
    if c != a && m[c].parent.Some? {
      AncestryOfSameShape(m, m', rank, a, m[c].parent.value);
    }
  }

  /** ...and therefore every subtree: restyling never changes what `traverse` visits. */
  lemma SubtreeOfSameShape(m: map<ObjId, Obj>, m': map<ObjId, Obj>, rank: map<ObjId, nat>, a: ObjId)
    requires Ranked(m, rank) && SameShape(m, m')
    ensures Ranked(m', rank)
    ensures Subtree(m, rank, a) == Subtree(m', rank, a)
  {
    forall c | c in m ensures IsAncestorOrSelf(m, rank, a, c) == IsAncestorOrSelf(m', rank, a, c) {
      AncestryOfSameShape(m, m', rank, a, c);
    }
  }

  /** Root resolution depends only on the layout, so styling never changes which root a hit resolves to. */
  lemma {:induction false} RootOfSameLayout(m: map<ObjId, Obj>, m': map<ObjId, Obj>, rank: map<ObjId, nat>, id: ObjId)
    requires Ranked(m, rank) && SameLayout(m, m') && id in m
    ensures Ranked(m', rank)
    ensures RootOf(m, rank, id) == RootOf(m', rank, id)
    decreases rank[id]
  {
    if m[id].parent.Some? && !IsRoomName(m[id].name) {
      RootOfSameLayout(m, m', rank, m[id].parent.value);
    }
  }

  /** `m` with every object of `ids` hung under `p` (or detached, when `p` is None). */
  function Reparented(m: map<ObjId, Obj>, ids: set<ObjId>, p: Option<ObjId>): (r: map<ObjId, Obj>)
    ensures r.Keys == m.Keys
    ensures forall id :: id in m && id !in ids ==> r[id] == m[id]
    ensures forall id :: id in m && id in ids ==> r[id] == m[id].(parent := p)
  {
    map id | id in m :: if id in ids then m[id].(parent := p) else m[id]
  }

  /** Re-parenting nothing changes nothing. */
  lemma ReparentedNothing(m: map<ObjId, Obj>, p: Option<ObjId>)
    ensures Reparented(m, {}, p) == m
  {
  }

  /** Re-parenting one more object is one more map update. */
  lemma ReparentedStep(m: map<ObjId, Obj>, ids: set<ObjId>, p: Option<ObjId>, x: ObjId)
    requires x in m
    ensures var r := Reparented(m, ids, p);
      r[x := m[x].(parent := p)] == Reparented(m, ids + {x}, p)
  {
  }

  /** A Scene: the identities it knows, its own identity `root`, and its children in order. */
  class Scene {
    const root: ObjId
    var objects: map<ObjId, Obj>
    var children: seq<ObjId>
    /** Proof device: every parent has a smaller rank than its child, so parent chains end. */
    ghost var rank: map<ObjId, nat>

    ghost predicate Valid()
      reads this
    {
      && root in objects && objects[root].parent == None
      && Ranked(objects, rank)
      && root in rank && rank[root] == 0
      && (forall id :: id in objects && id != root ==> rank[id] >= 1)
      && Distinct(children)
      && (forall c :: c in children ==> c in objects)
      && (forall id :: id in objects ==> (id in children <==> objects[id].parent == Some(root)))
    }

    /** `new THREE.Scene()`: an unnamed, parentless, empty scene. */
    constructor (rootId: ObjId)
      ensures Valid()
      ensures root == rootId && children == []
      ensures objects == map[rootId := Obj("", 0.0, Vec3(1.0, 1.0, 1.0), None, false, None, NoUserData)]
    {
      root := rootId;
      objects := map[rootId := Obj("", 0.0, Vec3(1.0, 1.0, 1.0), None, false, None, NoUserData)];
      children := [];
      rank := map[rootId := 0];
    }

    /** The climbing loop of the hover and click handlers. */
    method ResolveRoot(id: ObjId) returns (r: ObjId)
      requires Valid() && id in objects
      ensures r == RootOf(objects, rank, id)
      ensures r in objects && IsAncestorOrSelf(objects, rank, r, id)
      ensures IsRoomName(objects[r].name) || objects[r].parent.None?
    {
      r := id;
      while objects[r].parent.Some? && !IsRoomName(objects[r].name)
        invariant r in objects && RootOf(objects, rank, r) == RootOf(objects, rank, id)
        decreases rank[r]
      {
        r := objects[r].parent.value;
      }
      RootOfIsNearest(objects, rank, id);
    }

    /**
     * `scene.remove(object)`: a child loses its parent link and leaves the
     * list; anything else is left as it is.
     */
    method Remove(id: ObjId)
      requires Valid() && id in objects
      modifies this
      ensures Valid() && rank == old(rank)
      ensures old(id in children) ==>
                children == RemoveFirst(old(children), id) &&
                objects == old(objects)[id := old(objects[id]).(parent := None)]
      ensures old(id !in children) ==> children == old(children) && objects == old(objects)
    {
      if id in children {
        RemoveFirstDistinct(children, id);
        children := RemoveFirst(children, id);
        objects := objects[id := objects[id].(parent := None)];
      }
    }

    /**
     * `scene.add(object)`: the object leaves its previous parent and becomes
     * the last child of the scene. Adding the scene to itself is refused.
     */
    method Add(id: ObjId)
      requires Valid() && id in objects
      modifies this
      ensures Valid() && rank == old(rank)
      ensures id == root ==> children == old(children) && objects == old(objects)
      ensures id != root ==>
                children == RemoveFirst(old(children), id) + [id] &&
                objects == old(objects)[id := old(objects[id]).(parent := Some(root))]
    {
      if id != root {
        RemoveFirstDistinct(children, id);
        var rest := RemoveFirst(children, id);
        children := rest + [id];
        objects := objects[id := objects[id].(parent := Some(root))];
        assert Distinct(children) by {
          forall i, j | 0 <= i < j < |children| ensures children[i] != children[j] {
            if j == |children| - 1 { assert children[i] == rest[i] && rest[i] in rest; }
            else { assert children[i] == rest[i] && children[j] == rest[j]; }
          }
        }
      }
    }

    /** Restyling changes records but keeps identities and parent links. */
    method Restyle(m: map<ObjId, Obj>)
      requires Valid() && SameShape(objects, m)
      modifies this
      ensures Valid() && objects == m && children == old(children) && rank == old(rank)
      ensures objects.Keys == old(objects.Keys)
    {
      objects := m;
    }
  }
}
