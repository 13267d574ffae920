/**
 * The scene-selector page (final_project/src/pages/sceneSelector.js): four
 * models (a bedroom, a dagger, and a doorway beside each) that navigate to a
 * room when clicked, except the doorways, which only react to hovering.
 */
module SceneSelectorPage {
  import opened Wrappers
  import opened SceneGraph
  import opened SceneSelectorEffects

  /** What `init` sets on a loaded model: its name, `position.z` and scale. */
  datatype ModelSetup = ModelSetup(name: string, z: real, scale: Vec3)

  /** The models in load order: bedroom, dagger, bed doorway, dagger doorway. */
  const Models: seq<ModelSetup> := [
    ModelSetup("bedroom", 0.0, Vec3(0.00001, 0.00001, 0.00001)),
    ModelSetup("dungeon", 0.0, Vec3(0.000001, 0.000001, 0.000001)),
    ModelSetup("bedroom", -0.5, Vec3(3.0, 3.0, 3.0)),
    ModelSetup("dungeon", -0.5, Vec3(1.5, 1.5, 1.5))
  ]

  /** A loaded model after `init` has placed, named and scaled it and replaced its userData. */
  function Configured(o: Obj, setup: ModelSetup): (r: Obj)
    ensures r.(name := o.name, z := o.z, scale := o.scale, userData := o.userData) == o
    ensures r.userData.originalScale == Some(r.scale) && !r.userData.isScaled && !r.userData.isGlowing
  {
    o.(name := setup.name, z := setup.z, scale := setup.scale,
       userData := UserData(false, false, Some(setup.scale), None))
  }

  /** The navigation decision of `_handleClick` once the clicked root is known. */
  function ClickNavigation(root: Obj): (hash: Option<string>)
    ensures hash.Some? <==> root.z != DoorwayZ && IsRoomName(root.name)
    ensures hash.Some? ==> hash.value == root.name
  {
    if root.z == DoorwayZ then None
    else if root.name == "bedroom" then Some("bedroom")
    else if root.name == "dungeon" then Some("dungeon")
    else None
  }

  /**
   * The click handler and the hover effects agree on the loaded models: the
   * first two navigate to their room and are not doorways; the last two are
   * doorways and never navigate.
   */
  lemma ModelsClickAndHover(k: nat, o: Obj)
    requires k < |Models|
    ensures var c := Configured(o, Models[k]);
      && (IsDoorway(c) <==> k >= 2)
      && ClickNavigation(c) == (if k == 0 then Some("bedroom") else if k == 1 then Some("dungeon") else None)
  {
  }

  /**
   * Clicking anything inside a room-named object, with no other room-named
   * object in between, goes to that object's room unless it is a doorway.
   */
  lemma ClickInsideModel(m: map<ObjId, Obj>, rank: map<ObjId, nat>, hit: ObjId, a: ObjId)
    requires Ranked(m, rank) && hit in m && a in m
    requires IsAncestorOrSelf(m, rank, a, hit) && IsRoomName(m[a].name)
    requires forall b :: b in m && IsAncestorOrSelf(m, rank, b, hit) && IsRoomName(m[b].name) ==>
               IsAncestorOrSelf(m, rank, b, a)
    ensures ClickNavigation(m[RootOf(m, rank, hit)]) == if m[a].z == DoorwayZ then None else Some(m[a].name)
  {
    RootOfIsUnique(m, rank, hit, a);
  }

  /** The successful loads, in load order. */
  function Loaded(loads: seq<Option<ObjId>>): (r: seq<ObjId>)
    ensures |r| <= |loads|
    ensures forall id :: id in r <==> Some(id) in loads
  {
    if loads == [] then []
    else (if loads[0].Some? then [loads[0].value] else []) + Loaded(loads[1..])
  }

  /** Each success adds one entry at the end and a failure adds nothing. */
  lemma {:induction false} LoadedAppend(loads: seq<Option<ObjId>>, l: Option<ObjId>)
    ensures Loaded(loads + [l]) == Loaded(loads) + if l.Some? then [l.value] else []
  {
    if loads == [] {
      assert loads + [l] == [l];
    } else {
      assert (loads + [l])[1..] == loads[1..] + [l];
      LoadedAppend(loads[1..], l);
    }
  }

  /** The entries of `cs` not in `gone`, in their order. */
  function Without(cs: seq<ObjId>, gone: set<ObjId>): (r: seq<ObjId>)
    ensures forall c :: c in r <==> c in cs && c !in gone
  {
    if cs == [] then []
    else (if cs[0] in gone then [] else [cs[0]]) + Without(cs[1..], gone)
  }

  /** `children.filter(child => child.name === 'bedroom' || child.name === 'dungeon')`. */
  function RoomChildren(cs: seq<ObjId>, m: map<ObjId, Obj>): (r: seq<ObjId>)
    requires forall c :: c in cs ==> c in m
    ensures forall c :: c in r <==> c in cs && IsRoomName(m[c].name)
    ensures Distinct(cs) ==> Distinct(r)
  {
    if cs == [] then []
    else
      var rest := RoomChildren(cs[1..], m);
      assert Distinct(cs) ==> Distinct(cs[1..]) && cs[0] !in rest by {
        if Distinct(cs) {
          forall i, j | 0 <= i < j < |cs[1..]| ensures cs[1..][i] != cs[1..][j] {
            assert cs[1..][i] == cs[i + 1] && cs[1..][j] == cs[j + 1];
          }
          forall k | 0 <= k < |cs[1..]| ensures cs[1..][k] != cs[0] {
            assert cs[1..][k] == cs[k + 1];
          }
        }
      }
      var r := (if IsRoomName(m[cs[0]].name) then [cs[0]] else []) + rest;
      assert Distinct(cs) ==> Distinct(r) by {
        if Distinct(cs) && IsRoomName(m[cs[0]].name) {
          forall i, j | 0 <= i < j < |r| ensures r[i] != r[j] {
            if i == 0 { assert r[j] == rest[j - 1] && rest[j - 1] in rest; }
            else { assert r[i] == rest[i - 1] && r[j] == rest[j - 1]; }
          }
        }
      }
      r
  }

  /** The room-named children of `cs`, as a set. */
  ghost function RoomSet(cs: seq<ObjId>, m: map<ObjId, Obj>): set<ObjId> {
    set c | c in cs && c in m && IsRoomName(m[c].name)
  }

  /** Removing one more entry from a list without repeats is filtering it out. */
  lemma {:induction false} RemoveFirstWithout(cs: seq<ObjId>, gone: set<ObjId>, x: ObjId)
    requires Distinct(cs)
    ensures RemoveFirst(Without(cs, gone), x) == Without(cs, gone + {x})
  {
    if cs != [] {
      assert Distinct(cs[1..]) by {
        forall i, j | 0 <= i < j < |cs[1..]| ensures cs[1..][i] != cs[1..][j] {
          assert cs[1..][i] == cs[i + 1] && cs[1..][j] == cs[j + 1];
        }
      }
      RemoveFirstWithout(cs[1..], gone, x);
      var rest := Without(cs[1..], gone);
      if cs[0] in gone {
        assert Without(cs, gone) == rest;
        assert Without(cs, gone + {x}) == Without(cs[1..], gone + {x});
      } else if cs[0] == x {
        assert x !in cs[1..] by {
          forall k | 0 <= k < |cs[1..]| ensures cs[1..][k] != x {
            assert cs[1..][k] == cs[k + 1];
          }
        }
        WithoutAbsent(cs[1..], gone, x);
        assert Without(cs, gone) == [x] + rest;
        assert RemoveFirst([x] + rest, x) == rest;
        assert Without(cs, gone + {x}) == Without(cs[1..], gone + {x});
      } else {
        assert Without(cs, gone) == [cs[0]] + rest;
        assert ([cs[0]] + rest)[1..] == rest;
        assert Without(cs, gone + {x}) == [cs[0]] + Without(cs[1..], gone + {x});
      }
    }
  }

  /** Filtering out something absent changes nothing. */
  lemma {:induction false} WithoutAbsent(cs: seq<ObjId>, gone: set<ObjId>, x: ObjId)
    requires x !in cs
    ensures Without(cs, gone + {x}) == Without(cs, gone)
  {
    if cs != [] {
      WithoutAbsent(cs[1..], gone, x);
    }
  }

  /** Filtering out nothing keeps the list. */
  lemma {:induction false} WithoutNothing(cs: seq<ObjId>)
    ensures Without(cs, {}) == cs
  {
    if cs != [] {
      WithoutNothing(cs[1..]);
    }
  }

  /** An object that exists but hangs nowhere: known, not the scene itself, without a parent. */
  ghost predicate Unattached(scene: Scene, id: ObjId)
    reads scene
  {
    id in scene.objects && id != scene.root && scene.objects[id].parent.None?
  }

  /** The first step of `init()`: every child named 'bedroom' or 'dungeon' leaves the scene. */
  method RemoveRoomChildren(scene: Scene)
    requires scene.Valid()
    modifies scene
    ensures scene.Valid() && scene.rank == old(scene.rank) && scene.objects.Keys == old(scene.objects.Keys)
    ensures scene.children == Without(old(scene.children), RoomSet(old(scene.children), old(scene.objects)))
    ensures scene.objects == Reparented(old(scene.objects), RoomSet(old(scene.children), old(scene.objects)), None)
  {
    var existing := RoomChildren(scene.children, scene.objects);
    ghost var gone: set<ObjId> := {};
    WithoutNothing(scene.children);
    var i := 0;
    while i < |existing|
      invariant 0 <= i <= |existing|
      invariant scene.Valid() && scene.rank == old(scene.rank) && scene.objects.Keys == old(scene.objects.Keys)
      invariant forall c :: c in gone <==> c in existing[..i]
      invariant scene.children == Without(old(scene.children), gone)
      invariant scene.objects == Reparented(old(scene.objects), gone, None)
    {
      var obj := existing[i];
      RemoveRoomStep(old(scene.children), existing, gone, i);
      ReparentedStep(old(scene.objects), gone, None, obj);
      scene.Remove(obj);
      gone := gone + {obj};
      i := i + 1;
    }
    assert existing[..i] == existing;
    assert gone == RoomSet(old(scene.children), old(scene.objects));
  }

  /** `scene.add(floor)`, `scene.add(ambientLight)`, `scene.add(directionalLight)`. */
  method AddFloorAndLights(scene: Scene, floor: ObjId, ambient: ObjId, directional: ObjId)
    requires scene.Valid()
    requires Unattached(scene, floor) && Unattached(scene, ambient) && Unattached(scene, directional)
    requires floor != ambient && floor != directional && ambient != directional
    modifies scene
    ensures scene.Valid() && scene.rank == old(scene.rank)
    ensures scene.children == old(scene.children) + [floor, ambient, directional]
    ensures scene.objects == Reparented(old(scene.objects), {floor, ambient, directional}, Some(scene.root))
  {
    ghost var m0, c0, p := scene.objects, scene.children, Some(scene.root);
    ReparentedNothing(m0, p);
    ReparentedStep(m0, {}, p, floor);
    ReparentedStep(m0, {floor}, p, ambient);
    ReparentedStep(m0, {floor, ambient}, p, directional);
    assert {} + {floor} == {floor} && {floor} + {ambient} == {floor, ambient};
    assert {floor, ambient} + {directional} == {floor, ambient, directional};
    assert c0 + [floor] + [ambient] + [directional] == c0 + [floor, ambient, directional];

    assert floor !in scene.children;
    scene.Add(floor);
    assert scene.objects == Reparented(m0, {floor}, p);
    assert ambient !in scene.children;
    scene.Add(ambient);
    assert scene.objects == Reparented(m0, {floor, ambient}, p);
    assert directional !in scene.children;
    scene.Add(directional);
  }

  /** The objects once the first `k` loads have been configured and added under `root`. */
  function PlacedUpTo(m: map<ObjId, Obj>, loads: seq<Option<ObjId>>, root: ObjId, k: nat): (r: map<ObjId, Obj>)
    requires k <= |loads| <= |Models|
    ensures r.Keys == m.Keys
  {
    if k == 0 then m
    else
      var p := PlacedUpTo(m, loads, root, k - 1);
      if loads[k - 1].Some? && loads[k - 1].value in p then
        p[loads[k - 1].value := Configured(p[loads[k - 1].value], Models[k - 1]).(parent := Some(root))]
      else p
  }

  /**
   * With loads that are all different, each of the first `k` successful
   * loads is configured from its ORIGINAL record, and nothing else changes.
   */
  lemma {:induction false} PlacedUpToAt(m: map<ObjId, Obj>, loads: seq<Option<ObjId>>, root: ObjId, k: nat)
    requires k <= |loads| <= |Models|
    requires forall i, j :: 0 <= i < j < |loads| && loads[i].Some? ==> loads[i] != loads[j]
    ensures forall j :: 0 <= j < k && loads[j].Some? && loads[j].value in m ==>
      PlacedUpTo(m, loads, root, k)[loads[j].value] == Configured(m[loads[j].value], Models[j]).(parent := Some(root))
    ensures forall id :: id in m && id !in Loaded(loads[..k]) ==> PlacedUpTo(m, loads, root, k)[id] == m[id]
  {
    if k > 0 {
      PlacedUpToAt(m, loads, root, k - 1);
      assert loads[..k] == loads[..k - 1] + [loads[k - 1]];
      LoadedAppend(loads[..k - 1], loads[k - 1]);
      if loads[k - 1].Some? {
        var id := loads[k - 1].value;
        var pre := loads[..k - 1];
        assert id !in Loaded(pre) by {
          forall j | 0 <= j < |pre| ensures pre[j] != Some(id) { assert pre[j] == loads[j]; }
        }
      }
    }
  }

  /** One more load extends the list of successes by at most that load. */
  lemma LoadedPrefixStep(loads: seq<Option<ObjId>>, k: nat)
    requires k < |loads|
    ensures Loaded(loads[..k + 1]) == Loaded(loads[..k]) + if loads[k].Some? then [loads[k].value] else []
  {
    LoadedAppend(loads[..k], loads[k]);
    assert loads[..k + 1] == loads[..k] + [loads[k]];
  }

  /** One load of `init()`: what configuring and adding the k-th model does to the objects. */
  lemma PlaceStep(m: map<ObjId, Obj>, loads: seq<Option<ObjId>>, root: ObjId, k: nat)
    requires k < |loads| <= |Models|
    requires forall j :: 0 <= j < |loads| && loads[j].Some? ==> loads[j].value in m && m[loads[j].value].parent.None?
    requires forall i, j :: 0 <= i < j < |loads| && loads[i].Some? ==> loads[i] != loads[j]
    ensures var p := PlacedUpTo(m, loads, root, k);
      if loads[k].Some? then
        var id := loads[k].value;
        var c := Configured(p[id], Models[k]);
        && id in p && p[id].parent.None?
        && p[id := c][id := c.(parent := Some(root))] == PlacedUpTo(m, loads, root, k + 1)
      else
        PlacedUpTo(m, loads, root, k + 1) == p
  {
    var p := PlacedUpTo(m, loads, root, k);
    if loads[k].Some? {
      var id := loads[k].value;
      var pre := loads[..k];
      assert id !in Loaded(pre) by {
        forall j | 0 <= j < k ensures pre[j] != Some(id) { assert pre[j] == loads[j]; }
      }
      assert p[id] == m[id] by { PlacedUpToAt(m, loads, root, k); }
      var c := Configured(p[id], Models[k]);
      assert PlacedUpTo(m, loads, root, k + 1) == p[id := c.(parent := Some(root))];
      assert p[id := c][id := c.(parent := Some(root))] == p[id := c.(parent := Some(root))];
    }
  }

  lemma AppendAssoc(a: seq<ObjId>, b: seq<ObjId>, x: ObjId)
    ensures (a + b) + [x] == a + (b + [x])
  {
  }

  /** A successful load: name, place and scale the model, then `scene.add` it. */
  method PlaceModel(scene: Scene, id: ObjId, setup: ModelSetup)
    requires scene.Valid() && id in scene.objects && id != scene.root && scene.objects[id].parent.None?
    modifies scene
    ensures scene.Valid() && scene.rank == old(scene.rank)
    ensures scene.children == old(scene.children) + [id]
    ensures scene.objects == old(scene.objects)[id := Configured(old(scene.objects[id]), setup).(parent := Some(scene.root))]
  {
    assert id !in scene.children;
    scene.Restyle(scene.objects[id := Configured(scene.objects[id], setup)]);
    scene.Add(id);
  }

  /**
   * The k-th model load of `init()` (one try block): on success the model is
   * named, placed and scaled, added to the scene and pushed on the list;
   * on failure nothing changes.
   */
  method TryPlaceModel(scene: Scene, loads: seq<Option<ObjId>>, k: nat, placed: seq<ObjId>,
                       ghost m0: map<ObjId, Obj>, ghost c0: seq<ObjId>) returns (placed': seq<ObjId>)
    requires scene.Valid() && k < |loads| == |Models|
    requires forall j :: 0 <= j < |loads| && loads[j].Some? ==>
      loads[j].value in m0 && loads[j].value != scene.root && m0[loads[j].value].parent.None?
    requires forall i, j :: 0 <= i < j < |loads| && loads[i].Some? ==> loads[i] != loads[j]
    requires placed == Loaded(loads[..k]) && scene.children == c0 + placed
    requires scene.objects == PlacedUpTo(m0, loads, scene.root, k)
    modifies scene
    ensures scene.Valid() && scene.rank == old(scene.rank)
    ensures placed' == Loaded(loads[..k + 1]) && scene.children == c0 + placed'
    ensures scene.objects == PlacedUpTo(m0, loads, scene.root, k + 1)
  {
    PlaceStep(m0, loads, scene.root, k);
    LoadedPrefixStep(loads, k);
    placed' := placed;
    if loads[k].Some? {
      var id := loads[k].value;
      AppendAssoc(c0, placed, id);
      PlaceModel(scene, id, Models[k]);
      placed' := placed + [id];
    }
  }

  /**
   * The four model loads of `init()`. The source writes out one try block
   * per model; they differ only in the entry of `Models` they use.
   */
  method PlaceModels(scene: Scene, loads: seq<Option<ObjId>>) returns (placed: seq<ObjId>)
    requires scene.Valid() && |loads| == |Models|
    requires forall k :: 0 <= k < |loads| && loads[k].Some? ==>
      loads[k].value in scene.objects && loads[k].value != scene.root && scene.objects[loads[k].value].parent.None?
    requires forall i, j :: 0 <= i < j < |loads| && loads[i].Some? ==> loads[i] != loads[j]
    modifies scene
    ensures scene.Valid() && scene.rank == old(scene.rank)
    ensures placed == Loaded(loads)
    ensures scene.children == old(scene.children) + Loaded(loads)
    ensures scene.objects == PlacedUpTo(old(scene.objects), loads, scene.root, |loads|)
  {
    placed := [];
    var k := 0;
    while k < |loads|
      invariant 0 <= k <= |loads|
      invariant scene.Valid() && scene.rank == old(scene.rank)
      invariant placed == Loaded(loads[..k]) && scene.children == old(scene.children) + placed
      invariant scene.objects == PlacedUpTo(old(scene.objects), loads, scene.root, k)
    {
      placed := TryPlaceModel(scene, loads, k, placed, old(scene.objects), old(scene.children));
      k := k + 1;
    }
    assert loads[..k] == loads;
  }

  /**
   * The part of `init()` after the environment map has loaded that changes
   * the scene before the particles: the floor and the lights, then the four
   * models. `points` (the particle cloud, added later) is left unattached.
   */
  method SetUpScene(scene: Scene, floor: ObjId, ambient: ObjId, directional: ObjId,
                    loads: seq<Option<ObjId>>, points: ObjId) returns (placed: seq<ObjId>)
    requires scene.Valid() && |loads| == |Models|
    requires Unattached(scene, floor) && Unattached(scene, ambient) && Unattached(scene, directional)
    requires Unattached(scene, points)
    requires floor != ambient && floor != directional && ambient != directional
    requires points != floor && points != ambient && points != directional
    requires forall k :: 0 <= k < |loads| && loads[k].Some? ==>
      Unattached(scene, loads[k].value) && loads[k].value !in {floor, ambient, directional, points}
    requires forall i, j :: 0 <= i < j < |loads| && loads[i].Some? ==> loads[i] != loads[j]
    modifies scene
    ensures scene.Valid() && scene.rank == old(scene.rank) && scene.objects.Keys == old(scene.objects.Keys)
    ensures placed == Loaded(loads)
    ensures scene.children == old(scene.children) + [floor, ambient, directional] + placed
    ensures scene.objects ==
      PlacedUpTo(Reparented(old(scene.objects), {floor, ambient, directional}, Some(scene.root)), loads, scene.root, |loads|)
    ensures Unattached(scene, points)
  {
    ghost var m1 := scene.objects;
    AddFloorAndLights(scene, floor, ambient, directional);
    ghost var m2 := scene.objects;
    assert forall k :: 0 <= k < |loads| && loads[k].Some? ==> m2[loads[k].value] == m1[loads[k].value];
    assert m2[points] == m1[points];
    ghost var c2 := scene.children;
    placed := PlaceModels(scene, loads);
    assert Some(points) !in loads by {
      forall k | 0 <= k < |loads| ensures loads[k] != Some(points) {
        if loads[k].Some? { assert loads[k].value !in {floor, ambient, directional, points}; }
      }
    }
    PlacedUpToKeeps(m2, loads, scene.root, points);
  }

  /** A load sequence that never produced `id` leaves `id`'s record alone. */
  lemma PlacedUpToKeeps(m: map<ObjId, Obj>, loads: seq<Option<ObjId>>, root: ObjId, id: ObjId)
    requires |loads| <= |Models| && id in m
    requires forall i, j :: 0 <= i < j < |loads| && loads[i].Some? ==> loads[i] != loads[j]
    requires Some(id) !in loads
    ensures PlacedUpTo(m, loads, root, |loads|)[id] == m[id]
  {
    PlacedUpToAt(m, loads, root, |loads|);
    assert loads[..|loads|] == loads;
  }

  /** The object records at the end of a completed `init()`, step by step. */
  function InitObjects(m0: map<ObjId, Obj>, rooms: set<ObjId>, floorAndLights: set<ObjId>,
                       loads: seq<Option<ObjId>>, points: ObjId, root: ObjId): (r: map<ObjId, Obj>)
    requires |loads| == |Models|
    ensures r.Keys == m0.Keys
  {
    var m3 := PlacedUpTo(Reparented(Reparented(m0, rooms, None), floorAndLights, Some(root)), loads, root, |loads|);
    if points in m3 then m3[points := m3[points].(parent := Some(root))] else m3
  }

  /**
   * What a completed `init()` leaves in each record: every loaded model is
   * named, placed and scaled from its own original record and hung under the
   * scene; the floor, the lights and the particle cloud hang under the scene;
   * the room-named children that were removed have no parent; every other
   * object is untouched.
   */
  lemma {:induction false} InitObjectsAt(m0: map<ObjId, Obj>, rooms: set<ObjId>, floorAndLights: set<ObjId>,
                                         loads: seq<Option<ObjId>>, points: ObjId, root: ObjId)
    requires |loads| == |Models|
    requires points !in floorAndLights && points !in rooms && floorAndLights !! rooms
    requires forall k :: 0 <= k < |loads| && loads[k].Some? ==>
      loads[k].value !in floorAndLights && loads[k].value != points && loads[k].value !in rooms
    requires forall i, j :: 0 <= i < j < |loads| && loads[i].Some? ==> loads[i] != loads[j]
    ensures var r := InitObjects(m0, rooms, floorAndLights, loads, points, root);
      && (forall k :: 0 <= k < |loads| && loads[k].Some? && loads[k].value in m0 ==>
            r[loads[k].value] == Configured(m0[loads[k].value], Models[k]).(parent := Some(root)))
      && (forall id :: id in m0 && (id in floorAndLights || id == points) ==> r[id] == m0[id].(parent := Some(root)))
      && (forall id :: id in m0 && id !in floorAndLights && id != points && Some(id) !in loads ==>
            r[id] == if id in rooms then m0[id].(parent := None) else m0[id])
  {
    var m2 := Reparented(Reparented(m0, rooms, None), floorAndLights, Some(root));
    PlacedUpToAt(m2, loads, root, |loads|);
    assert loads[..|loads|] == loads;
    if points in m0 {
      assert Some(points) !in loads;
    }
  }

  /**
   * One removal of `init()`'s loop over the room-named children `existing`:
   * the next one is still a child and taking it out leaves the children
   * minus everything removed so far.
   */
  lemma RemoveRoomStep(cs: seq<ObjId>, existing: seq<ObjId>, gone: set<ObjId>, i: nat)
    requires Distinct(cs) && Distinct(existing) && i < |existing|
    requires forall c :: c in existing ==> c in cs
    requires forall c :: c in gone <==> c in existing[..i]
    ensures existing[i] in Without(cs, gone)
    ensures RemoveFirst(Without(cs, gone), existing[i]) == Without(cs, gone + {existing[i]})
    ensures forall c :: c in gone + {existing[i]} <==> c in existing[..i + 1]
  {
    assert existing[..i + 1] == existing[..i] + [existing[i]];
    forall k | 0 <= k < i ensures existing[..i][k] != existing[i] {
      assert existing[..i][k] == existing[k];
    }
    RemoveFirstWithout(cs, gone, existing[i]);
  }

  /**
   * The scene changes `init()` makes before the particles: the room-named
   * children come out; then, only when the environment map loaded, the
   * floor, the lights and the four models go in. The result is the new
   * `selectables`.
   */
  method BuildScene(scene: Scene, environmentLoaded: bool, floor: ObjId, ambient: ObjId, directional: ObjId,
                    loads: seq<Option<ObjId>>, points: ObjId) returns (placed: seq<ObjId>)
    requires scene.Valid() && |loads| == |Models|
    requires Unattached(scene, floor) && Unattached(scene, ambient) && Unattached(scene, directional)
    requires Unattached(scene, points)
    requires floor != ambient && floor != directional && ambient != directional
    requires points != floor && points != ambient && points != directional
    requires forall k :: 0 <= k < |loads| && loads[k].Some? ==>
      Unattached(scene, loads[k].value) && loads[k].value !in {floor, ambient, directional, points}
    requires forall i, j :: 0 <= i < j < |loads| && loads[i].Some? ==> loads[i] != loads[j]
    modifies scene
    ensures scene.Valid() && scene.rank == old(scene.rank) && scene.objects.Keys == old(scene.objects.Keys)
    ensures placed == if environmentLoaded then Loaded(loads) else []
    ensures var kept := Without(old(scene.children), RoomSet(old(scene.children), old(scene.objects)));
      scene.children == if environmentLoaded then kept + [floor, ambient, directional] + placed else kept
    ensures var removed := Reparented(old(scene.objects), RoomSet(old(scene.children), old(scene.objects)), None);
      scene.objects == if environmentLoaded
                       then PlacedUpTo(Reparented(removed, {floor, ambient, directional}, Some(scene.root)),
                                       loads, scene.root, |loads|)
                       else removed
    ensures environmentLoaded ==> Unattached(scene, points)
  {
    placed := [];
    RemoveRoomChildren(scene);
    if !environmentLoaded {
      return;
    }
    assert Unattached(scene, floor) && Unattached(scene, ambient) && Unattached(scene, directional);
    assert Unattached(scene, points);
    assert forall k :: 0 <= k < |loads| && loads[k].Some? ==> Unattached(scene, loads[k].value);
    placed := SetUpScene(scene, floor, ambient, directional, loads, points);
  }

  /**
   * What a finished `init()` leaves in the scene: without the environment
   * map only the room-named children are gone; with it the floor, the
   * lights, the loaded models and the particle cloud follow them in.
   */
  ghost predicate InitOutcome(c0: seq<ObjId>, m0: map<ObjId, Obj>, children: seq<ObjId>, objects: map<ObjId, Obj>,
                              root: ObjId, environmentLoaded: bool, floor: ObjId, ambient: ObjId, directional: ObjId,
                              loads: seq<Option<ObjId>>, points: ObjId)
    requires |loads| == |Models|
  {
    var rooms := RoomSet(c0, m0);
    var kept := Without(c0, rooms);
    if environmentLoaded then
      && children == kept + [floor, ambient, directional] + Loaded(loads) + [points]
      && objects == InitObjects(m0, rooms, {floor, ambient, directional}, loads, points, root)
    else
      && children == kept
      && objects == Reparented(m0, rooms, None)
  }

  /** What a finished `init()` leaves in the particle list: one new cloud at the end when the environment map loaded. */
  predicate CloudAdded(before: seq<array<real>>, after: seq<array<real>>, environmentLoaded: bool) {
    if environmentLoaded then |after| == |before| + 1 && after[..|before|] == before else after == before
  }

  /** `init()` after its first line: the scene, the selectable models and the particle system. */
  method InitScene(sel: SceneSelector, environmentLoaded: bool, floor: ObjId, ambient: ObjId, directional: ObjId,
                   loads: seq<Option<ObjId>>, points: ObjId, randoms: seq<real>)
    requires sel.scene.Valid() && sel.particleSystem.Valid() && |loads| == |Models|
    requires Unattached(sel.scene, floor) && Unattached(sel.scene, ambient) && Unattached(sel.scene, directional)
    requires Unattached(sel.scene, points)
    requires floor != ambient && floor != directional && ambient != directional
    requires points != floor && points != ambient && points != directional
    requires forall k :: 0 <= k < |loads| && loads[k].Some? ==>
      Unattached(sel.scene, loads[k].value) && loads[k].value !in {floor, ambient, directional, points}
    requires forall i, j :: 0 <= i < j < |loads| && loads[i].Some? ==> loads[i] != loads[j]
    requires |randoms| == ParticleCount * 3
    requires forall i :: 0 <= i < |randoms| ==> 0.0 <= randoms[i] < 1.0
    modifies sel`selectables, sel.scene, sel.particleSystem
    ensures sel.scene.Valid() && sel.particleSystem.Valid()
    ensures sel.scene.rank == old(sel.scene.rank) && sel.scene.objects.Keys == old(sel.scene.objects.Keys)
    ensures sel.selectables == if environmentLoaded then Loaded(loads) else []
    ensures InitOutcome(old(sel.scene.children), old(sel.scene.objects), sel.scene.children, sel.scene.objects,
                        sel.scene.root, environmentLoaded, floor, ambient, directional, loads, points)
    ensures CloudAdded(old(sel.particleSystem.particles), sel.particleSystem.particles, environmentLoaded)
    ensures environmentLoaded ==>
      sel.particleSystem.particles[|old(sel.particleSystem.particles)|][..] == Spawned(randoms)
  {
    var scene, particleSystem := sel.scene, sel.particleSystem;
    ghost var c0, m0 := scene.children, scene.objects;
    ghost var rooms := RoomSet(c0, m0);
    ghost var clouds := particleSystem.particles;
    sel.selectables := [];
    sel.selectables := BuildScene(scene, environmentLoaded, floor, ambient, directional, loads, points);
    assert particleSystem.particles == clouds && particleSystem.Valid();
    if environmentLoaded {
      ghost var c1, m1 := scene.children, scene.objects;
      assert m1 == PlacedUpTo(Reparented(Reparented(m0, rooms, None), {floor, ambient, directional}, Some(scene.root)),
                              loads, scene.root, |loads|);
      assert points in m1;
      particleSystem.CreateParticles(scene, points, randoms);
      assert scene.objects == m1[points := m1[points].(parent := Some(scene.root))];
      assert scene.objects == InitObjects(m0, rooms, {floor, ambient, directional}, loads, points, scene.root);
      assert scene.children == c1 + [points];
    }
  }

  class SceneSelector {
    const scene: Scene
    const hoverEffects: HoverEffects
    const particleSystem: ParticleSystem
    /** The loaded models the ray casts test, in load order. */
    var selectables: seq<ObjId>
    var isInitialized: bool

    ghost predicate Valid()
      reads scene, hoverEffects, particleSystem, particleSystem.Buffers()
    {
      hoverEffects.ValidIn(scene) && particleSystem.Valid()
    }

    constructor (scene: Scene)
      requires scene.Valid()
      ensures Valid() && this.scene == scene
      ensures selectables == [] && !isInitialized
      ensures fresh(hoverEffects) && fresh(particleSystem)
      ensures hoverEffects.hoveredObject == None && hoverEffects.pending == [] && particleSystem.particles == []
    {
      this.scene := scene;
      selectables := [];
      isInitialized := false;
      hoverEffects := new HoverEffects();
      particleSystem := new ParticleSystem();
    }

    /**
     * `init()`. `environmentLoaded` is whether the HDRI load resolved (a
     * rejection ends `init` right there); `floor`, `ambient` and
     * `directional` are the floor mesh and the two lights; `loads[k]` is the
     * model the k-th GLTF load produced, detached, or None when that load
     * failed; `points` is the particle cloud's object and `randoms` its
     * `Math.random()` draws.
     */
    method Init(environmentLoaded: bool, floor: ObjId, ambient: ObjId, directional: ObjId,
                loads: seq<Option<ObjId>>, points: ObjId, randoms: seq<real>)
      requires Valid() && |loads| == |Models|
      requires Unattached(scene, floor) && Unattached(scene, ambient) && Unattached(scene, directional)
      requires Unattached(scene, points)
      requires floor != ambient && floor != directional && ambient != directional
      requires points != floor && points != ambient && points != directional
      requires forall k :: 0 <= k < |loads| && loads[k].Some? ==>
        Unattached(scene, loads[k].value) && loads[k].value !in {floor, ambient, directional, points}
      requires forall i, j :: 0 <= i < j < |loads| && loads[i].Some? ==> loads[i] != loads[j]
      requires |randoms| == ParticleCount * 3
      requires forall i :: 0 <= i < |randoms| ==> 0.0 <= randoms[i] < 1.0
      modifies this, scene, particleSystem
      ensures Valid() && isInitialized
      ensures selectables == if environmentLoaded then Loaded(loads) else []
      ensures hoverEffects.hoveredObject == old(hoverEffects.hoveredObject)
      ensures InitOutcome(old(scene.children), old(scene.objects), scene.children, scene.objects, scene.root,
                          environmentLoaded, floor, ambient, directional, loads, points)
      ensures CloudAdded(old(particleSystem.particles), particleSystem.particles, environmentLoaded)
      ensures environmentLoaded ==> particleSystem.particles[|old(particleSystem.particles)|][..] == Spawned(randoms)
    {
      isInitialized := true;
      ghost var hovered, pending := hoverEffects.hoveredObject, hoverEffects.pending;
      InitScene(this, environmentLoaded, floor, ambient, directional, loads, points, randoms);
      assert hoverEffects.hoveredObject == hovered && hoverEffects.pending == pending;
    }

    /**
     * `_handleClick`: `hit` is the first object the ray cast meets, if any;
     * the result is the hash the click assigns, or None when it leaves the
     * hash alone.
     */
    method HandleClick(hit: Option<ObjId>) returns (hash: Option<string>)
      requires scene.Valid() && (hit.Some? ==> hit.value in scene.objects)
      ensures hit.None? ==> hash.None?
      ensures hit.Some? ==> hash == ClickNavigation(scene.objects[RootOf(scene.objects, scene.rank, hit.value)])
      ensures hash.Some? ==> hash.value == "bedroom" || hash.value == "dungeon"
    {
      hash := None;
      if hit.Some? {
        var clicked := scene.ResolveRoot(hit.value);
        var isDoorway := scene.objects[clicked].z == DoorwayZ;
        if !isDoorway {
          if scene.objects[clicked].name == "bedroom" {
            hash := Some("bedroom");
          } else if scene.objects[clicked].name == "dungeon" {
            hash := Some("dungeon");
          }
        }
      }
    }

    /** `_handleMouseMove`: handed to the hover effects. */
    method HandleMouseMove(hit: Option<ObjId>)
      requires Valid() && (hit.Some? ==> hit.value in scene.objects)
      modifies hoverEffects, scene
      ensures Valid() && scene.children == old(scene.children) && scene.rank == old(scene.rank)
      ensures hoverEffects.State(scene) == MouseMoveStep(old(hoverEffects.State(scene)), scene.rank, hit)
    {
      hoverEffects.HandleMouseMove(scene, hit);
    }

    /** `update()`: the particle drift (the orbit controls and the float are not modelled). */
    method Update()
      requires Valid()
      modifies particleSystem.Buffers()
      ensures Valid() && particleSystem.particles == old(particleSystem.particles)
      ensures forall k :: 0 <= k < |particleSystem.particles| ==>
        particleSystem.particles[k][..] == Drift(old(particleSystem.particles[k][..]))
    {
      particleSystem.Update();
    }

    /** `dispose()`. */
    method Dispose()
      requires Valid()
      modifies this, scene, particleSystem
      ensures Valid() && selectables == [] && !isInitialized
      ensures particleSystem.particles == [] && scene.rank == old(scene.rank)
      ensures hoverEffects.hoveredObject == old(hoverEffects.hoveredObject)
      ensures scene.children == old(scene.children)
      ensures scene.objects == ResetIn(old(hoverEffects.State(scene)), scene.rank, hoverEffects.hoveredObject)
    {
      hoverEffects.Dispose(scene);
      particleSystem.Dispose();
      selectables := [];
      isInitialized := false;
    }
  }
}
