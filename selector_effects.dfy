/**
 * The scene selector's hover effects and floating particles
 * (final_project/src/postprocessing/sceneSelectorEffects.js).
 *
 * HoverEffects remembers one hovered root object. Hovering a doorway scales
 * it up by 1.2; hovering anything else makes the meshes under it glow. Both
 * effects are guarded by userData flags so they apply once until reset, and
 * both arm a three-second timer that resets the object if it is still hovered.
 */
module SceneSelectorEffects {
  import opened Wrappers
  import opened SceneGraph

  const HoverScale: real := 1.2
  const DoorwayZ: real := -0.5
  const GlowColor: Color := Color(0.3, 0.3, 0.5)
  const GlowIntensity: real := 0.5
  const RestingIntensity: real := 1.0
  const Black: Color := Color(0.0, 0.0, 0.0)

  /** A doorway is a 'bedroom' or 'dungeon' object standing at z = -0.5. */
  predicate IsDoorway(o: Obj)
    ensures IsDoorway(o) <==> IsRoomName(o.name) && o.z == DoorwayZ
  {
    (o.name == "bedroom" && o.z == DoorwayZ) || (o.name == "dungeon" && o.z == DoorwayZ)
  }

  /** What the glow touches: a mesh with a material. */
  predicate Glowable(c: Obj) {
    c.isMesh && c.material.Some?
  }

  /** The colour a mesh returns to: the one recorded at its first glow, else its current emissive, else black. */
  function FirstSeen(c: Obj): Color {
    c.userData.originalEmissive.GetOr(if c.material.Some? then c.material.value.emissive.GetOr(Black) else Black)
  }

  // ---------------------------------------------------------------- styles

  /** The doorway effect: scale by 1.2 and mark it scaled. */
  function ScaledUp(o: Obj): Obj {
    o.(scale := o.scale.Times(HoverScale), userData := o.userData.(isScaled := true))
  }

  /** The glow traversal's step for one object: record the emissive colour once, then glow. */
  function GlowMesh(c: Obj): (r: Obj)
    ensures Glowable(r) == Glowable(c) && FirstSeen(r) == FirstSeen(c)
    ensures Glowable(c) ==> r.material.value.emissive == Some(GlowColor) && r.material.value.emissiveIntensity == GlowIntensity
    ensures r.(material := c.material, userData := r.userData.(originalEmissive := c.userData.originalEmissive)) == c
  {
    if Glowable(c) then
      c.(userData := c.userData.(originalEmissive := Some(FirstSeen(c))),
         material := Some(c.material.value.(emissive := Some(GlowColor), emissiveIntensity := GlowIntensity)))
    else c
  }

  /** The reset traversal's step for one object: copy the recorded colour back. */
  function UnglowMesh(c: Obj): (r: Obj)
    ensures Glowable(r) == Glowable(c) && FirstSeen(r) == FirstSeen(c)
    ensures Glowable(c) && c.userData.originalEmissive.Some? ==>
      r.material.value.emissive == Some(FirstSeen(c)) && r.material.value.emissiveIntensity == RestingIntensity
    ensures r.(material := c.material) == c
  {
    if Glowable(c) && c.userData.originalEmissive.Some? then
      c.(material := Some(c.material.value.(emissive := c.userData.originalEmissive, emissiveIntensity := RestingIntensity)))
    else c
  }

  /** The objects after a hover style, and whether the style armed a reset timer. */
  datatype Styled = Styled(objects: map<ObjId, Obj>, timerArmed: bool)

  /** `applyHoverStyle(o)`, where `sub` is what `o.traverse` visits. */
  function HoverStyled(m: map<ObjId, Obj>, o: ObjId, sub: set<ObjId>): (r: Styled)
    requires o in m
    ensures SameLayout(m, r.objects)
    ensures r.timerArmed ==> r.objects[o].userData.isScaled || r.objects[o].userData.isGlowing
  {
    var obj := m[o];
    if IsDoorway(obj) then
      if !obj.userData.isScaled then Styled(m[o := ScaledUp(obj)], true) else Styled(m, false)
    else if !obj.userData.isGlowing then
      var g := map c | c in m :: if c in sub then GlowMesh(m[c]) else m[c];
      Styled(g[o := g[o].(userData := g[o].userData.(isGlowing := true))], true)
    else Styled(m, false)
  }

  /** `resetObjectStyle(o)`, where `sub` is what `o.traverse` visits. */
  function ResetStyled(m: map<ObjId, Obj>, o: ObjId, sub: set<ObjId>): (r: map<ObjId, Obj>)
    requires o in m
    ensures SameLayout(m, r)
    ensures !r[o].userData.isGlowing || IsDoorway(m[o])
  {
    var obj := m[o];
    if IsDoorway(obj) then
      if obj.userData.originalScale.Some? then
        m[o := obj.(scale := obj.userData.originalScale.value, userData := obj.userData.(isScaled := false))]
      else m
    else if obj.userData.isGlowing then
      var u := map c | c in m :: if c in sub then UnglowMesh(m[c]) else m[c];
      u[o := u[o].(userData := u[o].userData.(isGlowing := false))]
    else m
  }

  /** Styling twice is styling once: the second application changes nothing and arms no timer. */
  lemma HoverStyleIdempotent(m: map<ObjId, Obj>, o: ObjId, sub: set<ObjId>)
    requires o in m
    ensures HoverStyled(HoverStyled(m, o, sub).objects, o, sub) == Styled(HoverStyled(m, o, sub).objects, false)
  {
  }

  /**
   * A doorway grows by exactly 1.2 unless it is already scaled, only the
   * doorway itself changes, and a reset puts back the recorded original scale.
   */
  lemma DoorwayScaleOnceUntilReset(m: map<ObjId, Obj>, o: ObjId, sub: set<ObjId>)
    requires o in m && IsDoorway(m[o])
    ensures var r := HoverStyled(m, o, sub).objects;
      && r[o].userData.isScaled
      && r[o].scale == (if m[o].userData.isScaled then m[o].scale else m[o].scale.Times(1.2))
      && (forall id :: id in m && id != o ==> r[id] == m[id])
      && (m[o].userData.originalScale.Some? ==>
            var z := ResetStyled(r, o, sub);
            z[o].scale == m[o].userData.originalScale.value && !z[o].userData.isScaled)
  {
  }

  /** A reset of a doorway with no recorded scale, or of a non-glowing model, changes nothing. */
  lemma ResetWithoutEffectIsNoOp(m: map<ObjId, Obj>, o: ObjId, sub: set<ObjId>)
    requires o in m
    requires if IsDoorway(m[o]) then m[o].userData.originalScale.None? else !m[o].userData.isGlowing
    ensures ResetStyled(m, o, sub) == m
  {
  }

  /** `n` hover-and-reset cycles of one non-doorway object. */
  function GlowCycles(m: map<ObjId, Obj>, o: ObjId, sub: set<ObjId>, n: nat): (r: map<ObjId, Obj>)
    requires o in m
    ensures SameLayout(m, r)
    decreases n
  {
    if n == 0 then m
    else GlowCycles(ResetStyled(HoverStyled(m, o, sub).objects, o, sub), o, sub, n - 1)
  }

  /** One glow followed by a reset: every mesh under the object shows its first-seen colour again. */
  lemma OneGlowCycle(m: map<ObjId, Obj>, o: ObjId, sub: set<ObjId>, c: ObjId)
    requires o in m && c in m && c in sub && Glowable(m[c])
    requires !IsDoorway(m[o]) && !m[o].userData.isGlowing
    ensures var r := ResetStyled(HoverStyled(m, o, sub).objects, o, sub);
      && !r[o].userData.isGlowing
      && Glowable(r[c]) && FirstSeen(r[c]) == FirstSeen(m[c])
      && r[c].material == Some(m[c].material.value.(emissive := Some(FirstSeen(m[c])), emissiveIntensity := RestingIntensity))
  {
  }

  /**
   * However many times an object is glowed and reset, each mesh under it comes
   * back to the colour seen at the FIRST glow: `originalEmissive` is recorded
   * only once.
   */
  lemma {:induction false} GlowCyclesRestoreFirstSeen(m: map<ObjId, Obj>, o: ObjId, sub: set<ObjId>, c: ObjId, n: nat)
    requires o in m && c in m && c in sub && Glowable(m[c])
    requires !IsDoorway(m[o]) && !m[o].userData.isGlowing
    requires n >= 1
    ensures var r := GlowCycles(m, o, sub, n);
      && !r[o].userData.isGlowing
      && r[c].material == Some(m[c].material.value.(emissive := Some(FirstSeen(m[c])), emissiveIntensity := RestingIntensity))
    decreases n
  {
    var m1 := ResetStyled(HoverStyled(m, o, sub).objects, o, sub);
    OneGlowCycle(m, o, sub, c);
    if n > 1 {
      GlowCyclesRestoreFirstSeen(m1, o, sub, c, n - 1);
    }
  }

  // ------------------------------------------------------ the hover machine

  /** What a mouse move or a timer may change: the hovered root, the objects, the armed timers. */
  datatype HoverState = HoverState(hovered: Option<ObjId>, objects: map<ObjId, Obj>, pending: seq<ObjId>)

  ghost predicate HoverStateIn(s: HoverState, rank: map<ObjId, nat>) {
    && Ranked(s.objects, rank)
    && (s.hovered.Some? ==> s.hovered.value in s.objects)
    && (forall o :: o in s.pending ==> o in s.objects)
  }

  /** The state after resetting `o` (when there is one), as `resetObjectStyle` does it. */
  function ResetIn(s: HoverState, rank: map<ObjId, nat>, o: Option<ObjId>): (r: map<ObjId, Obj>)
    requires HoverStateIn(s, rank) && (o.Some? ==> o.value in s.objects)
    ensures SameLayout(s.objects, r)
  {
    if o.Some? then ResetStyled(s.objects, o.value, Subtree(s.objects, rank, o.value)) else s.objects
  }

  /** `handleMouseMove`, once the ray cast has produced its first hit (or none). */
  ghost function MouseMoveStep(s: HoverState, rank: map<ObjId, nat>, hit: Option<ObjId>): (r: HoverState)
    requires HoverStateIn(s, rank) && (hit.Some? ==> hit.value in s.objects)
    ensures HoverStateIn(r, rank) && SameLayout(s.objects, r.objects)
  {
    if hit.Some? then
      var root := RootOf(s.objects, rank, hit.value);
      if Some(root) == s.hovered then s
      else
        var reset := ResetIn(s, rank, s.hovered);
        SubtreeOfSameShape(s.objects, reset, rank, root);
        var styled := HoverStyled(reset, root, Subtree(s.objects, rank, root));
        HoverState(Some(root), styled.objects, s.pending + if styled.timerArmed then [root] else [])
    else if s.hovered.Some? then
      HoverState(None, ResetIn(s, rank, s.hovered), s.pending)
    else s
  }

  /** The oldest armed timer fires: it resets its object only if that object is still hovered. */
  ghost function TimeoutStep(s: HoverState, rank: map<ObjId, nat>): (r: HoverState)
    requires HoverStateIn(s, rank) && s.pending != []
    ensures HoverStateIn(r, rank) && SameLayout(s.objects, r.objects)
    ensures r.pending == s.pending[1..]
  {
    var o := s.pending[0];
    if s.hovered == Some(o) then HoverState(None, ResetIn(s, rank, Some(o)), s.pending[1..])
    else s.(pending := s.pending[1..])
  }

  /**
   * After a hit the hovered object is the hit's root; after a miss nothing
   * is hovered. A hit on the already-hovered root, or a miss with nothing
   * hovered, changes nothing at all.
   */
  lemma MouseMoveHovers(s: HoverState, rank: map<ObjId, nat>, hit: Option<ObjId>)
    requires HoverStateIn(s, rank) && (hit.Some? ==> hit.value in s.objects)
    ensures hit.Some? ==> MouseMoveStep(s, rank, hit).hovered == Some(RootOf(s.objects, rank, hit.value))
    ensures hit.None? ==> MouseMoveStep(s, rank, hit).hovered == None
    ensures (hit.Some? && s.hovered == Some(RootOf(s.objects, rank, hit.value))) || (hit.None? && s.hovered.None?)
            ==> MouseMoveStep(s, rank, hit) == s
  {
  }

  /**
   * A hit on a new root resets the previous hovered object FIRST and then
   * styles the new root, so the new root's effect is what remains visible:
   * a model that was not glowing ends glowing with every mesh under it at the
   * glow colour (even when the previous object was an ancestor whose reset
   * had just copied those meshes' colours back), and a doorway that was not
   * scaled ends scaled. The previous object ends reset: not glowing when it
   * is a model, back at its recorded scale when it is a doorway that has one.
   */
  lemma MouseMoveResetsBeforeStyling(s: HoverState, rank: map<ObjId, nat>, hit: ObjId)
    requires HoverStateIn(s, rank) && hit in s.objects
    requires Some(RootOf(s.objects, rank, hit)) != s.hovered
    ensures var root := RootOf(s.objects, rank, hit);
      var r := MouseMoveStep(s, rank, Some(hit)).objects;
      && (!IsDoorway(s.objects[root]) && !s.objects[root].userData.isGlowing ==>
            && r[root].userData.isGlowing
            && forall c :: c in Subtree(s.objects, rank, root) && Glowable(s.objects[c]) ==>
                 r[c].material.Some? && r[c].material.value.emissive == Some(GlowColor)
                 && r[c].material.value.emissiveIntensity == GlowIntensity)
      && (IsDoorway(s.objects[root]) ==> r[root].userData.isScaled)
    ensures var r := MouseMoveStep(s, rank, Some(hit)).objects;
      s.hovered.Some? ==>
        var p := s.hovered.value;
        && (!IsDoorway(s.objects[p]) ==> !r[p].userData.isGlowing)
        && (IsDoorway(s.objects[p]) && s.objects[p].userData.originalScale.Some? ==>
              r[p].scale == s.objects[p].userData.originalScale.value && !r[p].userData.isScaled)
  {
    var root := RootOf(s.objects, rank, hit);
    var reset := ResetIn(s, rank, s.hovered);
    var sub := Subtree(s.objects, rank, root);
    if s.hovered.Some? {
      ResetStyledEffect(s.objects, s.hovered.value, Subtree(s.objects, rank, s.hovered.value));
    }
    HoverStyledEffect(reset, root, sub);
  }

  /** What a reset leaves of the flags: only `o` loses its effect, and glowable meshes stay glowable. */
  lemma ResetStyledEffect(m: map<ObjId, Obj>, o: ObjId, sub: set<ObjId>)
    requires o in m
    ensures var r := ResetStyled(m, o, sub);
      && (forall id :: id in m ==> Glowable(r[id]) == Glowable(m[id]))
      && (forall id :: id in m && id != o ==>
            r[id].userData.isGlowing == m[id].userData.isGlowing
            && r[id].userData.isScaled == m[id].userData.isScaled && r[id].scale == m[id].scale)
      && (!IsDoorway(m[o]) ==> !r[o].userData.isGlowing)
      && (IsDoorway(m[o]) && m[o].userData.originalScale.Some? ==>
            r[o].scale == m[o].userData.originalScale.value && !r[o].userData.isScaled)
  {
  }

  /** What a hover style leaves of the flags: only `o` gains its effect, and its meshes glow. */
  lemma HoverStyledEffect(m: map<ObjId, Obj>, o: ObjId, sub: set<ObjId>)
    requires o in m
    ensures var r := HoverStyled(m, o, sub).objects;
      && (forall id :: id in m && id != o ==>
            r[id].userData.isGlowing == m[id].userData.isGlowing
            && r[id].userData.isScaled == m[id].userData.isScaled && r[id].scale == m[id].scale)
      && (IsDoorway(m[o]) ==> r[o].userData.isScaled)
      && (!IsDoorway(m[o]) && !m[o].userData.isGlowing ==>
            && r[o].userData.isGlowing
            && forall c :: c in sub && c in m && Glowable(m[c]) ==>
                 r[c].material.Some? && r[c].material.value.emissive == Some(GlowColor)
                 && r[c].material.value.emissiveIntensity == GlowIntensity)
  {
  }

  /**
   * A timer whose object is still hovered resets it and clears the hovered
   * object: a model stops glowing, a doorway with a recorded scale gets it back.
   */
  lemma LiveTimeoutResets(s: HoverState, rank: map<ObjId, nat>)
    requires HoverStateIn(s, rank) && s.pending != [] && s.hovered == Some(s.pending[0])
    ensures var o := s.pending[0];
      var r := TimeoutStep(s, rank);
      && r.hovered == None
      && (!IsDoorway(s.objects[o]) ==> !r.objects[o].userData.isGlowing)
      && (IsDoorway(s.objects[o]) && s.objects[o].userData.originalScale.Some? ==>
            r.objects[o].scale == s.objects[o].userData.originalScale.value && !r.objects[o].userData.isScaled)
  {
  }

  /** Moving the mouse twice over the same thing has the effect of moving it once. */
  lemma MouseMoveIdempotent(s: HoverState, rank: map<ObjId, nat>, hit: Option<ObjId>)
    requires HoverStateIn(s, rank) && (hit.Some? ==> hit.value in s.objects)
    ensures MouseMoveStep(MouseMoveStep(s, rank, hit), rank, hit) == MouseMoveStep(s, rank, hit)
  {
    var s1 := MouseMoveStep(s, rank, hit);
    if hit.Some? {
      RootOfSameLayout(s.objects, s1.objects, rank, hit.value);
    }
  }

  /** A timer whose object is no longer hovered only leaves the queue. */
  lemma StaleTimeoutIsNoOp(s: HoverState, rank: map<ObjId, nat>)
    requires HoverStateIn(s, rank) && s.pending != [] && s.hovered != Some(s.pending[0])
    ensures TimeoutStep(s, rank) == s.(pending := s.pending[1..])
  {
  }

  class HoverEffects {
    /** `hoveredObject`. */
    var hoveredObject: Option<ObjId>
    /** The three-second reset timers armed by `applyHoverStyle` and not yet fired, oldest first. */
    var pending: seq<ObjId>

    constructor ()
      ensures hoveredObject == None && pending == []
    {
      hoveredObject := None;
      pending := [];
    }

    function State(scene: Scene): HoverState
      reads this, scene
    {
      HoverState(hoveredObject, scene.objects, pending)
    }

    /** The hover machine and the scene it styles agree on which objects exist. */
    ghost predicate ValidIn(scene: Scene)
      reads this, scene
    {
      scene.Valid() && HoverStateIn(State(scene), scene.rank)
    }

    /** `applyHoverStyle(object)`. */
    method ApplyHoverStyle(scene: Scene, o: ObjId)
      requires ValidIn(scene) && o in scene.objects
      modifies this`pending, scene
      ensures ValidIn(scene) && scene.children == old(scene.children) && scene.rank == old(scene.rank)
      ensures var r := HoverStyled(old(scene.objects), o, Subtree(old(scene.objects), scene.rank, o));
        scene.objects == r.objects && pending == old(pending) + (if r.timerArmed then [o] else [])
    {
      var obj := scene.objects[o];
      if IsDoorway(obj) {
        if !obj.userData.isScaled {
          scene.Restyle(scene.objects[o := ScaledUp(obj)]);
          pending := pending + [o];
        }
      } else if !obj.userData.isGlowing {
        var sub := Subtree(scene.objects, scene.rank, o);
        var g := map c | c in scene.objects :: if c in sub then GlowMesh(scene.objects[c]) else scene.objects[c];
        scene.Restyle(g[o := g[o].(userData := g[o].userData.(isGlowing := true))]);
        pending := pending + [o];
      }
    }

    /** `resetObjectStyle(object)`. */
    method ResetObjectStyle(scene: Scene, o: ObjId)
      requires ValidIn(scene) && o in scene.objects
      modifies scene
      ensures ValidIn(scene) && scene.children == old(scene.children) && scene.rank == old(scene.rank)
      ensures scene.objects == ResetStyled(old(scene.objects), o, Subtree(old(scene.objects), scene.rank, o))
    {
      var obj := scene.objects[o];
      if IsDoorway(obj) {
        if obj.userData.originalScale.Some? {
          scene.Restyle(scene.objects[o := obj.(scale := obj.userData.originalScale.value,
                                                userData := obj.userData.(isScaled := false))]);
        }
      } else if obj.userData.isGlowing {
        var sub := Subtree(scene.objects, scene.rank, o);
        var u := map c | c in scene.objects :: if c in sub then UnglowMesh(scene.objects[c]) else scene.objects[c];
        scene.Restyle(u[o := u[o].(userData := u[o].userData.(isGlowing := false))]);
      }
    }

    /** `handleMouseMove`: `hit` is the first object the ray cast meets, if any. */
    method HandleMouseMove(scene: Scene, hit: Option<ObjId>)
      requires ValidIn(scene) && (hit.Some? ==> hit.value in scene.objects)
      modifies this, scene
      ensures ValidIn(scene) && scene.children == old(scene.children) && scene.rank == old(scene.rank)
      ensures State(scene) == MouseMoveStep(old(State(scene)), scene.rank, hit)
    {
      if hit.Some? {
        var root := scene.ResolveRoot(hit.value);
        if Some(root) != hoveredObject {
          ghost var before := scene.objects;
          if hoveredObject.Some? {
            ResetObjectStyle(scene, hoveredObject.value);
          }
          SubtreeOfSameShape(before, scene.objects, scene.rank, root);
          hoveredObject := Some(root);
          ApplyHoverStyle(scene, root);
        }
      } else if hoveredObject.Some? {
        ResetObjectStyle(scene, hoveredObject.value);
        hoveredObject := None;
      }
    }

    /** The oldest armed timer fires (all timers run for the same three seconds). */
    method TimeoutFired(scene: Scene)
      requires ValidIn(scene) && pending != []
      modifies this, scene
      ensures ValidIn(scene) && scene.children == old(scene.children) && scene.rank == old(scene.rank)
      ensures State(scene) == TimeoutStep(old(State(scene)), scene.rank)
    {
      var o := pending[0];
      pending := pending[1..];
      if hoveredObject == Some(o) {
        ResetObjectStyle(scene, o);
        hoveredObject := None;
      }
    }

    /** `dispose()`: resets the hovered object's style but keeps it recorded as hovered. */
    method Dispose(scene: Scene)
      requires ValidIn(scene)
      modifies scene
      ensures ValidIn(scene) && scene.children == old(scene.children) && scene.rank == old(scene.rank)
      ensures scene.objects == ResetIn(old(State(scene)), scene.rank, hoveredObject)
    {
      if hoveredObject.Some? {
        ResetObjectStyle(scene, hoveredObject.value);
      }
    }
  }

  // ------------------------------------------------------------- particles

  const ParticleCount: nat := 100
  const Rise: real := 0.01
  const Ceiling: real := 10.0

  /** One frame of one particle's height: rise by 0.01, back to 0 once above 10. */
  function Bump(y: real): (r: real)
    ensures 0.0 <= y <= Ceiling ==> 0.0 <= r <= Ceiling
    ensures r == 0.0 || r == y + Rise
  {
    if y + Rise > Ceiling then 0.0 else y + Rise
  }

  /** One frame of a position buffer (x, y, z triples): only the y entries move. */
  function Drift(s: seq<real>): (r: seq<real>)
    ensures |r| == |s|
  {
    seq(|s|, i requires 0 <= i < |s| => if i % 3 == 1 then Bump(s[i]) else s[i])
  }

  /** Every height (entries at indices 1 mod 3) lies in [0, 10]. */
  ghost predicate HeightsInRange(s: seq<real>) {
    forall i :: 0 <= i < |s| && i % 3 == 1 ==> 0.0 <= s[i] <= Ceiling
  }

  /** A frame moves only heights, and heights in [0, 10] stay in [0, 10]. */
  lemma DriftKeepsHeights(s: seq<real>)
    ensures forall i :: 0 <= i < |s| && i % 3 != 1 ==> Drift(s)[i] == s[i]
    ensures HeightsInRange(s) ==> HeightsInRange(Drift(s))
  {
  }

  /** `createParticles`' initial positions from the successive `Math.random()` draws. */
  function Spawned(randoms: seq<real>): (r: seq<real>)
    ensures |r| == |randoms|
  {
    seq(|randoms|, i requires 0 <= i < |randoms| =>
      if i % 3 == 1 then randoms[i] * 10.0 else (randoms[i] - 0.5) * 20.0)
  }

  /** Draws in [0, 1) place every particle inside the 20 x 10 x 20 box above the floor. */
  lemma SpawnedInBox(randoms: seq<real>)
    requires forall i :: 0 <= i < |randoms| ==> 0.0 <= randoms[i] < 1.0
    ensures HeightsInRange(Spawned(randoms))
    ensures forall i :: 0 <= i < |randoms| && i % 3 != 1 ==> -10.0 <= Spawned(randoms)[i] < 10.0
  {
  }

  /** The strided loop of `update()` over one position buffer. */
  method DriftBuffer(positions: array<real>)
    modifies positions
    ensures positions[..] == Drift(old(positions[..]))
  {
    var i := 1;
    while i < positions.Length
      invariant i >= 1 && i % 3 == 1
      invariant forall j :: 0 <= j < positions.Length ==>
        positions[j] == if j < i && j % 3 == 1 then Bump(old(positions[j])) else old(positions[j])
    {
      positions[i] := positions[i] + Rise;
      if positions[i] > Ceiling {
        positions[i] := 0.0;
      }
      i := i + 3;
    }
  }

  /** The fill loop of `createParticles`: three draws per particle into a new position buffer. */
  method SpawnPositions(randoms: seq<real>) returns (positions: array<real>)
    requires |randoms| == ParticleCount * 3
    ensures fresh(positions) && positions[..] == Spawned(randoms)
  {
    positions := new real[ParticleCount * 3];
    var i := 0;
    while i < ParticleCount * 3
      invariant 0 <= i <= ParticleCount * 3 && i % 3 == 0
      invariant forall j :: 0 <= j < i ==> positions[j] == Spawned(randoms)[j]
    {
      positions[i] := (randoms[i] - 0.5) * 20.0;
      positions[i + 1] := randoms[i + 1] * 10.0;
      positions[i + 2] := (randoms[i + 2] - 0.5) * 20.0;
      i := i + 3;
    }
  }

  class ParticleSystem {
    /** The position buffers of the particle clouds created so far. */
    var particles: seq<array<real>>

    function Buffers(): set<array<real>>
      reads this
    {
      set k | 0 <= k < |particles| :: particles[k]
    }

    ghost predicate Valid()
      reads this, Buffers()
    {
      && (forall i, j :: 0 <= i < j < |particles| ==> particles[i] != particles[j])
      && (forall k :: 0 <= k < |particles| ==> HeightsInRange(particles[k][..]))
    }

    constructor ()
      ensures Valid() && particles == []
    {
      particles := [];
    }

    /**
     * `createParticles(scene)`: 100 particles whose coordinates come from
     * `randoms`, one draw each, in a new cloud `points` added to the scene.
     */
    method CreateParticles(scene: Scene, points: ObjId, randoms: seq<real>)
      requires Valid() && scene.Valid()
      requires points in scene.objects && points != scene.root && scene.objects[points].parent.None?
      requires |randoms| == ParticleCount * 3
      requires forall i :: 0 <= i < |randoms| ==> 0.0 <= randoms[i] < 1.0
      modifies this, scene
      ensures Valid() && scene.Valid() && scene.rank == old(scene.rank)
      ensures scene.children == old(scene.children) + [points]
      ensures scene.objects == old(scene.objects)[points := old(scene.objects[points]).(parent := Some(scene.root))]
      ensures |particles| == |old(particles)| + 1 && particles[..|old(particles)|] == old(particles)
      ensures fresh(particles[|old(particles)|]) && particles[|old(particles)|][..] == Spawned(randoms)
    {
      var positions := SpawnPositions(randoms);
      SpawnedInBox(randoms);
      scene.Add(points);
      particles := particles + [positions];
      assert positions[..] == Spawned(randoms);
    }

    /** `update()`: one frame of drift for every cloud. */
    method Update()
      requires Valid()
      modifies Buffers()
      ensures Valid() && particles == old(particles)
      ensures forall k :: 0 <= k < |particles| ==> particles[k][..] == Drift(old(particles[k][..]))
    {
      var k := 0;
      while k < |particles|
        invariant 0 <= k <= |particles|
        invariant forall j :: 0 <= j < k ==> particles[j][..] == Drift(old(particles[j][..]))
        invariant forall j :: k <= j < |particles| ==> particles[j][..] == old(particles[j][..])
      {
        DriftBuffer(particles[k]);
        k := k + 1;
      }
      forall j | 0 <= j < |particles| ensures HeightsInRange(particles[j][..]) {
        DriftKeepsHeights(old(particles[j][..]));
      }
    }

    /** `dispose()`: the clouds are released and the list emptied. */
    method Dispose()
      modifies this
      ensures Valid() && particles == []
    {
      particles := [];
    }
  }
}
