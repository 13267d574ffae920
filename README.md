# Three.js coursework: routing, page lifecycle, scene selector and plane carousel

This project models, in Dafny, the logic of a small set of three.js browser
applications and proves properties of that model.

- **Router** (`final_project/src/router.js`): turns `window.location.hash` into
  one of four page names. JavaScript's `replace('#', '')` strips only the
  first `#`, and every unknown key falls back to `Landing`.
- **FinalApp** (`final_project/src/App.js`): the App's page lifecycle. Each
  route load disposes of the old page and empties the scene. It then builds
  the page the hash names and, once that page's `init` has completed, records
  whether the page brought a post-processing composer. Each animation frame
  lowers the one-frame flags and draws through the composer or directly.
- **SceneGraph**: the part of the three.js object model the pages rely on.
  Objects are records kept in a map under their identity. The `Scene` class
  owns that map and its ordered list of children. A ghost rank shows that
  parent chains end.
- **SceneSelectorEffects**
  (`final_project/src/postprocessing/sceneSelectorEffects.js`):
  - hover effects: doorways scale up by 1.2, other models glow, and each
    effect has three-second reset timers;
  - the particle clouds: spawned from random draws, then rising by 0.01 per
    frame and wrapping back to 0 above 10.
- **SceneSelectorPage** (`final_project/src/pages/sceneSelector.js`):
  - `init` empties the room-named children, adds the floor and lights, then
    loads four models, some of which may fail;
  - the click navigation;
  - the `update` and `dispose` bookkeeping.
- **Carousel**, **Planes** and **PlanesApp** (`HW_03/src/planes/index.js` and
  `HW_03/src/App.js`): a row of helper offsets.
  - The wheel shifts every helper.
  - The slider lays the helpers out afresh.
  - Each frame wraps the helpers into `[0, COUNT * SPACING)` with
    `gsap.utils.wrap`.
  - A mesh more than half a spacing from its helper teleports onto it before
    damping.
  - The planes file also fades each plane with its distance from the camera.

Positions, scales, colours and opacities are exact reals. `gsap.utils.wrap`
is given by its contract:
- `Carousel.Wrap` is the value of `[min, max)` that lies a whole number of
  ranges from its input;
- `Carousel.WrapUnique` proves there is only one such value.

maath's `damp` is a function parameter about which nothing is assumed.

## Model

| member | source | states |
|---|---|---|
| `Router.StripFirstHash` | final_project/src/router.js:14 | the result is one character shorter exactly when the hash contains a '#' |
| `Router.StripWithoutHash` | final_project/src/router.js:14 | a hash without '#' passes through the strip unchanged |
| `Router.StripRemovesFirstHash` | final_project/src/router.js:14 | the strip removes exactly the first '#', wherever it occurs, and keeps everything else |
| `Router.GetRoute` | final_project/src/router.js:13-16 | every hash routes to one of the four page names |
| `Router.HashKeyRoutes` | final_project/src/router.js:6-15 | `#key` routes to the table's entry for `key`, or to Landing when `key` is not in the table |
| `Router.EmptyHashIsLanding` | final_project/src/router.js:6-15 | an empty hash and a bare '#' both route to Landing |
| `Router.NamedRoutes` | final_project/src/router.js:6-11 | `#select`, `#bedroom` and `#dungeon` reach SceneSelector, Bedroom and Dungeon |
| `Router.UnknownHashIsLanding` | final_project/src/router.js:15 | a stripped hash that is not a table key falls back to Landing |
| `Router.DoubleHashIsLanding` | final_project/src/router.js:14-15 | `##` followed by any text keeps one '#' after the strip and routes to Landing |
| `Router.RoutesInjective` | final_project/src/router.js:6-11 | distinct keys route to distinct pages |
| `FinalApp.ViewFor` | final_project/src/App.js:89-104 | SceneSelector, Bedroom and Dungeon are chosen exactly for their own route names; every other route gets Landing |
| `FinalApp.ViewFollowsHash` | final_project/src/App.js:87-104 | the page built for a hash depends only on the stripped key: `select`, `bedroom` and `dungeon` pick their page, anything else Landing |
| `FinalApp.RenderPathFor` | final_project/src/App.js:148-152 | a frame goes through the composer exactly when a composer exists and is marked available |
| `FinalApp.LoadedPageRenderPath` | final_project/src/App.js:110-152 | after a completed load, frames go through a composer exactly for Bedroom and Dungeon |
| `FinalApp.HasDispose` | final_project/src/pages/landing.js:14-27 | the page classes that declare a `dispose` method: every one but Landing, which instead assigns `dispose` at the end of its `init` |
| `FinalApp.DisposeOnPage` | final_project/src/pages/landing.js:156-162 | a mounted page answers the `#view?.dispose` test whenever its class declares `dispose`; a Landing page does exactly when its `init` completed |
| `FinalApp.HasCreatePostprocessing` | final_project/src/App.js:110-122 | only Bedroom and Dungeon build a composer, and each of them also declares `dispose` |
| `FinalApp.App.constructor` | final_project/src/App.js:22-33 | the field initialisers only: no page, no composer, every flag down (the `#initialize` call at line 47 is `Load`) |
| `FinalApp.App.DrainScene` | final_project/src/App.js:70-85 | the loop leaves the scene without children; each former child is detached, and nothing else changes |
| `FinalApp.App.Load` | final_project/src/App.js:60-123 | the old page is disposed exactly when it has a `dispose` (its class declares one, or it is a Landing page whose `init` completed), and the new page's `dispose` is recorded the same way; the scene is drained before the new page's `init` (what `init` adds is not modelled here); the new page follows the hash. Once `init` completes, "view changed" is raised and the composer is available exactly for pages that build one. A rejected `init` leaves the composer flags down. The App invariant is kept |
| `FinalApp.LandingThenSelectDisposesLanding` | final_project/src/App.js:61-63 | loading Landing with a completed `init` and then `#select` calls Landing's `dispose` on the second load |
| `FinalApp.FailedLandingIsNotDisposed` | final_project/src/App.js:61-63 | a Landing page whose `init` did not complete has no `dispose` for the next load to call |
| `FinalApp.App.Mount` | final_project/src/App.js:87-122 | the route picks the page and records whether it has a `dispose`; after a completed `init` the composer and its flags follow whether the page builds a composer |
| `FinalApp.App.Animate` | final_project/src/App.js:134-156 | the one-frame flags go down; the render path is the composer exactly when one exists and is available; the page and the composer are kept |
| `SceneGraph.RemoveFirst` | final_project/src/App.js:72 | `scene.remove` of a non-child changes nothing; of a child, it shortens the list by one |
| `SceneGraph.RemoveFirstDistinct` | final_project/src/App.js:71-72 | in a child list without repeats, removal takes out exactly that object and keeps the list free of repeats |
| `SceneGraph.Subtree` | final_project/src/postprocessing/sceneSelectorEffects.js:65 | what `traverse` visits: known objects, the start object included, each having the start object as ancestor-or-self |
| `SceneGraph.RootOf` | final_project/src/postprocessing/sceneSelectorEffects.js:19-22 | the climb from a hit ends at a known object |
| `SceneGraph.RootOfIsNearest` | final_project/src/postprocessing/sceneSelectorEffects.js:19-22 | the climb ends at an ancestor-or-self that is room-named or parentless, and every room-named ancestor-or-self lies at or above it |
| `SceneGraph.AncestorHasLowerRank` | final_project/src/postprocessing/sceneSelectorEffects.js:20-22 | each step of the climb goes strictly up, so the climb ends |
| `SceneGraph.RootOfIsUnique` | final_project/src/pages/sceneSelector.js:278-280 | a room-named ancestor-or-self under which every other room-named ancestor-or-self lies IS the climb's result |
| `SceneGraph.AncestryOfSameShape` | final_project/src/postprocessing/sceneSelectorEffects.js:65 | a change that keeps identities and parent links keeps every ancestry answer |
| `SceneGraph.SubtreeOfSameShape` | final_project/src/postprocessing/sceneSelectorEffects.js:65 | restyling never changes what `traverse` visits |
| `SceneGraph.RootOfSameLayout` | final_project/src/postprocessing/sceneSelectorEffects.js:19-22 | styling never changes which root a hit climbs to |
| `SceneGraph.Reparented` | final_project/src/pages/sceneSelector.js:26-28 | the chosen objects get the new parent link; every other record is kept |
| `SceneGraph.Scene.constructor` | final_project/src/App.js:23 | a new scene is parentless and has no children |
| `SceneGraph.Scene.ResolveRoot` | final_project/src/pages/sceneSelector.js:278-280 | the climbing loop returns `RootOf` of the hit: a room-named or parentless ancestor-or-self |
| `SceneGraph.Scene.Remove` | final_project/src/App.js:72 | a child leaves the list and loses its parent; removing a non-child changes nothing; the scene invariant holds |
| `SceneGraph.Scene.Add` | final_project/src/pages/sceneSelector.js:59 | the object leaves any earlier place in the list, becomes the last child and gets the scene as parent; adding the scene to itself changes nothing |
| `SceneGraph.Scene.Restyle` | final_project/src/postprocessing/sceneSelectorEffects.js:50-51 | an in-place write to object records (scale, userData, material) keeps every identity, parent link and the children |
| `SceneSelectorEffects.IsDoorway` | final_project/src/postprocessing/sceneSelectorEffects.js:44-45 | the doorway test is exactly: room-named and standing at z = -0.5 |
| `SceneSelectorEffects.GlowMesh` | final_project/src/postprocessing/sceneSelectorEffects.js:66-72 | a glowable mesh gets the glow colour at intensity 0.5; its first-seen colour is kept (recorded only once); nothing but the material and the recorded colour changes |
| `SceneSelectorEffects.UnglowMesh` | final_project/src/postprocessing/sceneSelectorEffects.js:101-105 | a glowable mesh with a recorded colour gets it back at intensity 1; nothing but the material changes |
| `SceneSelectorEffects.HoverStyled` | final_project/src/postprocessing/sceneSelectorEffects.js:42-84 | styling keeps the layout; a timer is armed only when the object ends scaled or glowing |
| `SceneSelectorEffects.ResetStyled` | final_project/src/postprocessing/sceneSelectorEffects.js:86-111 | a reset keeps the layout and leaves a non-doorway not glowing |
| `SceneSelectorEffects.HoverStyleIdempotent` | final_project/src/postprocessing/sceneSelectorEffects.js:49-63 | styling an object a second time changes nothing and arms no timer |
| `SceneSelectorEffects.DoorwayScaleOnceUntilReset` | final_project/src/postprocessing/sceneSelectorEffects.js:44-96 | a doorway grows by exactly 1.2 unless already scaled; only the doorway changes; a reset restores the recorded scale and clears the flag |
| `SceneSelectorEffects.ResetWithoutEffectIsNoOp` | final_project/src/postprocessing/sceneSelectorEffects.js:86-111 | resetting a doorway with no recorded scale, or a model that is not glowing, changes nothing |
| `SceneSelectorEffects.GlowCycles` | final_project/src/postprocessing/sceneSelectorEffects.js:63-108 | any number of glow-and-reset cycles keeps the layout |
| `SceneSelectorEffects.OneGlowCycle` | final_project/src/postprocessing/sceneSelectorEffects.js:63-108 | one glow then one reset: each mesh under the model shows its first-seen colour again at intensity 1, and the flag is down |
| `SceneSelectorEffects.GlowCyclesRestoreFirstSeen` | final_project/src/postprocessing/sceneSelectorEffects.js:67-104 | after any number of cycles, each mesh is back at the colour seen at the FIRST glow, because `originalEmissive` is recorded only once |
| `SharedMaterials.MaterialsVisited` | final_project/src/postprocessing/sceneSelectorEffects.js:65 | the materials a traversal reaches are exactly those its meshes draw with |
| `SharedMaterials.GlowVisit` | final_project/src/postprocessing/sceneSelectorEffects.js:66-72 | as written: a mesh records its material's current colour once, and the material then glows |
| `SharedMaterials.GlowAll` | final_project/src/postprocessing/sceneSelectorEffects.js:65-73 | as written: the glow pass keeps the set of materials |
| `SharedMaterials.UnglowVisit` | final_project/src/postprocessing/sceneSelectorEffects.js:101-106 | as written: a mesh with a recorded colour copies it back into its material |
| `SharedMaterials.UnglowAll` | final_project/src/postprocessing/sceneSelectorEffects.js:100-107 | as written: the reset pass keeps the recorded colours and the set of materials |
| `SharedMaterials.SharedMaterialStaysGlowing` | final_project/src/postprocessing/sceneSelectorEffects.js:65-107 | as written: two meshes sharing a black material leave it glowing after one glow and reset round |
| `SharedMaterials.GlowVisitFixed` | final_project/src/postprocessing/sceneSelectorEffects.js:66-72 | corrected: the colour is recorded on the material the first time it is seen |
| `SharedMaterials.UnglowVisitFixed` | final_project/src/postprocessing/sceneSelectorEffects.js:101-106 | corrected: a material with a recorded colour gets it back |
| `SharedMaterials.GlowAllFixedEffect` | final_project/src/postprocessing/sceneSelectorEffects.js:65-73 | corrected: every visited material glows and has its pre-pass colour recorded unless one was already; nothing else changes |
| `SharedMaterials.UnglowAllFixedEffect` | final_project/src/postprocessing/sceneSelectorEffects.js:100-107 | corrected: every visited material with a recorded colour gets it back; nothing else changes |
| `SharedMaterials.GlowRoundRestoresSharedMaterials` | final_project/src/postprocessing/sceneSelectorEffects.js:65-107 | corrected: when the recorded colours agree with the materials, a glow and reset round leaves every material's colour unchanged and the agreement holds for the next round |
| `SceneSelectorEffects.ResetIn` | final_project/src/postprocessing/sceneSelectorEffects.js:26-28 | resetting the hovered object, if there is one, keeps the layout |
| `SceneSelectorEffects.MouseMoveStep` | final_project/src/postprocessing/sceneSelectorEffects.js:10-40 | a mouse move keeps the layout and the hover machine's invariant |
| `SceneSelectorEffects.TimeoutStep` | final_project/src/postprocessing/sceneSelectorEffects.js:54-59 | a firing timer leaves the queue, keeps the layout and the invariant |
| `SceneSelectorEffects.MouseMoveHovers` | final_project/src/postprocessing/sceneSelectorEffects.js:17-39 | after a hit, the hovered object is the hit's root; after a miss, nothing is hovered; re-hovering the same root, or missing with nothing hovered, changes nothing |
| `SceneSelectorEffects.MouseMoveResetsBeforeStyling` | final_project/src/postprocessing/sceneSelectorEffects.js:25-33 | because the previous object is reset BEFORE the new root is styled, the new root's effect is what remains: a model that was not glowing ends glowing with every mesh under it at the glow colour (even under a previous ancestor whose reset unglowed them), a doorway ends scaled; the previous object ends not glowing (a model) or back at its recorded scale (a doorway) |
| `SceneSelectorEffects.ResetStyledEffect` | final_project/src/postprocessing/sceneSelectorEffects.js:86-111 | a reset takes away only its own object's effect: other objects keep their flags and scale; glowable meshes stay glowable |
| `SceneSelectorEffects.HoverStyledEffect` | final_project/src/postprocessing/sceneSelectorEffects.js:42-84 | a hover style adds only its own object's effect: a doorway ends scaled, a model that was not glowing ends glowing with all its meshes at the glow colour; other objects keep their flags and scale |
| `SceneSelectorEffects.MouseMoveIdempotent` | final_project/src/postprocessing/sceneSelectorEffects.js:24-33 | two identical mouse moves act as one |
| `SceneSelectorEffects.StaleTimeoutIsNoOp` | final_project/src/postprocessing/sceneSelectorEffects.js:55-58 | a timer whose object is no longer hovered only leaves the queue |
| `SceneSelectorEffects.LiveTimeoutResets` | final_project/src/postprocessing/sceneSelectorEffects.js:54-59 | a timer whose object is still hovered clears the hovered object and resets it: a model stops glowing, a doorway with a recorded scale gets it back |
| `SceneSelectorEffects.HoverEffects.constructor` | final_project/src/postprocessing/sceneSelectorEffects.js:4-8 | nothing is hovered and no timer is armed |
| `SceneSelectorEffects.HoverEffects.ApplyHoverStyle` | final_project/src/postprocessing/sceneSelectorEffects.js:42-84 | the scene ends as `HoverStyled` says and a timer for the object is queued exactly when the style armed one |
| `SceneSelectorEffects.HoverEffects.ResetObjectStyle` | final_project/src/postprocessing/sceneSelectorEffects.js:86-111 | the scene ends as `ResetStyled` says; the children and the invariant are kept |
| `SceneSelectorEffects.HoverEffects.HandleMouseMove` | final_project/src/postprocessing/sceneSelectorEffects.js:10-40 | the hover state moves as `MouseMoveStep` says |
| `SceneSelectorEffects.HoverEffects.TimeoutFired` | final_project/src/postprocessing/sceneSelectorEffects.js:54-59 | the hover state moves as `TimeoutStep` says |
| `SceneSelectorEffects.HoverEffects.Dispose` | final_project/src/postprocessing/sceneSelectorEffects.js:113-117 | the hovered object is reset and stays recorded as hovered |
| `SceneSelectorEffects.Bump` | final_project/src/postprocessing/sceneSelectorEffects.js:161-164 | one particle's rise: a height in [0, 10] stays in [0, 10], either rising by 0.01 or wrapping to 0 |
| `SceneSelectorEffects.Drift` | final_project/src/postprocessing/sceneSelectorEffects.js:156-168 | one frame of a position buffer keeps its length (what it moves is stated by `DriftKeepsHeights`) |
| `SceneSelectorEffects.DriftKeepsHeights` | final_project/src/postprocessing/sceneSelectorEffects.js:160-165 | a frame changes only the y entries, and heights in [0, 10] stay in [0, 10] |
| `SceneSelectorEffects.Spawned` | final_project/src/postprocessing/sceneSelectorEffects.js:131-135 | the spawned buffer has one entry per random draw |
| `SceneSelectorEffects.SpawnedInBox` | final_project/src/postprocessing/sceneSelectorEffects.js:131-135 | draws in [0, 1) put every particle at height [0, 10] and at x, z in [-10, 10) |
| `SceneSelectorEffects.DriftBuffer` | final_project/src/postprocessing/sceneSelectorEffects.js:159-165 | the strided loop leaves the buffer equal to `Drift` of its old contents |
| `SceneSelectorEffects.SpawnPositions` | final_project/src/postprocessing/sceneSelectorEffects.js:128-140 | the fill loop produces a fresh buffer equal to `Spawned` of the draws |
| `SceneSelectorEffects.ParticleSystem.constructor` | final_project/src/postprocessing/sceneSelectorEffects.js:121-123 | no clouds |
| `SceneSelectorEffects.ParticleSystem.CreateParticles` | final_project/src/postprocessing/sceneSelectorEffects.js:125-154 | a new cloud with the spawned positions is appended and added to the scene, and the heights invariant is kept |
| `SceneSelectorEffects.ParticleSystem.Update` | final_project/src/postprocessing/sceneSelectorEffects.js:156-168 | every cloud's buffer becomes `Drift` of its old contents; heights stay in [0, 10] |
| `SceneSelectorEffects.ParticleSystem.Dispose` | final_project/src/postprocessing/sceneSelectorEffects.js:170-180 | the list of clouds is emptied |
| `SceneSelectorPage.Configured` | final_project/src/pages/sceneSelector.js:89-97 | placing a loaded model changes only its name, z, scale and userData; the new userData records the set scale as the original one and is neither scaled nor glowing |
| `SceneSelectorPage.ClickNavigation` | final_project/src/pages/sceneSelector.js:283-291 | a hash is produced exactly for a room-named root not at the doorway depth, and it is the root's name |
| `SceneSelectorPage.ModelsClickAndHover` | final_project/src/pages/sceneSelector.js:86-227 | the bedroom and the dagger navigate to their rooms and are not doorways; the two doorways are doorways and never navigate |
| `SceneSelectorPage.ClickInsideModel` | final_project/src/pages/sceneSelector.js:274-291 | a click anywhere inside a room-named object, with no other room-named object in between, goes to that room unless the object is a doorway |
| `SceneSelectorPage.Loaded` | final_project/src/pages/sceneSelector.js:85-227 | the successful loads in order: an object is listed exactly when some load produced it |
| `SceneSelectorPage.Without` | final_project/src/pages/sceneSelector.js:26-28 | the children left after the removals are exactly those not removed |
| `SceneSelectorPage.RoomChildren` | final_project/src/pages/sceneSelector.js:23-25 | the filter keeps exactly the room-named children and adds no repeats |
| `SceneSelectorPage.RemoveRoomChildren` | final_project/src/pages/sceneSelector.js:23-28 | the room-named children leave the list in order and lose their parent; nothing else changes |
| `SceneSelectorPage.AddFloorAndLights` | final_project/src/pages/sceneSelector.js:59-76 | the floor and the two lights become the last three children, in that order, under the scene |
| `SceneSelectorPage.PlacedUpTo` | final_project/src/pages/sceneSelector.js:85-227 | placing models changes records but never which objects exist |
| `SceneSelectorPage.PlaceModel` | final_project/src/pages/sceneSelector.js:86-116 | a loaded model is named, placed and scaled, gets its userData, and becomes the last child |
| `SceneSelectorPage.TryPlaceModel` | final_project/src/pages/sceneSelector.js:85-119 | one try block: success appends the model to the children and the list; failure changes nothing |
| `SceneSelectorPage.PlaceModels` | final_project/src/pages/sceneSelector.js:85-227 | the four try blocks append exactly the successful loads, in order, to the children and the selectables |
| `SceneSelectorPage.SetUpScene` | final_project/src/pages/sceneSelector.js:48-227 | floor, lights, then the loaded models are appended; the particle cloud is still unattached |
| `SceneSelectorPage.InitObjects` | final_project/src/pages/sceneSelector.js:19-245 | a completed `init` keeps the set of known objects |
| `SceneSelectorPage.InitObjectsAt` | final_project/src/pages/sceneSelector.js:19-245 | after `init`, each loaded model is configured from its own original record; the floor, lights and cloud hang under the scene; removed rooms are detached; everything else is untouched |
| `SceneSelectorPage.BuildScene` | final_project/src/pages/sceneSelector.js:20-227 | the room-named children come out; only when the environment map loaded do the floor, lights and models go in; the result is the new `selectables` |
| `SceneSelectorPage.InitScene` | final_project/src/pages/sceneSelector.js:20-245 | the scene ends as `InitOutcome` says; one cloud with the spawned positions is added exactly when the environment map loaded |
| `SceneSelectorPage.SceneSelector.constructor` | final_project/src/pages/sceneSelector.js:8-17 | no selectables, not initialized, a fresh hover machine and particle system |
| `SceneSelectorPage.SceneSelector.Init` | final_project/src/pages/sceneSelector.js:19-246 | the page is marked initialized; `selectables` is the successful loads (empty when the environment map failed); the scene and the clouds end as `InitOutcome` and `CloudAdded` say |
| `SceneSelectorPage.SceneSelector.HandleClick` | final_project/src/pages/sceneSelector.js:265-293 | a miss leaves the hash alone; a hit sets the hash to `ClickNavigation` of the hit's root, which is only ever `bedroom` or `dungeon` |
| `SceneSelectorPage.SceneSelector.HandleMouseMove` | final_project/src/pages/sceneSelector.js:295-297 | the hover state moves as `MouseMoveStep` says |
| `SceneSelectorPage.SceneSelector.Update` | final_project/src/pages/sceneSelector.js:248-263 | every particle buffer drifts one frame |
| `SceneSelectorPage.SceneSelector.Dispose` | final_project/src/pages/sceneSelector.js:299-317 | the hovered object is reset; clouds and selectables are cleared; the page is marked not initialized |
| `Carousel.Abs` | HW_03/src/planes/index.js:90 | `Math.abs`: non-negative and equal to the input or its negation |
| `Carousel.WrapSpan` | HW_03/src/planes/index.js:86 | the wrap written with the range as a parameter: in [min, min + range) and a whole number of ranges from `v` |
| `Carousel.Wrap` | HW_03/src/planes/index.js:86 | `gsap.utils.wrap(min, max, v)` lies in [min, max) and a whole number of ranges from `v` |
| `Carousel.WrapUnique` | HW_03/src/planes/index.js:86 | any value in [min, max) a whole number of ranges from `v` is the wrap of `v` |
| `Carousel.WrapInsideRange` | HW_03/src/planes/index.js:86 | a value already in [min, max) is left alone |
| `Carousel.WrapIdempotent` | HW_03/src/planes/index.js:86 | wrapping twice is wrapping once |
| `Carousel.WrapOfCongruent` | HW_03/src/App.js:171 | values a whole number of ranges apart wrap to the same place |
| `Carousel.Wrapped` | HW_03/src/planes/index.js:84-86 | after the frame's wrap every helper lies in [min, max) and a whole number of ranges from its old value |
| `Carousel.WrappedInsideRange` | HW_03/src/planes/index.js:84-86 | helpers already in range are not moved by the wrap |
| `Carousel.WrappedIdempotent` | HW_03/src/App.js:170-171 | a second frame's wrap, with no input in between, moves no helper |
| `Carousel.WrappedLoopShift` | HW_03/src/planes/index.js:70-86 | moving every helper by one whole range is invisible after the wrap |
| `Carousel.Shifted` | HW_03/src/planes/index.js:70-73 | a shift keeps the number of helpers |
| `Carousel.ShiftedKeepsGaps` | HW_03/src/planes/index.js:70-73 | a wheel shift keeps every difference between two helpers |
| `Carousel.ShiftedCompose` | HW_03/src/App.js:148-152 | two wheel events add up to one by the sum; a zero shift changes nothing |
| `Carousel.Layout` | HW_03/src/planes/index.js:76-80 | the layout has one helper per plane |
| `Carousel.LayoutGaps` | HW_03/src/planes/index.js:76-80 | neighbouring helpers are exactly one spacing apart |
| `Carousel.LayoutIsShiftedStart` | HW_03/src/App.js:141-146 | the slider's layout at `v` is the initial layout shifted by `v` |
| `Carousel.LayoutShifted` | HW_03/src/planes/index.js:70-80 | a wheel shift after the slider is the slider at the shifted offset |
| `Carousel.StartLayoutIsWrapped` | HW_03/src/planes/index.js:44-67 | the initial layout already lies in [0, COUNT * SPACING), so the first frame's wrap leaves it alone |
| `Carousel.Teleported` | HW_03/src/planes/index.js:90-92 | the mesh either stays or lands on its helper, and ends within half a spacing of it |
| `Carousel.TeleportedWithinHalfSpacing` | HW_03/src/planes/index.js:90-92 | after the teleport check the mesh is within half a spacing of its helper, and a mesh that was already that close has not moved |
| `Carousel.MeshStep` | HW_03/src/planes/index.js:88-94 | a mesh within half a spacing is damped from where it is; a farther one is damped from its helper's position |
| `Carousel.MeshesStep` | HW_03/src/App.js:170-180 | one new position per mesh |
| `Carousel.Opacity` | HW_03/src/planes/index.js:97-100 | for any distance the opacity lies in [0.2, 1] |
| `Carousel.OpacityBounds` | HW_03/src/planes/index.js:97-100 | the opacity lies in [0.2, 1]: it is 1 at distance 0 and 0.2 from `maxDist` on |
| `Carousel.OpacityMonotone` | HW_03/src/planes/index.js:97-100 | a farther plane is never more opaque |
| `Carousel.Opacities` | HW_03/src/planes/index.js:96-100 | one opacity per plane |
| `Carousel.OpacitiesInRange` | HW_03/src/planes/index.js:96-100 | every plane's opacity lies in [0.2, 1] |
| `Planes.PlanesManager.constructor` | HW_03/src/planes/index.js:24-67 | plane `i` and its helper start at `i * SPACING`; every opacity starts at 0.2; the bounds are [0, COUNT * SPACING) |
| `Planes.PlanesManager.OnWheel` | HW_03/src/planes/index.js:70-73 | every helper moves by `deltaY * SCROLL_SPEED`; nothing else changes |
| `Planes.PlanesManager.SetOffset` | HW_03/src/planes/index.js:76-80 | helper `i` goes to `i * SPACING + offset`; nothing else changes |
| `Planes.PlanesManager.Update` | HW_03/src/planes/index.js:83-102 | the helpers become their wrap; each mesh becomes the damped step from its teleported position; each opacity is that of the new mesh position; opacities stay in [0.2, 1] |
| `Planes.PlanesManager.StepPlane` | HW_03/src/planes/index.js:84-101 | one iteration changes only plane `i`: its helper wraps, its mesh teleports and damps, its opacity follows |
| `PlanesApp.SliderEndsAgree` | HW_03/src/App.js:78-171 | the slider's two end values 0 and COUNT * SPACING show the same frame once wrapped: the slider spans exactly one loop |
| `PlanesApp.App.constructor` | HW_03/src/App.js:35-135 | before the first frame, plane `i` and its helper sit at `i * SPACING`; the wrap range and the slider both span [0, COUNT * SPACING] |
| `PlanesApp.App.InitUI` | HW_03/src/App.js:73-91 | the slider runs from 0 to COUNT * SPACING in steps of 1, starting at 0; the planes are untouched |
| `PlanesApp.App.InitPlanes` | HW_03/src/App.js:104-135 | one fresh helper per mesh, both at `i * SPACING`; bounds 0 and COUNT * SPACING; the slider is untouched |
| `PlanesApp.App.OnSliderInput` | HW_03/src/App.js:141-146 | helper `i` goes to `i * SPACING + v`; nothing else changes |
| `PlanesApp.App.OnWheel` | HW_03/src/App.js:148-152 | every helper moves by `deltaY`; nothing else changes |
| `PlanesApp.App.Animate` | HW_03/src/App.js:164-187 | the helpers become their wrap into [minZ, maxZ); each mesh becomes the damped step from its teleported position |

## Left out

- Rendering, the camera, the renderer, OrbitControls, Stats, resize handlers
  and DOM creation are not modelled. The App's `#resize` and the composers'
  `setSize` are not modelled either.
- GPU resources are not modelled: `FinalApp.App.DrainScene` detaches each
  child but does not model the `dispose` of its geometry and of its material
  or array of materials (final_project/src/App.js:74-84).
- Floating-point arithmetic: every position, scale, colour and opacity is an
  exact real, and the `Float32Array` buffers are arrays of reals.
- Event wiring is not modelled: adding and removing listeners, the
  `hashchange` listener, and `requestAnimationFrame`. The event handlers are
  methods that callers invoke. The no-op `removeEventListener` calls with
  freshly bound handlers in the selector's `dispose` are not modelled.
- Asynchrony: `FinalApp.App.Load` is one atomic step. The page's `init` is
  reduced to whether it completed. A second `hashchange` during an `await` is
  not modelled.
- The ray casts are not modelled: `hit` is the first object the cast meets,
  passed in by the caller.
- The loaders are not modelled. The HDRI result is the boolean
  `environmentLoaded`. Each GLTF load is an `Option` of the detached object it
  produced, and the floor, lights and particle cloud are objects passed in.
  These objects are taken to be known to the scene's object map already,
  without a parent. Their creation is not modelled.
- Material replacement is not modelled: in a loaded model, the traversal that
  sets shadows, transparency and opacity and replaces materials without a
  colour.
- Every material a model's meshes share is treated as owned by each mesh
  separately in `SceneSelectorEffects`: aliasing between meshes that share
  one material is not modelled there. The module `SharedMaterials` models it
  for the glow colour alone (see "## Findings").
- The three-second `setTimeout`s are a FIFO queue `pending`. All timers have
  the same delay, so they fire in the order they were armed. Wall-clock time
  is not modelled.
- `FinalApp.App.Animate`: the page's own `update(elapsed)` call and the clock are not modelled here; the scene selector's `update` is `SceneSelectorPage.SceneSelector.Update`.
- The selector's `update` moves only the particles. The models' float
  animation (`Date.now()` and `Math.sin`) and the controls' update are not
  modelled.
- The particle colours (a constant `0.8, 0.8, 1.0` per particle) and the
  points material are not modelled.
- `Math.random()` is a sequence of draws passed in. The random x and y of
  each HW_03 plane mesh are not modelled, and neither are the hues of the
  planes' materials.
- The camera's z is a parameter of `Planes.PlanesManager.Update`.
- maath's `damp` is a function parameter. It takes the current and target
  positions, with the frame's delta and the damping constant folded in.
  Nothing is assumed about it, so no lemma claims the mesh converges.
- The router reads `routes[currentHash]` on a plain object, so inherited keys
  such as `constructor` would not fall back to Landing in JavaScript. The
  model looks the key up in the four-entry table only.
- `FinalApp.App.Load`: the pages' own `dispose` and `init` are not run by
  `Load`. This holds for the scene selector as well, whose `dispose` and
  `init` are modelled separately as `SceneSelectorPage.SceneSelector.Dispose`
  and `SceneSelectorPage.SceneSelector.Init`. So `Load` does not promise what
  the scene holds after `init`: it states only the drained scene. Landing,
  Bedroom and Dungeon are not part of this model. Only which of them have a
  `dispose` (a class method, or for Landing the one its completed `init`
  assigns) and which declare `createPostprocessing` is modelled.
- `FinalApp.App.constructor`: the constructor's call to `#initialize` (which
  runs `#load` up to the `await` of `init` before the constructor returns) is
  modelled as a separate call to `FinalApp.App.Load`. The constructor covers
  the field initialisers only.
- `PlanesApp.App.constructor`: the `#animate` frame that `#load` runs before
  the constructor returns is not part of the constructor. In the source that
  frame keeps the layout, since the wrap of an in-range value is the
  identity and a damp toward the current value stays put. The model's `damp`
  is an unconstrained parameter, so the model cannot show the second fact.
- `PlanesApp.App.OnSliderInput` takes the slider's value as a whole number. It
  does not constrain it to the slider's range, which the browser enforces.

## Findings

| source | as written | input that shows it | evidently intended | confidence | as-written member | corrected member |
|---|---|---|---|---|---|---|
| final_project/src/postprocessing/sceneSelectorEffects.js:67-103 | the colour to restore is recorded per mesh, so a mesh whose material an earlier mesh in the same traversal has just made glow records the glow colour | a model whose two meshes share one material with a black emissive: hover, then reset | the reset returns every material to the colour it had before the hover | not executed | `SharedMaterials.SharedMaterialStaysGlowing` | `SharedMaterials.GlowRoundRestoresSharedMaterials` |
