/**
 * The page and composer lifecycle of the final project's App
 * (final_project/src/App.js). On every route load the App disposes of the
 * old page, empties the scene, builds the page the hash names and records
 * whether that page brought a post-processing composer. Every animation frame
 * clears the one-frame flags and renders through the composer or directly.
 */
module FinalApp {
  import opened Wrappers
  import Router
  import opened SceneGraph

  /** The four page classes. */
  datatype ViewKind = Landing | SceneSelector | Bedroom | Dungeon

  /**
   * Pages whose class declares a `dispose` method: all but Landing. Landing
   * instead assigns `this.dispose` as the last statement of its `init`, which
   * never awaits, so a Landing page has `dispose` exactly once its `init` has
   * completed (see `DisposeOnPage`).
   */
  predicate HasDispose(k: ViewKind)
    ensures HasDispose(k) <==> k != Landing
  {
    k != Landing
  }

  /** Pages that declare `createPostprocessing` (and `setComposer`): Bedroom and Dungeon. */
  predicate HasCreatePostprocessing(k: ViewKind)
    ensures HasCreatePostprocessing(k) ==> HasDispose(k)
  {
    k == Bedroom || k == Dungeon
  }

  /**
   * Whether a mounted page answers the `#view?.dispose` test of `#load`: its
   * class declares `dispose`, or it is a Landing page whose `init` completed.
   */
  predicate DisposeOnPage(k: ViewKind, initCompleted: bool)
    ensures !HasDispose(k) ==> (DisposeOnPage(k, initCompleted) <==> initCompleted)
    ensures k != Landing ==> DisposeOnPage(k, initCompleted)
  {
    HasDispose(k) || initCompleted
  }

  /** The `switch (route)` of `#load`, with Landing as its `default`. */
  function ViewFor(route: string): (k: ViewKind)
    ensures route == "SceneSelector" <==> k == SceneSelector
    ensures route == "Bedroom" <==> k == Bedroom
    ensures route == "Dungeon" <==> k == Dungeon
  {
    match route
    case "Landing" => Landing
    case "SceneSelector" => SceneSelector
    case "Bedroom" => Bedroom
    case "Dungeon" => Dungeon
    case _ => Landing
  }

  /** The page a location hash leads to: the router's name, then the switch. */
  lemma ViewFollowsHash(hash: string)
    ensures var key := Router.StripFirstHash(hash);
      ViewFor(Router.GetRoute(hash)) ==
        if key == "select" then SceneSelector
        else if key == "bedroom" then Bedroom
        else if key == "dungeon" then Dungeon
        else Landing
  {
  }

  /** A composer built by a page's `createPostprocessing`. */
  datatype Composer = Composer(owner: ViewKind)

  /** The two ways a frame is drawn. */
  datatype RenderPath = ThroughComposer | Direct

  /** The render-path choice of `#animate`. */
  function RenderPathFor(composer: Option<Composer>, composerAvailable: bool): (p: RenderPath)
    ensures p == ThroughComposer <==> composer.Some? && composerAvailable
  {
    if composer.Some? && composerAvailable then ThroughComposer else Direct
  }

  /**
   * After a load that completed, the next frame goes through the composer
   * exactly for the pages that build one.
   */
  lemma LoadedPageRenderPath(k: ViewKind)
    ensures RenderPathFor(if HasCreatePostprocessing(k) then Some(Composer(k)) else None,
                          HasCreatePostprocessing(k))
            == if k == Bedroom || k == Dungeon then ThroughComposer else Direct
  {
  }

  class App {
    /** The one THREE.Scene every page draws into. */
    const scene: Scene
    var view: Option<ViewKind>
    var composer: Option<Composer>
    var composerAvailable: bool
    var composerUsed: bool
    var composerJustBecameAvailable: bool
    var viewChanged: bool
    /** Whether the current page has a `dispose` to call, as `DisposeOnPage` decides. */
    var viewHasDispose: bool

    /**
     * What every reachable App state satisfies: a composer is marked available
     * only while one exists and belongs to the current page; "just became
     * available" implies both "available" and "view changed"; `#composerUsed`
     * is never set.
     */
    ghost predicate Valid()
      reads this, scene
    {
      && scene.Valid()
      && (composerAvailable ==> composer.Some? && view == Some(composer.value.owner)
                                && HasCreatePostprocessing(composer.value.owner))
      && (composerJustBecameAvailable ==> composerAvailable && viewChanged)
      && (viewChanged ==> view.Some?)
      && (viewHasDispose ==> view.Some?)
      && (view.Some? && HasDispose(view.value) ==> viewHasDispose)
      && !composerUsed
    }

    /** A fresh App: no page, no composer, every flag down. */
    constructor (sceneId: ObjId)
      ensures Valid()
      ensures view == None && composer == None && !viewHasDispose
      ensures !composerAvailable && !composerUsed && !composerJustBecameAvailable && !viewChanged
      ensures fresh(scene) && scene.children == []
    {
      scene := new Scene(sceneId);
      view := None;
      composer := None;
      composerAvailable := false;
      composerUsed := false;
      composerJustBecameAvailable := false;
      viewChanged := false;
      viewHasDispose := false;
    }

    /**
     * The drain loop of `#load`: remove the first child until none is left.
     * Every former child is detached; no other object changes.
     */
    method DrainScene()
      requires Valid()
      modifies scene
      ensures Valid() && scene.children == [] && scene.rank == old(scene.rank)
      ensures scene.objects.Keys == old(scene.objects.Keys)
      ensures forall id :: id in scene.objects ==>
        scene.objects[id] == if id in old(scene.children) then old(scene.objects[id]).(parent := None)
                             else old(scene.objects[id])
    {
      while |scene.children| > 0
        invariant Valid() && scene.rank == old(scene.rank)
        invariant scene.objects.Keys == old(scene.objects.Keys)
        invariant forall c :: c in scene.children ==> c in old(scene.children)
        invariant forall id :: id in scene.objects ==>
          scene.objects[id] ==
            if id in old(scene.children) && id !in scene.children then old(scene.objects[id]).(parent := None)
            else old(scene.objects[id])
        decreases |scene.children|
      {
        var child := scene.children[0];
        ghost var before := scene.children;
        scene.Remove(child);
        assert scene.children == before[1..];
        assert forall c :: c in before <==> c == child || c in scene.children by {
          RemoveFirstDistinct(before, child);
        }
      }
    }

    /**
     * `#load()`, taken as one step. `hash` is the location hash;
     * `initSucceeded` is whether the new page's `init` completed (a rejected
     * `init` abandons the rest of `#load`). The result is the page whose
     * `dispose` was called, if any. The scene is left as the drain leaves it:
     * what the new page's `init` then adds is not part of this step.
     */
    method Load(hash: string, initSucceeded: bool) returns (disposed: Option<ViewKind>)
      requires Valid()
      modifies this, scene
      ensures Valid()
      ensures disposed == if old(view).Some? && old(viewHasDispose) then old(view) else None
      ensures view == Some(ViewFor(Router.GetRoute(hash)))
      ensures viewHasDispose == DisposeOnPage(view.value, initSucceeded)
      ensures scene.children == [] && scene.objects.Keys == old(scene.objects.Keys)
      ensures !composerUsed
      ensures initSucceeded ==>
        && viewChanged
        && composerAvailable == HasCreatePostprocessing(view.value)
        && composerJustBecameAvailable == composerAvailable
        && composer == if composerAvailable then Some(Composer(view.value)) else None
      ensures !initSucceeded ==>
        && !composerAvailable && !composerJustBecameAvailable
        && composer == old(composer) && viewChanged == old(viewChanged)
    {
      disposed := None;
      if view.Some? && viewHasDispose {
        disposed := view;
      }
      composerAvailable := false;
      composerUsed := false;
      composerJustBecameAvailable := false;

      DrainScene();
      Mount(hash, initSucceeded);
    }

    /**
     * The second half of `#load()`: the route picks the new page, and once
     * its `init` has completed the composer flags follow whether the page
     * builds a composer.
     */
    method Mount(hash: string, initSucceeded: bool)
      requires Valid() && !composerAvailable && !composerJustBecameAvailable
      modifies this
      ensures Valid() && scene.children == old(scene.children) && composerUsed == old(composerUsed)
      ensures view == Some(ViewFor(Router.GetRoute(hash)))
      ensures viewHasDispose == DisposeOnPage(view.value, initSucceeded)
      ensures initSucceeded ==>
        && viewChanged
        && composerAvailable == HasCreatePostprocessing(view.value)
        && composerJustBecameAvailable == composerAvailable
        && composer == if composerAvailable then Some(Composer(view.value)) else None
      ensures !initSucceeded ==>
        && !composerAvailable && !composerJustBecameAvailable
        && composer == old(composer) && viewChanged == old(viewChanged)
    {
      var route := Router.GetRoute(hash);
      var kind := ViewFor(route);
      view := Some(kind);
      viewHasDispose := DisposeOnPage(kind, initSucceeded);

      if !initSucceeded {
        return;
      }
      if HasCreatePostprocessing(kind) {
        composer := Some(Composer(kind));
        composerAvailable := true;
        composerJustBecameAvailable := true;
        viewChanged := true;
      } else {
        composer := None;
        composerAvailable := false;
        viewChanged := true;
      }
    }

    /**
     * One frame of `#animate()` (the page's own `update` is not modelled):
     * the one-frame flags go down and the frame is drawn through the composer
     * exactly when one exists and is available.
     */
    method Animate() returns (path: RenderPath)
      requires Valid()
      modifies this
      ensures Valid()
      ensures !viewChanged && !composerJustBecameAvailable
      ensures path == ThroughComposer <==> composer.Some? && composerAvailable
      ensures view == old(view) && composer == old(composer) && viewHasDispose == old(viewHasDispose)
      ensures composerAvailable == old(composerAvailable) && composerUsed == old(composerUsed)
    {
      if viewChanged {
        viewChanged := false;
        composerJustBecameAvailable := false;
      }
      path := RenderPathFor(composer, composerAvailable);
    }
  }

  /**
   * Landing, then the scene selector: Landing's completed `init` gave it a
   * `dispose`, so the second load calls it.
   */
  method LandingThenSelectDisposesLanding(app: App) returns (disposed: Option<ViewKind>)
    requires app.Valid()
    modifies app, app.scene
    ensures disposed == Some(Landing)
    ensures app.view == Some(SceneSelector)
  {
    var first := app.Load("", true);
    assert app.view == Some(Landing);
    disposed := app.Load("#select", true);
  }

  /** A Landing page whose `init` did not complete has no `dispose` for the next load to call. */
  method FailedLandingIsNotDisposed(app: App) returns (disposed: Option<ViewKind>)
    requires app.Valid()
    modifies app, app.scene
    ensures disposed == None
  {
    var first := app.Load("", false);
    assert app.view == Some(Landing);
    disposed := app.Load("#select", true);
  }
}
