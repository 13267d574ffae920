/**
 * The carousel inlined in HW_03/src/App.js: the same helper/mesh scheme as
 * `Planes.PlanesManager`, with planes 120 apart, a range slider over one
 * full loop, a wheel that moves every helper by the raw `deltaY`, and a
 * frame that wraps and teleports but does not fade.
 *
 * The renderer, camera, Stats, the scene group and the resize handler are
 * not modelled; the slider is the four attributes `#initUI` sets, as
 * numbers; maath's `damp` with the frame's delta is a parameter of
 * `Animate`.
 */
module PlanesApp {
  import opened Carousel

  const Count: nat := 10
  /** `#SPACING`, a whole number of units. */
  const SpacingUnits: nat := 120
  const Spacing: real := SpacingUnits as real

  /**
   * The slider spans exactly one loop of the carousel: its two end values
   * lay the helpers out differently, but after the frame's wrap both show
   * the same planes in the same places.
   */
  lemma SliderEndsAgree()
    ensures var max := (Count * SpacingUnits) as real;
      Wrapped(Layout(Count, Spacing, max), 0.0, max) == Wrapped(Layout(Count, Spacing, 0.0), 0.0, max)
  {
    var max := (Count * SpacingUnits) as real;
    LayoutShifted(Count, Spacing, 0.0, max);
    WrappedLoopShift(Layout(Count, Spacing, 0.0), 0.0, max);
  }

  class App {
    /** `#helpers[i].z`. */
    var helpers: array<real>
    /** `#meshes[i].position.z`. */
    var meshZ: array<real>
    var minZ: real
    var maxZ: real
    /** The slider's `min`, `max`, `step` and `value`. */
    var sliderMin: int
    var sliderMax: int
    var sliderStep: int
    var sliderValue: int

    /**
     * After start-up: one helper per mesh, the wrap range [0, COUNT * SPACING),
     * and a slider from 0 to the same COUNT * SPACING in steps of 1.
     */
    ghost predicate Valid()
      reads this
    {
      && helpers.Length == Count && meshZ.Length == Count && helpers != meshZ
      && minZ == 0.0 && maxZ == (Count * SpacingUnits) as real
      && sliderMin == 0 && sliderMax == Count * SpacingUnits && sliderStep == 1
    }

    /**
     * `constructor` and `#init` as far as the carousel goes: `#initUI`, then
     * `#initPlanes`. The source's `#load` also runs one `#animate` frame before
     * the constructor returns; that frame is not part of this step (it is
     * `Animate`, which callers invoke), so the layout stated here is the one
     * before that frame.
     */
    constructor ()
      ensures Valid() && fresh(helpers) && fresh(meshZ)
      ensures helpers[..] == Layout(Count, Spacing, 0.0) && meshZ[..] == Layout(Count, Spacing, 0.0)
      ensures sliderValue == 0
    {
      helpers := new real[0];
      meshZ := new real[0];
      new;
      InitUI();
      InitPlanes();
    }

    /** `#initUI`: a range input from 0 to COUNT * SPACING, step 1, at 0. */
    method InitUI()
      modifies this
      ensures sliderMin == 0 && sliderMax == Count * SpacingUnits && sliderStep == 1 && sliderValue == 0
      ensures helpers == old(helpers) && meshZ == old(meshZ) && minZ == old(minZ) && maxZ == old(maxZ)
    {
      sliderMin := 0;
      sliderMax := Count * SpacingUnits;
      sliderStep := 1;
      sliderValue := 0;
    }

    /**
     * `#initPlanes`: plane `i` at `i * SPACING` with its helper on it, and
     * the wrap bounds [0, COUNT * SPACING).
     */
    method InitPlanes()
      modifies this
      ensures fresh(helpers) && fresh(meshZ) && helpers != meshZ && helpers.Length == Count && meshZ.Length == Count
      ensures helpers[..] == Layout(Count, Spacing, 0.0) && meshZ[..] == Layout(Count, Spacing, 0.0)
      ensures minZ == 0.0 && maxZ == (Count * SpacingUnits) as real
      ensures sliderMin == old(sliderMin) && sliderMax == old(sliderMax)
      ensures sliderStep == old(sliderStep) && sliderValue == old(sliderValue)
    {
      var hs := new real[Count];
      var ms := new real[Count];
      var i := 0;
      while i < Count
        modifies hs, ms
        invariant 0 <= i <= Count
        invariant forall j :: 0 <= j < i ==> ms[j] == j as real * Spacing && hs[j] == ms[j]
      {
        ms[i] := i as real * Spacing;
        hs[i] := ms[i];
        i := i + 1;
      }
      helpers, meshZ := hs, ms;
      minZ := 0.0;
      maxZ := (Count * SpacingUnits) as real;
    }

    /** The slider's `input` listener: helper `i` goes to `i * SPACING + v`. */
    method OnSliderInput(v: int)
      requires Valid()
      modifies helpers
      ensures helpers[..] == Layout(Count, Spacing, v as real)
    {
      var i := 0;
      while i < helpers.Length
        invariant 0 <= i <= helpers.Length
        invariant forall j :: 0 <= j < i ==> helpers[j] == j as real * Spacing + v as real
      {
        helpers[i] := i as real * Spacing + v as real;
        i := i + 1;
      }
      assert forall j :: 0 <= j < Count ==> helpers[..][j] == Layout(Count, Spacing, v as real)[j];
    }

    /** The window's `wheel` listener: every helper moves by `deltaY`, and nothing else. */
    method OnWheel(deltaY: real)
      requires Valid()
      modifies helpers
      ensures helpers[..] == Shifted(old(helpers[..]), deltaY)
    {
      var i := 0;
      while i < helpers.Length
        invariant 0 <= i <= helpers.Length
        invariant forall j :: 0 <= j < i ==> helpers[j] == old(helpers[j]) + deltaY
        invariant forall j :: i <= j < helpers.Length ==> helpers[j] == old(helpers[j])
      {
        helpers[i] := helpers[i] + deltaY;
        i := i + 1;
      }
    }

    /**
     * `#animate`, for the planes: each helper wrapped into [minZ, maxZ), its
     * mesh teleported onto it when more than half a spacing away, then
     * damped toward it.
     */
    method Animate(damp: (real, real) -> real)
      requires Valid()
      modifies helpers, meshZ
      ensures helpers[..] == Wrapped(old(helpers[..]), minZ, maxZ)
      ensures meshZ[..] == MeshesStep(old(meshZ[..]), helpers[..], Spacing, damp)
    {
      var i := 0;
      while i < helpers.Length
        invariant 0 <= i <= helpers.Length
        invariant forall j :: 0 <= j < i ==> helpers[j] == Wrap(minZ, maxZ, old(helpers[j]))
        invariant forall j :: i <= j < helpers.Length ==> helpers[j] == old(helpers[j])
        invariant forall j :: 0 <= j < i ==> meshZ[j] == MeshStep(old(meshZ[j]), helpers[j], Spacing, damp)
        invariant forall j :: i <= j < helpers.Length ==> meshZ[j] == old(meshZ[j])
      {
        helpers[i] := Wrap(minZ, maxZ, helpers[i]);
        if Abs(meshZ[i] - helpers[i]) > Spacing / 2.0 {
          meshZ[i] := helpers[i];
        }
        meshZ[i] := damp(meshZ[i], helpers[i]);
        i := i + 1;
      }
    }
  }
}
