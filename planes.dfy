/**
 * `PlanesManager` of HW_03/src/planes/index.js: ten planes on the z axis,
 * each driven by a helper offset. The wheel shifts every helper, the slider
 * lays them out afresh from an offset, and each frame wraps the helpers
 * into [minZ, maxZ), pulls every mesh toward its helper and fades it with
 * its distance from the camera.
 *
 * The helpers, the meshes' z and the materials' opacity are three arrays
 * indexed by plane. The camera's z and maath's `damp` (with the frame's
 * delta and the damping constant folded in) are parameters of `Update`.
 */
module Planes {
  import opened Carousel

  const Count: nat := 10
  const Spacing: real := 60.0
  const ScrollSpeed: real := 0.2
  /** The opacity every material starts with. */
  const StartOpacity: real := 0.2

  class PlanesManager {
    /** `#helpers[i].z`. */
    const helpers: array<real>
    /** `#meshes[i].position.z`. */
    const meshZ: array<real>
    /** `#meshes[i].material.opacity`. */
    const opacity: array<real>
    var minZ: real
    var maxZ: real

    /**
     * One helper, one mesh and one opacity per plane; the bounds are those
     * `#detectBounds` sets; every opacity stays in [0.2, 1].
     */
    ghost predicate Valid()
      reads this, opacity
    {
      && helpers.Length == Count && meshZ.Length == Count && opacity.Length == Count
      && helpers != meshZ && helpers != opacity && meshZ != opacity
      && minZ == 0.0 && maxZ == Count as real * Spacing
      && forall i :: 0 <= i < Count ==> StartOpacity <= opacity[i] <= 1.0
    }

    /**
     * `constructor` with `#initPlanes` and `#detectBounds`: plane `i` at
     * `i * SPACING` with its helper on it and opacity 0.2; the wrap range is
     * [0, COUNT * SPACING).
     */
    constructor ()
      ensures Valid() && fresh(helpers) && fresh(meshZ) && fresh(opacity)
      ensures helpers[..] == Layout(Count, Spacing, 0.0) && meshZ[..] == Layout(Count, Spacing, 0.0)
      ensures forall i :: 0 <= i < Count ==> opacity[i] == StartOpacity
    {
      var hs := new real[Count];
      var ms := new real[Count];
      var os := new real[Count];
      var i := 0;
      while i < Count
        invariant 0 <= i <= Count
        invariant forall j :: 0 <= j < i ==> ms[j] == j as real * Spacing && hs[j] == ms[j]
        invariant forall j :: 0 <= j < i ==> os[j] == StartOpacity
      {
        ms[i] := i as real * Spacing;
        os[i] := StartOpacity;
        hs[i] := ms[i];
        i := i + 1;
      }
      helpers, meshZ, opacity := hs, ms, os;
      minZ := 0.0;
      maxZ := Count as real * Spacing;
    }

    /** `onWheel(deltaY)`: every helper moves by `deltaY * SCROLL_SPEED`. */
    method OnWheel(deltaY: real)
      requires Valid()
      modifies helpers
      ensures Valid()
      ensures helpers[..] == Shifted(old(helpers[..]), deltaY * ScrollSpeed)
    {
      var d := deltaY * ScrollSpeed;
      var i := 0;
      while i < helpers.Length
        invariant 0 <= i <= helpers.Length
        invariant forall j :: 0 <= j < i ==> helpers[j] == old(helpers[j]) + d
        invariant forall j :: i <= j < helpers.Length ==> helpers[j] == old(helpers[j])
      {
        helpers[i] := helpers[i] + d;
        i := i + 1;
      }
    }

    /** `setOffset(offset)`: helper `i` goes to `i * SPACING + offset`. */
    method SetOffset(offset: real)
      requires Valid()
      modifies helpers
      ensures Valid()
      ensures helpers[..] == Layout(Count, Spacing, offset)
    {
      var i := 0;
      while i < helpers.Length
        invariant 0 <= i <= helpers.Length
        invariant forall j :: 0 <= j < i ==> helpers[j] == j as real * Spacing + offset
      {
        helpers[i] := i as real * Spacing + offset;
        i := i + 1;
      }
      assert forall j :: 0 <= j < Count ==> helpers[..][j] == Layout(Count, Spacing, offset)[j];
    }

    /**
     * `update(delta)`: for each plane in turn, wrap its helper into
     * [minZ, maxZ), teleport its mesh onto the helper when more than half a
     * spacing away, damp the mesh toward the helper, and set the opacity
     * from the mesh's distance to the camera over half the wrap range.
     */
    method Update(cameraZ: real, damp: (real, real) -> real)
      requires Valid()
      modifies helpers, meshZ, opacity
      ensures Valid()
      ensures helpers[..] == Wrapped(old(helpers[..]), minZ, maxZ)
      ensures meshZ[..] == MeshesStep(old(meshZ[..]), helpers[..], Spacing, damp)
      ensures opacity[..] == Opacities(meshZ[..], cameraZ, maxZ / 2.0)
    {
      var i := 0;
      while i < Count
        invariant 0 <= i <= Count && Valid()
        invariant forall j :: 0 <= j < i ==> helpers[j] == Wrap(minZ, maxZ, old(helpers[j]))
        invariant forall j :: i <= j < Count ==> helpers[j] == old(helpers[j])
        invariant forall j :: 0 <= j < i ==> meshZ[j] == MeshStep(old(meshZ[j]), helpers[j], Spacing, damp)
        invariant forall j :: i <= j < Count ==> meshZ[j] == old(meshZ[j])
        invariant forall j :: 0 <= j < i ==> opacity[j] == Opacity(Abs(cameraZ - meshZ[j]), maxZ / 2.0)
      {
        StepPlane(i, cameraZ, damp);
        i := i + 1;
      }
    }

    /** The body of `update`'s loop for plane `i`; the other planes are left alone. */
    method StepPlane(i: nat, cameraZ: real, damp: (real, real) -> real)
      requires Valid() && i < Count
      modifies helpers, meshZ, opacity
      ensures Valid()
      ensures helpers[..] == old(helpers[..])[i := Wrap(minZ, maxZ, old(helpers[i]))]
      ensures meshZ[..] == old(meshZ[..])[i := MeshStep(old(meshZ[i]), helpers[i], Spacing, damp)]
      ensures opacity[..] == old(opacity[..])[i := Opacity(Abs(cameraZ - meshZ[i]), maxZ / 2.0)]
    {
      helpers[i] := Wrap(minZ, maxZ, helpers[i]);
      if Abs(meshZ[i] - helpers[i]) > Spacing / 2.0 {
        meshZ[i] := helpers[i];
      }
      meshZ[i] := damp(meshZ[i], helpers[i]);
      var dist := Abs(cameraZ - meshZ[i]);
      OpacityBounds(dist, maxZ / 2.0);
      opacity[i] := Opacity(dist, maxZ / 2.0);
    }
  }
}
