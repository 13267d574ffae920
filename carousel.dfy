/**
 * The plane carousel shared by HW_03/src/planes/index.js and HW_03/src/App.js:
 * a row of helper offsets that the wheel shifts and the slider lays out
 * afresh, wrapped every frame into [minZ, maxZ) with `gsap.utils.wrap`; a
 * mesh that lags its helper by more than half a spacing teleports onto it
 * before the damping step; the planes file also fades each plane with its
 * distance from the camera.
 *
 * Positions are exact reals: floating-point rounding is not modelled.
 */
module Carousel {

  function Abs(x: real): (r: real)
    ensures r >= 0.0 && (r == x || r == -x)
  {
    if x < 0.0 then -x else x
  }

  /** `x` is a whole number. */
  predicate IsWhole(x: real) {
    x.Floor as real == x
  }

  /** `a` and `b` lie a whole number of `range`s apart. */
  predicate Congruent(a: real, b: real, range: real)
    requires range > 0.0
  {
    IsWhole(a / range - b / range)
  }

  /** The fractional part of `x`, in [0, 1). */
  function Frac(x: real): (r: real)
    ensures 0.0 <= r < 1.0
  {
    x - x.Floor as real
  }

  /** Whole numbers are closed under subtraction. */
  lemma WholeDifference(a: real, b: real)
    requires IsWhole(a) && IsWhole(b)
    ensures IsWhole(a - b)
  {
    assert a - b == (a.Floor - b.Floor) as real;
  }

  lemma WholeNegated(k: int)
    ensures IsWhole(-(k as real))
  {
    assert -(k as real) == (-k) as real;
  }

  lemma MulBelow(x: real, c: real)
    requires 0.0 <= x < 1.0 && c > 0.0
    ensures 0.0 <= x * c < c
  {
    assert (1.0 - x) * c > 0.0;
  }

  lemma MulAtLeastOne(x: real, c: real)
    requires x >= 1.0 && c > 0.0
    ensures x * c >= c
  {
    assert (x - 1.0) * c >= 0.0;
  }

  lemma ScaledBack(x: real, c: real)
    requires c > 0.0
    ensures x / c * c == x
  {
  }

  lemma DivSum(a: real, b: real, c: real)
    requires c > 0.0
    ensures (a + b) / c == a / c + b / c
  {
  }

  lemma DivDifference(a: real, b: real, c: real)
    requires c > 0.0
    ensures (a - b) / c == a / c - b / c
  {
  }

  lemma DivCancel(x: real, c: real)
    requires c > 0.0
    ensures (x * c) / c == x
  {
  }

  /** A difference smaller than `range` either way is less than one range. */
  lemma DivWithinOne(d: real, range: real)
    requires range > 0.0 && -range < d < range
    ensures -1.0 < d / range < 1.0
  {
    var q := d / range;
    ScaledBack(d, range);
    if q >= 1.0 {
      MulAtLeastOne(q, range);
    } else if q <= -1.0 {
      MulAtLeastOne(-q, range);
    }
  }

  lemma DivInjective(a: real, b: real, range: real)
    requires range > 0.0 && a / range == b / range
    ensures a == b
  {
    ScaledBack(a, range);
    ScaledBack(b, range);
  }

  /** Two congruent values less than a range apart are equal. */
  lemma CongruentClose(a: real, b: real, range: real)
    requires range > 0.0 && -range < a - b < range
    requires Congruent(a, b, range)
    ensures a == b
  {
    DivDifference(a, b, range);
    DivWithinOne(a - b, range);
    DivInjective(a, b, range);
  }

  /**
   * The wrap into [min, min + range): `min` plus the fractional part of
   * `(v - min) / range` scaled back by `range`. The range is a parameter of
   * its own so that every product in the proof is over two variables.
   */
  function WrapSpan(min: real, range: real, v: real): (r: real)
    requires range > 0.0
    ensures min <= r < min + range
    ensures Congruent(r, v, range)
  {
    var q := (v - min) / range;
    var f := Frac(q);
    MulBelow(f, range);
    DivSum(min, f * range, range);
    DivCancel(f, range);
    DivDifference(v, min, range);
    WholeNegated(q.Floor);
    assert (min + f * range) / range - v / range == -(q.Floor as real);
    min + f * range
  }

  /**
   * `gsap.utils.wrap(min, max, v)`: a value of [min, max) a whole number of
   * ranges away from `v`; `WrapUnique` shows there is only one.
   */
  function Wrap(min: real, max: real, v: real): (r: real)
    requires min < max
    ensures min <= r < max
    ensures Congruent(r, v, max - min)
  {
    WrapSpan(min, max - min, v)
  }

  /** The range and the congruence leave no freedom: any such value is `Wrap`'s. */
  lemma WrapUnique(min: real, max: real, v: real, r: real)
    requires min <= r < max && Congruent(r, v, max - min)
    ensures Wrap(min, max, v) == r
  {
    var range := max - min;
    var w := Wrap(min, max, v);
    WholeDifference(r / range - v / range, w / range - v / range);
    assert r / range - w / range == (r / range - v / range) - (w / range - v / range);
    CongruentClose(r, w, range);
  }

  /** A value already inside [min, max) is left alone. */
  lemma WrapInsideRange(min: real, max: real, v: real)
    requires min <= v < max
    ensures Wrap(min, max, v) == v
  {
    assert IsWhole(v / (max - min) - v / (max - min));
    WrapUnique(min, max, v, v);
  }

  /** Wrapping twice is wrapping once. */
  lemma WrapIdempotent(min: real, max: real, v: real)
    requires min < max
    ensures Wrap(min, max, Wrap(min, max, v)) == Wrap(min, max, v)
  {
    WrapInsideRange(min, max, Wrap(min, max, v));
  }

  /** Values a whole number of ranges apart wrap to the same place. */
  lemma WrapOfCongruent(min: real, max: real, a: real, b: real)
    requires min < max && Congruent(a, b, max - min)
    ensures Wrap(min, max, a) == Wrap(min, max, b)
  {
    var range := max - min;
    var w := Wrap(min, max, b);
    WholeDifference(w / range - b / range, a / range - b / range);
    assert w / range - a / range == (w / range - b / range) - (a / range - b / range);
    WrapUnique(min, max, a, w);
  }

  /** The per-frame wrap of every helper (`helpers.forEach(h => h.z = wrap(minZ, maxZ, h.z))`). */
  function Wrapped(hs: seq<real>, min: real, max: real): (r: seq<real>)
    requires min < max
    ensures |r| == |hs|
    ensures forall i :: 0 <= i < |r| ==> min <= r[i] < max && Congruent(r[i], hs[i], max - min)
  {
    seq(|hs|, i requires 0 <= i < |hs| => Wrap(min, max, hs[i]))
  }

  /** A row already inside the bounds is not moved by the wrap. */
  lemma WrappedInsideRange(hs: seq<real>, min: real, max: real)
    requires min < max && forall i :: 0 <= i < |hs| ==> min <= hs[i] < max
    ensures Wrapped(hs, min, max) == hs
  {
    forall i | 0 <= i < |hs| ensures Wrapped(hs, min, max)[i] == hs[i] {
      WrapInsideRange(min, max, hs[i]);
    }
  }

  /** The wrap is idempotent on the whole row. */
  lemma WrappedIdempotent(hs: seq<real>, min: real, max: real)
    requires min < max
    ensures Wrapped(Wrapped(hs, min, max), min, max) == Wrapped(hs, min, max)
  {
    WrappedInsideRange(Wrapped(hs, min, max), min, max);
  }

  /** Every helper moved by the same amount `d` (a wheel event). */
  function Shifted(hs: seq<real>, d: real): (r: seq<real>)
    ensures |r| == |hs|
  {
    seq(|hs|, i requires 0 <= i < |hs| => hs[i] + d)
  }

  /** A shift keeps every gap between two helpers. */
  lemma ShiftedKeepsGaps(hs: seq<real>, d: real)
    ensures forall i, j :: 0 <= i < |hs| && 0 <= j < |hs| ==>
      Shifted(hs, d)[i] - Shifted(hs, d)[j] == hs[i] - hs[j]
  {
  }

  /** Two shifts are one shift by the sum; a shift by 0 is none. */
  lemma ShiftedCompose(hs: seq<real>, d: real, e: real)
    ensures Shifted(Shifted(hs, d), e) == Shifted(hs, d + e)
    ensures Shifted(hs, 0.0) == hs
  {
  }

  /** A value and the value one range further are congruent. */
  lemma OneRangeApart(v: real, range: real)
    requires range > 0.0
    ensures Congruent(v + range, v, range)
  {
    DivSum(v, range, range);
    assert (v + range) / range - v / range == 1.0;
  }

  /**
   * Moving every helper by one whole range is invisible once wrapped: the
   * carousel is a loop.
   */
  lemma {:induction false} WrappedLoopShift(hs: seq<real>, min: real, max: real)
    requires min < max
    ensures Wrapped(Shifted(hs, max - min), min, max) == Wrapped(hs, min, max)
  {
    forall i | 0 <= i < |hs|
      ensures Wrapped(Shifted(hs, max - min), min, max)[i] == Wrapped(hs, min, max)[i]
    {
      OneRangeApart(hs[i], max - min);
      WrapOfCongruent(min, max, hs[i] + (max - min), hs[i]);
    }
  }

  /** Helper `i` at `i * spacing + offset`: the initial layout (offset 0) and the slider's. */
  function Layout(n: nat, spacing: real, offset: real): (r: seq<real>)
    ensures |r| == n
  {
    seq(n, i => i as real * spacing + offset)
  }

  /** Neighbours in a layout are exactly one spacing apart. */
  lemma LayoutGaps(n: nat, spacing: real, offset: real)
    ensures forall i :: 0 < i < n ==> Layout(n, spacing, offset)[i] - Layout(n, spacing, offset)[i - 1] == spacing
  {
    forall i | 0 < i < n
      ensures Layout(n, spacing, offset)[i] - Layout(n, spacing, offset)[i - 1] == spacing
    {
      assert (i - 1) as real * spacing == i as real * spacing - spacing;
    }
  }

  /** A layout at an offset is the initial layout shifted by that offset. */
  lemma LayoutIsShiftedStart(n: nat, spacing: real, offset: real)
    ensures Layout(n, spacing, offset) == Shifted(Layout(n, spacing, 0.0), offset)
  {
  }

  /** Shifting a layout moves its offset: a wheel event after the slider is the slider further on. */
  lemma LayoutShifted(n: nat, spacing: real, offset: real, d: real)
    ensures Shifted(Layout(n, spacing, offset), d) == Layout(n, spacing, offset + d)
  {
  }

  /**
   * The initial layout of `n` planes `spacing` apart already lies in
   * [0, n * spacing), so the first frame's wrap leaves it alone.
   */
  lemma StartLayoutIsWrapped(n: nat, spacing: real)
    requires n > 0 && spacing > 0.0
    ensures Wrapped(Layout(n, spacing, 0.0), 0.0, n as real * spacing) == Layout(n, spacing, 0.0)
  {
    forall i | 0 <= i < n ensures 0.0 <= Layout(n, spacing, 0.0)[i] < n as real * spacing {
      MulAtLeastOne((n - i) as real, spacing);
      assert n as real * spacing - i as real * spacing == (n - i) as real * spacing;
      assert i as real * spacing >= 0.0;
    }
    WrappedInsideRange(Layout(n, spacing, 0.0), 0.0, n as real * spacing);
  }

  /** The teleport: a mesh more than half a spacing from its helper jumps onto it. */
  function Teleported(meshZ: real, helperZ: real, spacing: real): (r: real)
    ensures r == meshZ || r == helperZ
    ensures spacing >= 0.0 ==> Abs(r - helperZ) <= spacing / 2.0
  {
    if Abs(meshZ - helperZ) > spacing / 2.0 then helperZ else meshZ
  }

  /**
   * After the teleport check the mesh is within half a spacing of its
   * helper, and a mesh already that close does not move.
   */
  lemma TeleportedWithinHalfSpacing(meshZ: real, helperZ: real, spacing: real)
    requires spacing >= 0.0
    ensures Abs(Teleported(meshZ, helperZ, spacing) - helperZ) <= spacing / 2.0
    ensures Abs(meshZ - helperZ) <= spacing / 2.0 ==> Teleported(meshZ, helperZ, spacing) == meshZ
  {
  }

  /**
   * One frame of one plane: wrap its helper, teleport its mesh if needed,
   * then let `damp` (maath's `damp` with this frame's delta, taking the
   * current and the target position) ease the mesh toward the helper.
   */
  function MeshStep(meshZ: real, helperZ: real, spacing: real, damp: (real, real) -> real): (r: real)
    ensures Abs(meshZ - helperZ) <= spacing / 2.0 ==> r == damp(meshZ, helperZ)
    ensures Abs(meshZ - helperZ) > spacing / 2.0 ==> r == damp(helperZ, helperZ)
  {
    damp(Teleported(meshZ, helperZ, spacing), helperZ)
  }

  /** Every mesh's new position, given the new helpers. */
  function MeshesStep(ms: seq<real>, hs: seq<real>, spacing: real, damp: (real, real) -> real): (r: seq<real>)
    requires |ms| == |hs|
    ensures |r| == |ms|
  {
    seq(|ms|, i requires 0 <= i < |ms| => MeshStep(ms[i], hs[i], spacing, damp))
  }

  /**
   * The fade of the planes file: 1 - min(dist / maxDist, 1) scaled from
   * [0, 1] onto [0.2, 1].
   */
  function Opacity(dist: real, maxDist: real): (r: real)
    requires maxDist > 0.0
    ensures dist >= 0.0 ==> 0.2 <= r <= 1.0
  {
    var ratio := dist / maxDist;
    assert dist >= 0.0 ==> ratio >= 0.0;
    var t := 1.0 - (if ratio < 1.0 then ratio else 1.0);
    0.2 + t * 0.8
  }

  /**
   * The opacity never leaves [0.2, 1]: it is 1 at the camera and 0.2 from
   * half the wrap range on, and it never grows with the distance.
   */
  lemma OpacityBounds(dist: real, maxDist: real)
    requires dist >= 0.0 && maxDist > 0.0
    ensures 0.2 <= Opacity(dist, maxDist) <= 1.0
    ensures dist == 0.0 ==> Opacity(dist, maxDist) == 1.0
    ensures dist >= maxDist ==> Opacity(dist, maxDist) == 0.2
  {
    assert dist / maxDist >= 0.0;
    if dist >= maxDist {
      assert dist / maxDist >= 1.0 by {
        DivDifference(dist, maxDist, maxDist);
        assert maxDist / maxDist == 1.0;
        assert (dist - maxDist) / maxDist >= 0.0;
      }
    }
  }

  /** Farther planes are never more opaque than nearer ones. */
  lemma OpacityMonotone(d1: real, d2: real, maxDist: real)
    requires 0.0 <= d1 <= d2 && maxDist > 0.0
    ensures Opacity(d2, maxDist) <= Opacity(d1, maxDist)
  {
    assert d1 / maxDist <= d2 / maxDist by {
      assert d2 / maxDist - d1 / maxDist == (d2 - d1) / maxDist;
    }
  }

  /** Every plane's opacity from the camera position and the new mesh positions. */
  function Opacities(ms: seq<real>, cameraZ: real, maxDist: real): (r: seq<real>)
    requires maxDist > 0.0
    ensures |r| == |ms|
  {
    seq(|ms|, i requires 0 <= i < |ms| => Opacity(Abs(cameraZ - ms[i]), maxDist))
  }

  /** The whole row of opacities lies in [0.2, 1]. */
  lemma OpacitiesInRange(ms: seq<real>, cameraZ: real, maxDist: real)
    requires maxDist > 0.0
    ensures forall i :: 0 <= i < |ms| ==> 0.2 <= Opacities(ms, cameraZ, maxDist)[i] <= 1.0
  {
    forall i | 0 <= i < |ms| ensures 0.2 <= Opacities(ms, cameraZ, maxDist)[i] <= 1.0 {
      OpacityBounds(Abs(cameraZ - ms[i]), maxDist);
    }
  }
}
