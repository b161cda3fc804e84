/**
  The arithmetic of one frame: the linear `map` helper, the pointer
  proximity factor, the rotation angles, and the noise-driven scaling of
  every vertex from its reference position.

  Doubles are idealised as exact reals. The noise generator is a parameter
  `noise3`; its range [-1, 1] is an assumption (`NoiseBounded`) that only
  the bound lemmas take.
 */
module Displacement {
  import opened Geometry
  import opened RealArith

  type Noise = (real, real, real) -> real

  /** Linear rescaling of `num` from [inMin, inMax] onto [outMin, outMax]. */
  function Map(num: real, inMin: real, inMax: real, outMin: real, outMax: real): (r: real)
    requires inMin != inMax
    ensures num == inMin ==> r == outMin
    ensures num == inMax ==> r == outMax
  {
    ProductQuotient(num - inMin, outMax - outMin, inMax - inMin);
    (num - inMin) * (outMax - outMin) / (inMax - inMin) + outMin
  }

  /** An input between the two input endpoints is mapped between the two output endpoints. */
  lemma MapBetween(num: real, inMin: real, inMax: real, outMin: real, outMax: real)
    requires inMin != inMax
    requires inMin <= num <= inMax || inMax <= num <= inMin
    ensures var r := Map(num, inMin, inMax, outMin, outMax);
      (outMin <= r <= outMax) || (outMax <= r <= outMin)
  {
    InterpolationBetween(num, inMin, inMax, outMin, outMax);
  }

  /** Mapping back from the output interval onto the input interval undoes `Map`. */
  lemma MapInverse(num: real, inMin: real, inMax: real, outMin: real, outMax: real)
    requires inMin != inMax && outMin != outMax
    ensures Map(Map(num, inMin, inMax, outMin, outMax), outMin, outMax, inMin, inMax) == num
  {
    var y := Map(num, inMin, inMax, outMin, outMax);
    assert y == (num - inMin) * (outMax - outMin) / (inMax - inMin) + outMin;
    assert Map(y, outMin, outMax, inMin, inMax) == (y - outMin) * (inMax - inMin) / (outMax - outMin) + inMin;
    InverseAffine(num, inMin, inMax, outMin, outMax);
  }

  /**
    The pointer distance from (px, py) to (qx, qy): the non-negative root of
    dx*dx + dy*dy. It does not depend on which point comes first.
   */
  ghost predicate IsDistance(d: real, px: real, py: real, qx: real, qy: real): (b: bool)
    ensures b <==> d >= 0.0 && d * d == (qx - px) * (qx - px) + (qy - py) * (qy - py)
  {
    d >= 0.0 && d * d == (px - qx) * (px - qx) + (py - qy) * (py - qy)
  }

  /** A distance is determined by the two points. */
  lemma DistanceUnique(d1: real, d2: real, px: real, py: real, qx: real, qy: real)
    requires IsDistance(d1, px, py, qx, qy) && IsDistance(d2, px, py, qx, qy)
    ensures d1 == d2
  {
    if d1 < d2 {
      SquareStrictlyMonotone(d1, d2);
    } else if d2 < d1 {
      SquareStrictlyMonotone(d2, d1);
    }
  }

  /**
    The proximity factor: the pointer distance to the viewport centre,
    divided by the reference distance and mapped by `map(d, 1, 0, 0, 1)`.
   */
  function Proximity(pointerDist: real, maxDist: real): (p: real)
    requires maxDist != 0.0
    ensures p == 1.0 - pointerDist / maxDist
  {
    Map(pointerDist / maxDist, 1.0, 0.0, 0.0, 1.0)
  }

  /** Within the reference distance the proximity lies in [0, 1]: 1 at the centre, 0 at the reference distance. */
  lemma ProximityRange(pointerDist: real, maxDist: real)
    requires 0.0 <= pointerDist <= maxDist && maxDist != 0.0
    ensures 0.0 <= Proximity(pointerDist, maxDist) <= 1.0
    ensures pointerDist == 0.0 ==> Proximity(pointerDist, maxDist) == 1.0
    ensures pointerDist == maxDist ==> Proximity(pointerDist, maxDist) == 0.0
  {
    QuotientUnit(pointerDist, maxDist);
  }

  /**
    The reference distance is measured once, from the initial pointer (the
    origin) to the centre of the initial viewport. If the viewport later
    grows, a pointer back at the origin lies farther away than the reference
    distance and the proximity factor drops below zero.
   */
  lemma StaleReferenceDistance(w0: real, h0: real, w1: real, h1: real, maxDist: real, d: real)
    requires 0.0 < w0 < w1 && 0.0 <= h0 <= h1
    requires IsDistance(maxDist, 0.0, 0.0, w0 / 2.0, h0 / 2.0)
    requires IsDistance(d, 0.0, 0.0, w1 / 2.0, h1 / 2.0)
    ensures maxDist > 0.0
    ensures Proximity(d, maxDist) < 0.0
  {
    assert maxDist * maxDist >= (w0 / 2.0) * (w0 / 2.0);
    SquareStrictlyMonotone(0.0, w0 / 2.0);
    assert maxDist > 0.0 by {
      if maxDist <= 0.0 {
        assert false;
      }
    }
    assert (w0 / 2.0) * (w0 / 2.0) < (w1 / 2.0) * (w1 / 2.0) by {
      SquareStrictlyMonotone(w0 / 2.0, w1 / 2.0);
    }
    assert (h0 / 2.0) * (h0 / 2.0) <= (h1 / 2.0) * (h1 / 2.0) by {
      if h0 < h1 { SquareStrictlyMonotone(h0 / 2.0, h1 / 2.0); }
    }
    assert maxDist * maxDist < d * d;
    assert maxDist < d by {
      if d <= maxDist {
        if d < maxDist { SquareStrictlyMonotone(d, maxDist); }
      }
    }
    assert d / maxDist > 1.0;
  }

  /** Rotation about y: the pointer's x across the viewport width mapped onto [-4, 0]. */
  function RotationY(pointerX: real, width: real): (r: real)
    requires width != 0.0
    ensures pointerX == 0.0 ==> r == -4.0
    ensures pointerX == width ==> r == 0.0
  {
    -4.0 + Map(pointerX, 0.0, width, 0.0, 4.0)
  }

  /** Rotation about z: the pointer's y across the viewport height mapped onto [4, 0]. */
  function RotationZ(pointerY: real, height: real): (r: real)
    requires height != 0.0
    ensures pointerY == 0.0 ==> r == 4.0
    ensures pointerY == height ==> r == 0.0
  {
    4.0 + Map(pointerY, 0.0, height, 0.0, -4.0)
  }

  /** The rotation angles at the viewport's edges and their ranges inside it. */
  lemma RotationRanges(pointerX: real, pointerY: real, width: real, height: real)
    requires width > 0.0 && height > 0.0
    ensures RotationY(0.0, width) == -4.0 && RotationY(width, width) == 0.0
    ensures RotationZ(0.0, height) == 4.0 && RotationZ(height, height) == 0.0
    ensures 0.0 <= pointerX <= width ==> -4.0 <= RotationY(pointerX, width) <= 0.0
    ensures 0.0 <= pointerY <= height ==> 0.0 <= RotationZ(pointerY, height) <= 4.0
  {
    if 0.0 <= pointerX <= width {
      MapBetween(pointerX, 0.0, width, 0.0, 4.0);
    }
    if 0.0 <= pointerY <= height {
      MapBetween(pointerY, 0.0, height, 0.0, -4.0);
    }
  }

  /** The noise generator stays within [-1, 1] everywhere. */
  ghost predicate NoiseBounded(noise3: Noise) {
    forall x, y, z :: -1.0 <= noise3(x, y, z) <= 1.0
  }

  /** The noise sample for a reference point at a given time; it is in [-1, 1] when the generator is. */
  function NoiseAt(noise3: Noise, o: Vec3, time: real): (r: real)
    ensures NoiseBounded(noise3) ==> -1.0 <= r <= 1.0
  {
    noise3(o.x * 0.006 + time * 0.0005, o.y * 0.006 + time * 0.0005, o.z * 0.010)
  }

  /**
    The scale ratio for a noise sample `n` and proximity factor `p`. Zero
    noise gives 0.8; with noise in [-1, 1] and proximity in [0, 1] the ratio
    lies in [0.47, 1.13].
   */
  function Ratio(n: real, p: real): (r: real)
    ensures n == 0.0 ==> r == 0.8
    ensures -1.0 <= n <= 1.0 && 0.0 <= p <= 1.0 ==> 0.47 <= r <= 1.13
  {
    var q := p + 0.1;
    ScaledUnit(n, q);
    assert -1.0 <= n <= 1.0 && 0.0 <= p <= 1.0 ==> -1.1 <= n * q <= 1.1;
    assert n * 0.3 * q == 0.3 * (n * q);
    n * 0.3 * (p + 0.1) + 0.8
  }

  /**
    One vertex of the frame: its reference point scaled about the origin by
    the ratio of the noise sampled there. The origin stays put, and with
    bounded noise and proximity in [0, 1] the ratio lies in [0.47, 1.13].
   */
  function DisplaceVertex(noise3: Noise, o: Vec3, time: real, p: real): (r: Vec3)
    ensures o == Vec3(0.0, 0.0, 0.0) ==> r == o
    ensures NoiseBounded(noise3) && 0.0 <= p <= 1.0 ==> exists s :: 0.47 <= s <= 1.13 && r == Scale(o, s)
  {
    Scale(o, Ratio(NoiseAt(noise3, o, time), p))
  }

  /** The live vertices of a frame, computed from the reference vertices alone. */
  function Displace(noise3: Noise, reference: seq<Vec3>, time: real, p: real): (r: seq<Vec3>)
    ensures |r| == |reference|
    decreases |reference|
  {
    if reference == [] then []
    else [DisplaceVertex(noise3, reference[0], time, p)] + Displace(noise3, reference[1..], time, p)
  }

  /** A frame has one vertex per reference vertex, and vertex `i` depends only on reference vertex `i`. */
  lemma {:induction false} DisplaceAt(noise3: Noise, reference: seq<Vec3>, time: real, p: real, i: nat)
    requires i < |reference|
    ensures Displace(noise3, reference, time, p)[i] == DisplaceVertex(noise3, reference[i], time, p)
    decreases |reference|
  {
    if i > 0 {
      DisplaceAt(noise3, reference[1..], time, p, i - 1);
    }
  }

  /**
    No cross-index coupling: two reference buffers that agree at positions
    `i` and `j` give frames that agree there too, whatever else they hold.
   */
  lemma DisplaceLocal(noise3: Noise, r1: seq<Vec3>, r2: seq<Vec3>, time: real, p: real, i: nat, j: nat)
    requires i < |r1| && j < |r2| && r1[i] == r2[j]
    ensures Displace(noise3, r1, time, p)[i] == Displace(noise3, r2, time, p)[j]
  {
    DisplaceAt(noise3, r1, time, p, i);
    DisplaceAt(noise3, r2, time, p, j);
  }

  /**
    Every live vertex is its reference point scaled about the origin by a
    ratio in [0.47, 1.13], given noise in [-1, 1] and proximity in [0, 1].
   */
  lemma DisplaceBounded(noise3: Noise, reference: seq<Vec3>, time: real, p: real, i: nat)
    requires NoiseBounded(noise3) && 0.0 <= p <= 1.0
    requires i < |reference|
    ensures exists s :: 0.47 <= s <= 1.13 && Displace(noise3, reference, time, p)[i] == Scale(reference[i], s)
  {
    DisplaceAt(noise3, reference, time, p, i);
  }

  /**
    A scaled vertex keeps the sign of each coordinate and its magnitude stays
    between 0.47 and 1.13 times the reference magnitude.
   */
  lemma ScaleBounds(o: Vec3, s: real)
    requires 0.47 <= s <= 1.13
    ensures var v := Scale(o, s);
      CoordBetween(v.x, o.x) && CoordBetween(v.y, o.y) && CoordBetween(v.z, o.z)
  {
    CoordScaled(o.x, s);
    CoordScaled(o.y, s);
    CoordScaled(o.z, s);
  }

  ghost predicate CoordBetween(c: real, ref: real) {
    if ref >= 0.0 then 0.47 * ref <= c <= 1.13 * ref
    else 1.13 * ref <= c <= 0.47 * ref
  }

  lemma CoordScaled(c: real, s: real)
    requires 0.47 <= s <= 1.13
    ensures CoordBetween(c * s, c)
  {
    if c >= 0.0 {
      assert 0.47 * c <= s * c <= 1.13 * c;
    } else {
      assert 1.13 * c <= s * c <= 0.47 * c;
    }
  }
}
