/** The periodic square [-1, 1] x [-1, 1]: the coordinate wrap applied by the position pass,
    and the difference and distance between two positions used by the velocity pass. */
module Toroidal {
  import opened Vectors

  /** `Position(Vec2)`: a point of the square. */
  type Position = Vec2

  /** `f32::round`: the nearest integer, halfway cases rounded away from zero. */
  function Round(x: real): (n: int)
    ensures x - 0.5 <= n as real <= x + 0.5
    ensures n as real == x + 0.5 ==> x > 0.0
    ensures n as real == x - 0.5 ==> x < 0.0
  {
    if x >= 0.0 then (x + 0.5).Floor else -((0.5 - x).Floor)
  }

  predicate IsInteger(r: real) {
    r == r.Floor as real
  }

  /** The coordinate wrap `x - 2 round(x / 2)` of the position pass. It moves `x` by a whole
      number of domain widths and lands in the closed interval [-1, 1]. */
  function Wrap(x: real): (w: real)
    ensures -1.0 <= w <= 1.0
    ensures IsInteger((x - w) / 2.0)
  {
    var n := Round(x / 2.0);
    assert (x - (x - 2.0 * n as real)) / 2.0 == n as real;
    x - 2.0 * n as real
  }

  /** Inside the open interval the wrap is the identity. */
  lemma WrapFixesInterior(x: real)
    requires -1.0 < x < 1.0
    ensures Wrap(x) == x
  {
    var n := Round(x / 2.0);
    assert -1 < n < 1;
  }

  /** Under round-half-away-from-zero the two ends of the interval trade places. */
  lemma WrapSwapsEnds()
    ensures Wrap(-1.0) == 1.0
    ensures Wrap(1.0) == -1.0
  {
    assert Round(-0.5) == -1;
    assert Round(0.5) == 1;
  }

  /** The wrap reaches 1 only from below zero and -1 only from above zero, so the upper end
      is produced by the negative odd integers and the lower end by the positive ones. */
  lemma WrapReachesEnds(x: real)
    ensures Wrap(x) == 1.0 ==> x < 0.0
    ensures Wrap(x) == -1.0 ==> x > 0.0
  {
    var n := Round(x / 2.0);
    if Wrap(x) == 1.0 {
      assert n as real == x / 2.0 - 0.5;
    }
    if Wrap(x) == -1.0 {
      assert n as real == x / 2.0 + 0.5;
    }
  }

  /** Wrapping twice gives the once-wrapped value exactly when that value is strictly inside
      the interval: at either end a second wrap jumps to the other end. */
  lemma WrapIdempotentExactlyInside(x: real)
    ensures Wrap(Wrap(x)) == Wrap(x) <==> -1.0 < Wrap(x) < 1.0
  {
    var w := Wrap(x);
    if -1.0 < w < 1.0 {
      WrapFixesInterior(w);
    } else {
      WrapSwapsEnds();
    }
  }

  /** Both coordinates of a position wrapped independently. */
  function WrapVec(v: Vec2): (w: Vec2)
    ensures InDomain(w)
  {
    Vec2(Wrap(v.x), Wrap(v.y))
  }

  predicate InDomain(p: Position) {
    -1.0 <= p.x <= 1.0 && -1.0 <= p.y <= 1.0
  }

  /** The per-axis correction of `toroidal_difference`: a component whose magnitude exceeds
      one has two subtracted, whatever its sign. */
  function AxisDifference(c: real): (r: real)
    ensures r == c <==> -1.0 <= c <= 1.0
    ensures r == c || r == c - 2.0
  {
    if Abs(c) > 1.0 then c - 2.0 else c
  }

  /** `toroidal_difference(base, tip)`: the vector from `base` to `tip`, corrected on each
      axis separately. */
  function ToroidalDifference(base: Position, tip: Position): (r: Vec2)
    ensures r == Vec2(AxisDifference(tip.x - base.x), AxisDifference(tip.y - base.y))
  {
    var dir := Sub(tip, base);
    var dir := if Abs(dir.x) > 1.0 then dir.(x := dir.x - 2.0) else dir;
    var dir := if Abs(dir.y) > 1.0 then dir.(y := dir.y - 2.0) else dir;
    dir
  }

  /** `toroidal_distance`: the length of the toroidal difference. */
  function ToroidalDistance(a: Position, b: Position, len: Vec2 -> real): (d: real)
    ensures IsLength(len) ==> d >= 0.0
    ensures IsLength(len) ==> (d == 0.0 <==> ToroidalDifference(a, b) == Zero)
  {
    len(ToroidalDifference(a, b))
  }

  /** Where the two positions lie in the domain, each axis of the raw difference lies in
      [-2, 2]; the correction leaves [-1, 1] alone, sends (1, 2] into (-1, 0], and sends
      [-2, -1) into [-4, -3), further from zero than it was. */
  lemma AxisDifferenceBands(c: real)
    requires -2.0 <= c <= 2.0
    ensures -1.0 <= c <= 1.0 ==> AxisDifference(c) == c
    ensures 1.0 < c ==> -1.0 < AxisDifference(c) <= 0.0
    ensures c < -1.0 ==> -4.0 <= AxisDifference(c) < -3.0
  {
  }

  /** The shortest signed offset on a circle of circumference 2 for a raw offset in [-2, 2]:
      the reference the correction in `toroidal_difference` is measured against. */
  function ShortestOffset(c: real): (s: real)
    requires -2.0 <= c <= 2.0
    ensures -1.0 <= s <= 1.0
    ensures s == c || s == c - 2.0 || s == c + 2.0
  {
    if c > 1.0 then c - 2.0 else if c < -1.0 then c + 2.0 else c
  }

  /** No representative of `c` modulo 2 is shorter than `ShortestOffset(c)`. */
  lemma ShortestOffsetIsShortest(c: real, k: int)
    requires -2.0 <= c <= 2.0
    ensures Abs(ShortestOffset(c)) <= Abs(c + 2.0 * k as real)
  {
    var s := ShortestOffset(c);
    var m: int := if s == c then k else if s == c - 2.0 then k + 1 else k - 1;
    assert c + 2.0 * k as real == s + 2.0 * m as real;
    if m != 0 {
      assert m >= 1 || m <= -1;
    }
  }

  /** The correction agrees with the shortest offset exactly when the raw offset is not
      below -1; below -1 it lands four units under the shortest offset, on the other side
      of zero, so the direction on that axis is reversed. */
  lemma AxisDifferenceVersusShortest(c: real)
    requires -2.0 <= c <= 2.0
    ensures AxisDifference(c) == ShortestOffset(c) <==> c >= -1.0
    ensures c < -1.0 ==> AxisDifference(c) == ShortestOffset(c) - 4.0
    ensures c < -1.0 ==> AxisDifference(c) < 0.0 <= ShortestOffset(c)
  {
  }

  /** The distance is never negative, the distance from a point to itself is zero, and the
      distance is zero exactly when the corrected difference is the zero vector. */
  lemma DistanceFacts(a: Position, b: Position, len: Vec2 -> real)
    requires IsLength(len)
    ensures ToroidalDistance(a, b, len) >= 0.0
    ensures ToroidalDistance(a, a, len) == 0.0
    ensures ToroidalDistance(a, b, len) == 0.0 <==> ToroidalDifference(a, b) == Zero
  {
    assert ToroidalDifference(a, a) == Zero;
  }

  /** The corrected difference vanishes exactly when, on each axis, the tip equals the base
      or lies two units above it (the same point of the torus seen from the other edge). */
  lemma DifferenceZero(a: Position, b: Position)
    ensures ToroidalDifference(a, b) == Zero <==>
              (b.x - a.x == 0.0 || b.x - a.x == 2.0) && (b.y - a.y == 0.0 || b.y - a.y == 2.0)
  {
  }

  /** The difference is not antisymmetric: from x = -0.9 to x = 0.9 it is the short way
      round (-0.2), but back from 0.9 to -0.9 it is -3.8 instead of 0.2. */
  lemma DifferenceNotAntisymmetric()
    ensures var a, b := Vec2(-0.9, 0.0), Vec2(0.9, 0.0);
            InDomain(a) && InDomain(b) &&
            ToroidalDifference(a, b) == Vec2(-0.2, 0.0) &&
            ToroidalDifference(b, a) == Vec2(-3.8, 0.0)
  {
  }
}
