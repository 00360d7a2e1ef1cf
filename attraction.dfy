/** The distance law `attraction_factor`: how strongly particle A is attracted by particle B
    and B by A, given their separation, their colours and the colour-by-colour matrix. */
module AttractionLaw {
  import opened Vectors

  /** `ColorId(usize)`: a colour class, used as an index into the matrix. */
  type ColorId = nat

  /** `Attraction(f32)`: a signed factor; negative values repel. */
  type Attraction = real

  /** `ColorAttractions(Vec<Vec<Attraction>>)`: particles of colour `i` are attracted by
      particles of colour `j` by `m[i][j]`. */
  type ColorAttractions = seq<seq<Attraction>>

  /** `AttractionRadius { rmin, rmax }`: the repulsive core and the outer edge of the
      attraction band. */
  datatype AttractionRadius = AttractionRadius(rmin: real, rmax: real)

  /** Both entries `m[a][b]` and `m[b][a]` exist. */
  predicate Indexable(m: ColorAttractions, a: ColorId, b: ColorId) {
    a < |m| && b < |m| && b < |m[a]| && a < |m[b]|
  }

  /** Colour `c` indexes a row of the matrix and a column of every row. */
  predicate ValidColor(m: ColorAttractions, c: ColorId) {
    c < |m| && forall row :: 0 <= row < |m| ==> c < |m[row]|
  }

  /** `attraction_factor`: the first component is how A is attracted by B, the second how
      B is attracted by A. The matrix is read only in the attraction band. */
  function AttractionFactor(distance: real, colorA: ColorId, colorB: ColorId,
                            m: ColorAttractions, rmin: real, rmax: real): (r: (Attraction, Attraction))
    requires distance <= rmin ==> rmin != 0.0
    requires rmin < distance <= rmax ==> Indexable(m, colorA, colorB)
    ensures distance <= rmin ==> r.0 == r.1
    ensures rmin < distance && rmax < distance ==> r == (0.0, 0.0)
  {
    if distance <= rmin then
      var factor := distance / rmin - 1.0;
      (factor, factor)
    else if distance <= rmax then
      var peakAByB := m[colorA][colorB];
      var peakBByA := m[colorB][colorA];
      var peakDistance := (rmin + rmax) / 2.0;
      var distanceScalar := Abs(distance - peakDistance);
      (distanceScalar * peakAByB, distanceScalar * peakBByA)
    else
      (0.0, 0.0)
  }

  /** Exchanging the two colours exchanges the two factors. */
  lemma AttractionSwap(distance: real, a: ColorId, b: ColorId, m: ColorAttractions,
                       rmin: real, rmax: real)
    requires distance <= rmin ==> rmin != 0.0
    requires rmin < distance <= rmax ==> Indexable(m, a, b)
    ensures var r := AttractionFactor(distance, a, b, m, rmin, rmax);
            AttractionFactor(distance, b, a, m, rmin, rmax) == (r.1, r.0)
  {
  }

  /** In the repulsive core both factors are `distance / rmin - 1`, whatever the colours and
      the matrix: negative below `rmin`, zero at `rmin`, and at least -1 (reached at distance
      zero) for non-negative distances. */
  lemma RepulsionBand(distance: real, a: ColorId, b: ColorId, m: ColorAttractions,
                      a': ColorId, b': ColorId, m': ColorAttractions, rmin: real, rmax: real)
    requires 0.0 < rmin && distance <= rmin
    ensures var r := AttractionFactor(distance, a, b, m, rmin, rmax);
            r == AttractionFactor(distance, a', b', m', rmin, rmax) &&
            r.0 == r.1 == distance / rmin - 1.0 &&
            (distance < rmin <==> r.0 < 0.0) &&
            (distance == rmin <==> r.0 == 0.0) &&
            (0.0 <= distance ==> -1.0 <= r.0) &&
            (distance == 0.0 ==> r.0 == -1.0)
  {
    var r := AttractionFactor(distance, a, b, m, rmin, rmax);
    if distance < rmin {
      assert distance / rmin < 1.0;
    }
    if 0.0 <= distance {
      assert 0.0 <= distance / rmin;
    }
  }

  /** Beyond `rmax` there is no interaction, whatever the colours and the matrix. */
  lemma BeyondRange(distance: real, a: ColorId, b: ColorId, m: ColorAttractions,
                    rmin: real, rmax: real)
    requires rmin < distance && rmax < distance
    ensures AttractionFactor(distance, a, b, m, rmin, rmax) == (0.0, 0.0)
  {
  }

  /** In the attraction band each factor is the matrix entry scaled by the distance from the
      middle of the band. */
  lemma AttractionBand(distance: real, a: ColorId, b: ColorId, m: ColorAttractions,
                       rmin: real, rmax: real)
    requires rmin < distance <= rmax && Indexable(m, a, b)
    ensures var s := Abs(distance - (rmin + rmax) / 2.0);
            AttractionFactor(distance, a, b, m, rmin, rmax) == (s * m[a][b], s * m[b][a])
  {
  }

  /** Contrary to the comment on `attraction_factor` ("peaks halfway"), the factor is zero in
      the middle of the band. */
  lemma BandZeroAtMidpoint(a: ColorId, b: ColorId, m: ColorAttractions, rmin: real, rmax: real)
    requires rmin < rmax && Indexable(m, a, b)
    ensures AttractionFactor((rmin + rmax) / 2.0, a, b, m, rmin, rmax) == (0.0, 0.0)
  {
  }

  /** In the band the factor grows strictly with the distance from the middle whenever its
      matrix entry is non-zero: the middle is where it is smallest, not where it peaks. */
  lemma BandGrowsAwayFromMidpoint(d1: real, d2: real, a: ColorId, b: ColorId,
                                  m: ColorAttractions, rmin: real, rmax: real)
    requires rmin < d1 <= rmax && rmin < d2 <= rmax && Indexable(m, a, b)
    requires Abs(d1 - (rmin + rmax) / 2.0) < Abs(d2 - (rmin + rmax) / 2.0)
    requires m[a][b] != 0.0
    ensures Abs(AttractionFactor(d1, a, b, m, rmin, rmax).0) <
            Abs(AttractionFactor(d2, a, b, m, rmin, rmax).0)
  {
    var mid := (rmin + rmax) / 2.0;
    var e := m[a][b];
    var s1, s2 := Abs(d1 - mid), Abs(d2 - mid);
    var f1, f2 := AttractionFactor(d1, a, b, m, rmin, rmax).0, AttractionFactor(d2, a, b, m, rmin, rmax).0;
    assert f1 == s1 * e;
    assert f2 == s2 * e;
    AbsProduct(s1, e);
    AbsProduct(s2, e);
    assert Abs(e) > 0.0;
    StrictTimes(s1, s2, Abs(e));
    assert Abs(f1) == s1 * Abs(e) < s2 * Abs(e) == Abs(f2);
  }

  lemma StrictTimes(s: real, t: real, e: real)
    requires s < t && 0.0 < e
    ensures s * e < t * e
  {
  }

  /** The largest magnitude in the band, `(rmax - rmin) / 2` times the matrix entry, is
      reached at `rmax`, where the comment says the factor is zero. */
  lemma BandLargestAtRmax(distance: real, a: ColorId, b: ColorId, m: ColorAttractions,
                          rmin: real, rmax: real)
    requires rmin < distance <= rmax && Indexable(m, a, b)
    ensures AttractionFactor(rmax, a, b, m, rmin, rmax).0 == (rmax - rmin) / 2.0 * m[a][b]
    ensures Abs(AttractionFactor(distance, a, b, m, rmin, rmax).0) <=
            (rmax - rmin) / 2.0 * Abs(m[a][b])
  {
    var mid := (rmin + rmax) / 2.0;
    var half := (rmax - rmin) / 2.0;
    var e := m[a][b];
    assert rmax - mid == half && half > 0.0;
    assert AttractionFactor(rmax, a, b, m, rmin, rmax).0 == Abs(rmax - mid) * e;
    var s := Abs(distance - mid);
    var f := AttractionFactor(distance, a, b, m, rmin, rmax).0;
    assert f == s * e;
    assert s <= half;
    AbsProduct(s, e);
    MonotoneTimes(s, half, Abs(e));
    assert Abs(f) == s * Abs(e) <= half * Abs(e);
  }

  lemma MonotoneTimes(s: real, t: real, e: real)
    requires 0.0 <= s <= t && 0.0 <= e
    ensures s * e <= t * e
  {
  }

  lemma AbsProduct(s: real, e: real)
    requires s >= 0.0
    ensures Abs(s * e) == s * Abs(e)
  {
  }

  /** Away from the middle of the band a factor has the sign of its matrix entry: positive
      entries attract, negative entries repel. */
  lemma BandSign(distance: real, a: ColorId, b: ColorId, m: ColorAttractions,
                 rmin: real, rmax: real)
    requires rmin < distance <= rmax && Indexable(m, a, b)
    requires distance != (rmin + rmax) / 2.0
    ensures var r := AttractionFactor(distance, a, b, m, rmin, rmax);
            (r.0 > 0.0 <==> m[a][b] > 0.0) && (r.0 < 0.0 <==> m[a][b] < 0.0) &&
            (r.1 > 0.0 <==> m[b][a] > 0.0) && (r.1 < 0.0 <==> m[b][a] < 0.0)
  {
    var s := Abs(distance - (rmin + rmax) / 2.0);
    assert s > 0.0;
    PositiveTimes(s, m[a][b]);
    PositiveTimes(s, m[b][a]);
  }

  lemma PositiveTimes(s: real, e: real)
    requires s > 0.0
    ensures s * e > 0.0 <==> e > 0.0
    ensures s * e < 0.0 <==> e < 0.0
  {
  }
}
