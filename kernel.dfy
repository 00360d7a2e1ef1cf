/** The two per-tick passes over the particles: `update_velocity`, which visits every pair of
    distinct particles once and changes the velocities of the two, and `update_position`,
    which integrates and wraps every position. The engine runs both once per frame without
    an order between them, so each is modelled on its own. */
module Kernel {
  import opened Vectors
  import opened Toroidal
  import opened AttractionLaw
  import opened Combinations

  /** `Velocity(Vec2)`. */
  type Velocity = Vec2

  /** `Particle { position, velocity, color }`, the bundle every simulated entity carries. */
  datatype Particle = Particle(position: Position, velocity: Velocity, color: ColorId)

  /** Every particle's colour indexes the attraction matrix. */
  predicate ColorsIndex(m: ColorAttractions, s: seq<Particle>) {
    forall k :: 0 <= k < |s| ==> ValidColor(m, s[k].color)
  }

  /** The floor `update_velocity` puts under the distance before using it. */
  const MinDistance: real := 0.01

  /** `toroidal_distance(a, b).max(0.01)`: never below the floor, and the toroidal distance
      itself whenever that is not below it. */
  function PairDistance(pa: Position, pb: Position, len: Vec2 -> real): (d: real)
    ensures d >= MinDistance
    ensures ToroidalDistance(pa, pb, len) >= MinDistance ==> d == ToroidalDistance(pa, pb, len)
    ensures ToroidalDistance(pa, pb, len) < MinDistance ==> d == MinDistance
  {
    Max(ToroidalDistance(pa, pb, len), MinDistance)
  }

  /** The normalized A-to-B difference, or `(1, 0)` when it cannot be normalized. */
  function Heading(pa: Position, pb: Position, len: Vec2 -> real): (h: Vec2)
    ensures IsLength(len) && ToroidalDifference(pa, pb) != Zero ==>
              h == Scale(1.0 / ToroidalDistance(pa, pb, len), ToroidalDifference(pa, pb))
    ensures IsLength(len) && ToroidalDifference(pa, pb) == Zero ==> h == Vec2(1.0, 0.0)
  {
    TryNormalize(ToroidalDifference(pa, pb), len).UnwrapOr(Vec2(1.0, 0.0))
  }

  /** The un-normalized direction the heading points along. */
  function RawHeading(pa: Position, pb: Position): Vec2 {
    var d := ToroidalDifference(pa, pb);
    if d == Zero then Vec2(1.0, 0.0) else d
  }

  /** The changes one pair step makes to the velocities of A and B: A gains
      `dt F_ab dir`, B loses `dt F_ba dir`. They depend on the positions and colours of the
      two particles and not on their velocities. */
  function PairImpulse(pa: Position, ca: ColorId, pb: Position, cb: ColorId, dt: real,
                       m: ColorAttractions, radius: AttractionRadius, len: Vec2 -> real): (r: (Velocity, Velocity))
    requires ValidColor(m, ca) && ValidColor(m, cb)
    ensures var f := AttractionFactor(PairDistance(pa, pb, len), ca, cb, m, radius.rmin, radius.rmax);
            r.0 == Scale(dt * f.0, Heading(pa, pb, len)) &&
            r.1 == Scale(-(dt * f.1), Heading(pa, pb, len))
  {
    var distance := PairDistance(pa, pb, len);
    var attraction := AttractionFactor(distance, ca, cb, m, radius.rmin, radius.rmax);
    var dir := Heading(pa, pb, len);
    Impulses(dt, attraction, dir)
  }

  /** A's change `dt f_ab dir` and B's change `-(dt f_ba) dir`. */
  function Impulses(dt: real, attraction: (Attraction, Attraction), dir: Vec2): (Velocity, Velocity) {
    (Scale(dt * attraction.0, dir), Scale(-(dt * attraction.1), dir))
  }

  /** One step of the pair loop: only the velocities of the two particles of the pair
      change. */
  function PairStep(s: seq<Particle>, p: Pair, dt: real, m: ColorAttractions,
                    radius: AttractionRadius, len: Vec2 -> real): (r: seq<Particle>)
    requires p.0 < p.1 < |s| && ColorsIndex(m, s)
    ensures |r| == |s|
    ensures forall k :: 0 <= k < |s| ==> r[k].position == s[k].position && r[k].color == s[k].color
    ensures forall k :: 0 <= k < |s| && k != p.0 && k != p.1 ==> r[k] == s[k]
  {
    var i, j := p.0, p.1;
    var impulse := PairImpulse(s[i].position, s[i].color, s[j].position, s[j].color,
                               dt, m, radius, len);
    s[i := s[i].(velocity := Add(s[i].velocity, impulse.0))][j := s[j].(velocity := Add(s[j].velocity, impulse.1))]
  }

  predicate PairsWithin(l: seq<Pair>, n: nat) {
    forall t :: 0 <= t < |l| ==> l[t].0 < l[t].1 < n
  }

  /** The pair steps of `l`, applied one after the other. */
  function ApplyPairs(s: seq<Particle>, l: seq<Pair>, dt: real, m: ColorAttractions,
                      radius: AttractionRadius, len: Vec2 -> real): (r: seq<Particle>)
    requires PairsWithin(l, |s|) && ColorsIndex(m, s)
    ensures |r| == |s| && ColorsIndex(m, r)
    ensures forall k :: 0 <= k < |s| ==> r[k].position == s[k].position && r[k].color == s[k].color
    decreases |l|
  {
    if l == [] then s
    else PairStep(ApplyPairs(s, l[..|l| - 1], dt, m, radius, len), l[|l| - 1], dt, m, radius, len)
  }

  /** What `update_velocity` does to the particles: every pair step, in combination order.
      Positions, colours and the number of particles are untouched. */
  function VelocityPass(s: seq<Particle>, dt: real, m: ColorAttractions,
                        radius: AttractionRadius, len: Vec2 -> real): (r: seq<Particle>)
    requires ColorsIndex(m, s)
    ensures |r| == |s|
    ensures forall k :: 0 <= k < |s| ==> r[k].position == s[k].position && r[k].color == s[k].color
  {
    ApplyPairs(s, PairOrder(|s|), dt, m, radius, len)
  }

  /** The body of the pair loop of `update_velocity` for the pair `(i, j)`: A's velocity
      gains `dt F_ab dir` and B's loses `dt F_ba dir`. */
  method StepPair(particles: array<Particle>, i: nat, j: nat, dt: real, radius: AttractionRadius,
                  m: ColorAttractions, len: Vec2 -> real)
    requires i < j < particles.Length && ColorsIndex(m, particles[..])
    modifies particles
    ensures particles[..] == PairStep(old(particles[..]), (i, j), dt, m, radius, len)
  {
    ghost var s := particles[..];
    var positionA, positionB := particles[i].position, particles[j].position;
    var distance := Max(ToroidalDistance(positionA, positionB, len), MinDistance);
    var (attractionAByB, attractionBByA) :=
      AttractionFactor(distance, particles[i].color, particles[j].color, m, radius.rmin, radius.rmax);
    var direction := TryNormalize(ToroidalDifference(positionA, positionB), len).UnwrapOr(Vec2(1.0, 0.0));
    ghost var impulse := Impulses(dt, (attractionAByB, attractionBByA), direction);
    PairImpulseParts(positionA, s[i].color, positionB, s[j].color, dt, m, radius, len);
    assert impulse.0 == Scale(dt * attractionAByB, direction);
    assert impulse.1 == Scale(-(dt * attractionBByA), direction);
    SubIsAddNegated(s[j].velocity, dt * attractionBByA, direction);
    particles[i] := particles[i].(velocity := Add(particles[i].velocity, Scale(dt * attractionAByB, direction)));
    particles[j] := particles[j].(velocity := Sub(particles[j].velocity, Scale(dt * attractionBByA, direction)));
    assert particles[..] == s[i := s[i].(velocity := Add(s[i].velocity, impulse.0))]
                             [j := s[j].(velocity := Add(s[j].velocity, impulse.1))];
  }

  lemma PairImpulseParts(pa: Position, ca: ColorId, pb: Position, cb: ColorId, dt: real,
                         m: ColorAttractions, radius: AttractionRadius, len: Vec2 -> real)
    requires ValidColor(m, ca) && ValidColor(m, cb)
    ensures PairImpulse(pa, ca, pb, cb, dt, m, radius, len) ==
            Impulses(dt, AttractionFactor(PairDistance(pa, pb, len), ca, cb, m, radius.rmin, radius.rmax),
                     Heading(pa, pb, len))
  {
  }

  lemma SubIsAddNegated(v: Vec2, k: real, d: Vec2)
    ensures Sub(v, Scale(k, d)) == Add(v, Scale(-k, d))
  {
  }

  /** Applying one more pair is one more pair step. */
  lemma ApplyPairsSnoc(s: seq<Particle>, l: seq<Pair>, p: Pair, dt: real, m: ColorAttractions,
                       radius: AttractionRadius, len: Vec2 -> real)
    requires PairsWithin(l, |s|) && p.0 < p.1 < |s| && ColorsIndex(m, s)
    ensures PairsWithin(l + [p], |s|)
    ensures ApplyPairs(s, l + [p], dt, m, radius, len) ==
            PairStep(ApplyPairs(s, l, dt, m, radius, len), p, dt, m, radius, len)
  {
    assert (l + [p])[..|l|] == l;
  }

  lemma RowWithin(i: nat, lo: nat, hi: nat, n: nat)
    requires i < lo && hi <= n
    ensures PairsWithin(Row(i, lo, hi), n)
  {
    var r := Row(i, lo, hi);
    forall t | 0 <= t < |r| ensures r[t].0 < r[t].1 < n {
      assert r[t] == (i, lo + t);
    }
  }

  /** One more pair of a row is one more pair step. */
  lemma RowStep(s: seq<Particle>, i: nat, j: nat, dt: real, m: ColorAttractions,
                radius: AttractionRadius, len: Vec2 -> real)
    requires i < j < |s| && ColorsIndex(m, s)
    ensures PairsWithin(Row(i, i + 1, j), |s|) && PairsWithin(Row(i, i + 1, j + 1), |s|)
    ensures ApplyPairs(s, Row(i, i + 1, j + 1), dt, m, radius, len) ==
            PairStep(ApplyPairs(s, Row(i, i + 1, j), dt, m, radius, len), (i, j), dt, m, radius, len)
  {
    var row, next := Row(i, i + 1, j), Row(i, i + 1, j + 1);
    RowWithin(i, i + 1, j, |s|);
    RowWithin(i, i + 1, j + 1, |s|);
    RowExtend(i, i + 1, j);
    assert next == row + [(i, j)];
    ApplyPairsSnoc(s, row, (i, j), dt, m, radius, len);
  }

  /** Applying two lists of pairs one after the other is applying their concatenation. */
  lemma {:induction false} ApplyPairsAppend(s: seq<Particle>, l1: seq<Pair>, l2: seq<Pair>, dt: real,
                                            m: ColorAttractions, radius: AttractionRadius,
                                            len: Vec2 -> real)
    requires PairsWithin(l1, |s|) && PairsWithin(l2, |s|) && ColorsIndex(m, s)
    ensures PairsWithin(l1 + l2, |s|)
    ensures ApplyPairs(s, l1 + l2, dt, m, radius, len) ==
            ApplyPairs(ApplyPairs(s, l1, dt, m, radius, len), l2, dt, m, radius, len)
    decreases |l2|
  {
    if l2 == [] {
      assert l1 + l2 == l1;
    } else {
      var init, p := l2[..|l2| - 1], l2[|l2| - 1];
      assert l2 == init + [p];
      assert l1 + l2 == (l1 + init) + [p];
      ApplyPairsAppend(s, l1, init, dt, m, radius, len);
      ApplyPairsSnoc(s, l1 + init, p, dt, m, radius, len);
      ApplyPairsSnoc(ApplyPairs(s, l1, dt, m, radius, len), init, p, dt, m, radius, len);
    }
  }

  /** `update_velocity`, a sequential loop over the pairs `i < j` of the query, in the order
      `iter_combinations_mut` yields them. */
  method UpdateVelocity(particles: array<Particle>, dt: real, radius: AttractionRadius,
                        m: ColorAttractions, len: Vec2 -> real)
    requires ColorsIndex(m, particles[..])
    modifies particles
    ensures particles[..] == VelocityPass(old(particles[..]), dt, m, radius, len)
  {
    var n := particles.Length;
    ghost var start := particles[..];
    for i := 0 to n
      invariant particles[..] == ApplyPairs(start, Rows(i, n), dt, m, radius, len)
    {
      VisitRow(particles, i, dt, radius, m, len);
      ApplyPairsAppend(start, Rows(i, n), Row(i, i + 1, n), dt, m, radius, len);
    }
  }

  /** The inner loop of `UpdateVelocity`: the pairs `(i, j)` for every `j > i`. */
  method VisitRow(particles: array<Particle>, i: nat, dt: real, radius: AttractionRadius,
                  m: ColorAttractions, len: Vec2 -> real)
    requires i < particles.Length && ColorsIndex(m, particles[..])
    modifies particles
    ensures particles[..] == ApplyPairs(old(particles[..]), Row(i, i + 1, particles.Length),
                                        dt, m, radius, len)
  {
    ghost var rowStart := particles[..];
    for j := i + 1 to particles.Length
      invariant particles[..] == ApplyPairs(rowStart, Row(i, i + 1, j), dt, m, radius, len)
    {
      StepPair(particles, i, j, dt, radius, m, len);
      RowStep(rowStart, i, j, dt, m, radius, len);
    }
  }

  /** Every particle's velocity after the pass is its velocity before plus the sum, over the
      pairs it belongs to, of the impulses computed from the positions at the start of the
      pass: the loop never reads a value it has itself written, so accumulating the impulses
      per particle and adding them afterwards gives the same velocities. */
  function Contribution(s: seq<Particle>, p: Pair, k: nat, dt: real, m: ColorAttractions,
                        radius: AttractionRadius, len: Vec2 -> real): Velocity
    requires p.0 < p.1 < |s| && ColorsIndex(m, s)
  {
    var impulse := PairImpulse(s[p.0].position, s[p.0].color, s[p.1].position, s[p.1].color,
                               dt, m, radius, len);
    if k == p.0 then impulse.0 else if k == p.1 then impulse.1 else Zero
  }

  function Accumulated(s: seq<Particle>, l: seq<Pair>, k: nat, dt: real, m: ColorAttractions,
                       radius: AttractionRadius, len: Vec2 -> real): Velocity
    requires PairsWithin(l, |s|) && ColorsIndex(m, s)
    decreases |l|
  {
    if l == [] then Zero
    else Add(Accumulated(s, l[..|l| - 1], k, dt, m, radius, len),
             Contribution(s, l[|l| - 1], k, dt, m, radius, len))
  }

  lemma {:induction false} ApplyPairsAccumulates(s: seq<Particle>, l: seq<Pair>, k: nat, dt: real,
                                                 m: ColorAttractions, radius: AttractionRadius,
                                                 len: Vec2 -> real)
    requires PairsWithin(l, |s|) && ColorsIndex(m, s) && k < |s|
    ensures ApplyPairs(s, l, dt, m, radius, len)[k].velocity ==
            Add(s[k].velocity, Accumulated(s, l, k, dt, m, radius, len))
    decreases |l|
  {
    if l == [] {
      assert Add(s[k].velocity, Zero) == s[k].velocity;
    } else {
      var init, p := l[..|l| - 1], l[|l| - 1];
      var a := ApplyPairs(s, init, dt, m, radius, len);
      ApplyPairsAccumulates(s, init, k, dt, m, radius, len);
      var c := Contribution(s, p, k, dt, m, radius, len);
      assert Contribution(a, p, k, dt, m, radius, len) == c;
      assert PairStep(a, p, dt, m, radius, len)[k].velocity == Add(a[k].velocity, c);
      AddAssociative(s[k].velocity, Accumulated(s, init, k, dt, m, radius, len), c);
    }
  }

  lemma VelocityPassAccumulates(s: seq<Particle>, k: nat, dt: real, m: ColorAttractions,
                                radius: AttractionRadius, len: Vec2 -> real)
    requires ColorsIndex(m, s) && k < |s|
    ensures VelocityPass(s, dt, m, radius, len)[k].velocity ==
            Add(s[k].velocity, Accumulated(s, PairOrder(|s|), k, dt, m, radius, len))
  {
    ApplyPairsAccumulates(s, PairOrder(|s|), k, dt, m, radius, len);
  }

  /** The heading is a positive multiple of the A-to-B difference, or exactly `(1, 0)`
      when that difference is zero. */
  lemma HeadingAlongDifference(pa: Position, pb: Position, len: Vec2 -> real)
    requires IsLength(len)
    ensures exists c :: c > 0.0 && Heading(pa, pb, len) == Scale(c, RawHeading(pa, pb))
  {
    var d := ToroidalDifference(pa, pb);
    if d == Zero {
      assert len(d) == 0.0;
      assert Heading(pa, pb, len) == Scale(1.0, RawHeading(pa, pb));
    } else {
      assert len(d) > 0.0;
      assert Heading(pa, pb, len) == Scale(1.0 / len(d), RawHeading(pa, pb));
    }
  }

  lemma NegativeProduct(dt: real, f: real, c: real)
    requires dt > 0.0 && f < 0.0 && c > 0.0
    ensures dt * f * c < 0.0
  {
    assert dt * f < 0.0;
  }

  /** Inside the repulsive core a positive time step pushes the two particles apart: A's
      velocity changes against the A-to-B direction and B's along it, by the same amount. */
  lemma RepulsionPushesApart(pa: Position, ca: ColorId, pb: Position, cb: ColorId, dt: real,
                             m: ColorAttractions, radius: AttractionRadius, len: Vec2 -> real)
    requires IsLength(len) && ValidColor(m, ca) && ValidColor(m, cb)
    requires 0.0 < dt && PairDistance(pa, pb, len) < radius.rmin
    ensures var impulse := PairImpulse(pa, ca, pb, cb, dt, m, radius, len);
            exists k :: k > 0.0 && impulse.0 == Scale(-k, RawHeading(pa, pb)) &&
                        impulse.1 == Scale(k, RawHeading(pa, pb))
  {
    var d := PairDistance(pa, pb, len);
    var f := AttractionFactor(d, ca, cb, m, radius.rmin, radius.rmax);
    RepulsionBand(d, ca, cb, m, ca, cb, m, radius.rmin, radius.rmax);
    HeadingAlongDifference(pa, pb, len);
    var h := RawHeading(pa, pb);
    var c :| c > 0.0 && Heading(pa, pb, len) == Scale(c, h);
    NegativeProduct(dt, f.0, c);
    var k := -(dt * f.0 * c);
    PairImpulseParts(pa, ca, pb, cb, dt, m, radius, len);
    ImpulseAlongHeading(dt, f, c, h);
    var impulse := PairImpulse(pa, ca, pb, cb, dt, m, radius, len);
    assert impulse == Impulses(dt, f, Scale(c, h));
    assert f.1 == f.0;
    assert impulse.0 == Scale(-k, h);
    assert -(dt * f.1) * c == k;
    assert impulse.1 == Scale(k, h);
  }

  lemma ImpulseAlongHeading(dt: real, f: (Attraction, Attraction), c: real, h: Vec2)
    ensures Impulses(dt, f, Scale(c, h)).0 == Scale(dt * f.0 * c, h)
    ensures Impulses(dt, f, Scale(c, h)).1 == Scale(-(dt * f.1) * c, h)
  {
    ScaleScale(dt * f.0, c, h);
    ScaleScale(-(dt * f.1), c, h);
  }

  /** When the two matrix entries of a pair agree (in particular for two particles of the
      same colour), the pair step changes A's and B's velocities by opposite amounts, so
      their sum is unchanged. */
  lemma ReciprocalPairConservesMomentum(pa: Position, ca: ColorId, pb: Position, cb: ColorId,
                                        dt: real, m: ColorAttractions, radius: AttractionRadius,
                                        len: Vec2 -> real)
    requires ValidColor(m, ca) && ValidColor(m, cb) && m[ca][cb] == m[cb][ca]
    ensures var impulse := PairImpulse(pa, ca, pb, cb, dt, m, radius, len);
            Add(impulse.0, impulse.1) == Zero
  {
  }

  /** The sum of the velocities of the particles: their total momentum, every particle
      having the same mass. */
  function TotalVelocity(s: seq<Particle>): Velocity
    decreases |s|
  {
    if s == [] then Zero else Add(TotalVelocity(s[..|s| - 1]), s[|s| - 1].velocity)
  }

  /** Replacing one particle changes the total by the change of its velocity. */
  lemma {:induction false} TotalVelocityUpdate(s: seq<Particle>, i: nat, q: Particle)
    requires i < |s|
    ensures TotalVelocity(s[i := q]) == Add(TotalVelocity(s), Sub(q.velocity, s[i].velocity))
    decreases |s|
  {
    var t := s[i := q];
    if i == |s| - 1 {
      assert t[..|t| - 1] == s[..|s| - 1];
    } else {
      assert t[..|t| - 1] == s[..|s| - 1][i := q];
      TotalVelocityUpdate(s[..|s| - 1], i, q);
    }
  }

  /** The colours of the particles meet a symmetric part of the matrix: any two of them
      attract each other equally. */
  predicate Reciprocal(m: ColorAttractions, s: seq<Particle>)
    requires ColorsIndex(m, s)
  {
    forall a, b :: 0 <= a < |s| && 0 <= b < |s| ==>
      m[s[a].color][s[b].color] == m[s[b].color][s[a].color]
  }

  /** Adding opposite changes to two velocities leaves the total unchanged. */
  lemma OppositeChanges(s: seq<Particle>, i: nat, j: nat, d: Velocity, e: Velocity)
    requires i < j < |s| && Add(d, e) == Zero
    ensures TotalVelocity(s[i := s[i].(velocity := Add(s[i].velocity, d))]
                           [j := s[j].(velocity := Add(s[j].velocity, e))]) == TotalVelocity(s)
  {
    var s1 := s[i := s[i].(velocity := Add(s[i].velocity, d))];
    TotalVelocityUpdate(s, i, s1[i]);
    TotalVelocityUpdate(s1, j, s[j].(velocity := Add(s[j].velocity, e)));
  }

  /** With reciprocal attractions a pair step leaves the total velocity unchanged. */
  lemma PairStepConservesMomentum(s: seq<Particle>, p: Pair, dt: real, m: ColorAttractions,
                                  radius: AttractionRadius, len: Vec2 -> real)
    requires p.0 < p.1 < |s| && ColorsIndex(m, s) && Reciprocal(m, s)
    ensures TotalVelocity(PairStep(s, p, dt, m, radius, len)) == TotalVelocity(s)
  {
    var i, j := p.0, p.1;
    var impulse := PairImpulse(s[i].position, s[i].color, s[j].position, s[j].color,
                               dt, m, radius, len);
    assert m[s[i].color][s[j].color] == m[s[j].color][s[i].color];
    ReciprocalPairConservesMomentum(s[i].position, s[i].color, s[j].position, s[j].color,
                                    dt, m, radius, len);
    OppositeChanges(s, i, j, impulse.0, impulse.1);
  }

  /** With reciprocal attractions among the particles present, the velocity pass conserves
      the total velocity. */
  lemma {:induction false} ApplyPairsConservesMomentum(s: seq<Particle>, l: seq<Pair>, dt: real,
                                                       m: ColorAttractions, radius: AttractionRadius,
                                                       len: Vec2 -> real)
    requires PairsWithin(l, |s|) && ColorsIndex(m, s) && Reciprocal(m, s)
    ensures TotalVelocity(ApplyPairs(s, l, dt, m, radius, len)) == TotalVelocity(s)
    decreases |l|
  {
    if l != [] {
      var init := l[..|l| - 1];
      var a := ApplyPairs(s, init, dt, m, radius, len);
      ApplyPairsConservesMomentum(s, init, dt, m, radius, len);
      assert Reciprocal(m, a);
      PairStepConservesMomentum(a, l[|l| - 1], dt, m, radius, len);
    }
  }

  lemma VelocityPassConservesMomentum(s: seq<Particle>, dt: real, m: ColorAttractions,
                                      radius: AttractionRadius, len: Vec2 -> real)
    requires ColorsIndex(m, s) && Reciprocal(m, s)
    ensures TotalVelocity(VelocityPass(s, dt, m, radius, len)) == TotalVelocity(s)
  {
    ApplyPairsConservesMomentum(s, PairOrder(|s|), dt, m, radius, len);
  }

  /** One particle moved by `dt` times its velocity and wrapped back onto the square. */
  function Moved(p: Particle, dt: real): (r: Particle)
    ensures r.position == WrapVec(Add(p.position, Scale(dt, p.velocity)))
    ensures InDomain(r.position) && r.velocity == p.velocity && r.color == p.color
  {
    p.(position := WrapVec(Add(p.position, Scale(dt, p.velocity))))
  }

  /** What `update_position` does to the particles: every position lands in the closed
      square [-1, 1] x [-1, 1]; velocities, colours and the number of particles are
      unchanged. */
  function PositionPass(s: seq<Particle>, dt: real): (r: seq<Particle>)
    ensures |r| == |s|
    ensures forall k :: 0 <= k < |s| ==>
              InDomain(r[k].position) && r[k].velocity == s[k].velocity && r[k].color == s[k].color
  {
    seq(|s|, k requires 0 <= k < |s| => Moved(s[k], dt))
  }

  /** A coordinate that integration leaves strictly inside (-1, 1) is kept as it is; one that
      lands exactly on -1 is moved to 1 and one on 1 to -1. */
  lemma PositionPassWraps(s: seq<Particle>, dt: real, k: nat)
    requires k < |s|
    ensures var x := s[k].position.x + dt * s[k].velocity.x;
            var x' := PositionPass(s, dt)[k].position.x;
            (-1.0 < x < 1.0 ==> x' == x) && (x == -1.0 ==> x' == 1.0) && (x == 1.0 ==> x' == -1.0)
    ensures var y := s[k].position.y + dt * s[k].velocity.y;
            var y' := PositionPass(s, dt)[k].position.y;
            (-1.0 < y < 1.0 ==> y' == y) && (y == -1.0 ==> y' == 1.0) && (y == 1.0 ==> y' == -1.0)
  {
    var x := s[k].position.x + dt * s[k].velocity.x;
    var y := s[k].position.y + dt * s[k].velocity.y;
    var v := Add(s[k].position, Scale(dt, s[k].velocity));
    assert v.x == x && v.y == y;
    var p' := PositionPass(s, dt)[k].position;
    assert p' == WrapVec(v);
    assert WrapVec(v).x == Wrap(v.x);
    assert p'.x == Wrap(x) && p'.y == Wrap(y);
    WrapSwapsEnds();
    if -1.0 < x < 1.0 {
      WrapFixesInterior(x);
    }
    if -1.0 < y < 1.0 {
      WrapFixesInterior(y);
    }
  }

  /** `update_position`: each particle in turn is moved by `dt` times its velocity and each
      coordinate is wrapped with `x - 2 round(x / 2)`. */
  method UpdatePosition(particles: array<Particle>, dt: real)
    modifies particles
    ensures particles[..] == PositionPass(old(particles[..]), dt)
    ensures forall k :: 0 <= k < particles.Length ==> InDomain(particles[k].position)
  {
    for i := 0 to particles.Length
      invariant forall k :: 0 <= k < i ==> particles[k] == Moved(old(particles[k]), dt)
      invariant forall k :: i <= k < particles.Length ==> particles[k] == old(particles[k])
    {
      var position := Add(particles[i].position, Scale(dt, particles[i].velocity));
      position := position.(x := position.x - 2.0 * Round(position.x / 2.0) as real);
      position := position.(y := position.y - 2.0 * Round(position.y / 2.0) as real);
      particles[i] := particles[i].(position := position);
    }
  }
}
