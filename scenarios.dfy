/** The kernel's results, proved for the example configuration the binary starts with: six
    colours, each attracted strongly by its own colour, slightly by the next, slightly
    repelled by the previous and repelled by the others, with `rmin = 0.04` and
    `rmax = 0.4`. */
module Scenarios {
  import opened Vectors
  import opened Toroidal
  import opened AttractionLaw
  import opened Combinations
  import opened Kernel

  const SelfAttraction: real := 0.3
  const PreviousAttraction: real := -0.001
  const NextAttraction: real := 0.002
  const OtherAttraction: real := -0.05

  const ExampleRadius: AttractionRadius := AttractionRadius(0.04, 0.4)

  /** Row `i` holds `SelfAttraction` on the diagonal, `NextAttraction` at `i + 1`,
      `PreviousAttraction` at `i - 1` (both modulo 6) and `OtherAttraction` elsewhere. */
  const ExampleMatrix: ColorAttractions := [
    [SelfAttraction, NextAttraction, OtherAttraction, OtherAttraction, OtherAttraction, PreviousAttraction],
    [PreviousAttraction, SelfAttraction, NextAttraction, OtherAttraction, OtherAttraction, OtherAttraction],
    [OtherAttraction, PreviousAttraction, SelfAttraction, NextAttraction, OtherAttraction, OtherAttraction],
    [OtherAttraction, OtherAttraction, PreviousAttraction, SelfAttraction, NextAttraction, OtherAttraction],
    [OtherAttraction, OtherAttraction, OtherAttraction, PreviousAttraction, SelfAttraction, NextAttraction],
    [NextAttraction, OtherAttraction, OtherAttraction, OtherAttraction, PreviousAttraction, SelfAttraction]
  ]

  /** Exactly the six colours index the example matrix. */
  lemma ExampleColors(c: ColorId)
    ensures ValidColor(ExampleMatrix, c) <==> c < 6
  {
  }

  /** Halfway into the repulsive core both particles are pushed with half the full strength,
      whatever their colours. */
  lemma ExampleRepulsion(a: ColorId, b: ColorId)
    ensures AttractionFactor(0.02, a, b, ExampleMatrix, 0.04, 0.4) == (-0.5, -0.5)
  {
  }

  /** In the band, red is attracted by green by `0.08 * 0.002` while green is slightly
      repelled by red, by `0.08 * -0.001`: the law is not symmetric. */
  lemma ExampleBand()
    ensures AttractionFactor(0.3, 0, 0, ExampleMatrix, 0.04, 0.4) == (0.024, 0.024)
    ensures AttractionFactor(0.3, 0, 1, ExampleMatrix, 0.04, 0.4) == (0.00016, -0.00008)
  {
    assert Abs(0.3 - (0.04 + 0.4) / 2.0) == 0.08;
  }

  /** The doc comment's "zero at rmax, peaks halfway" against the code: halfway the factor
      is zero, at `rmax` it is `0.18 * 0.3`. */
  lemma ExampleBandShape()
    ensures AttractionFactor(0.22, 0, 0, ExampleMatrix, 0.04, 0.4) == (0.0, 0.0)
    ensures AttractionFactor(0.4, 0, 0, ExampleMatrix, 0.04, 0.4) == (0.054, 0.054)
  {
    assert Abs(0.4 - (0.04 + 0.4) / 2.0) == 0.18;
  }

  /** A particle crossing the right edge comes back on the left. */
  lemma ExampleWrapAround()
    ensures var p := Particle(Vec2(0.95, 0.0), Vec2(3.0, 0.0), 0);
            PositionPass([p], 0.05) == [Particle(Vec2(-0.9, 0.0), Vec2(3.0, 0.0), 0)]
  {
    assert Round(0.55) == 1;
    assert Round(0.0) == 0;
  }

  /** Two particles give one pair step. */
  lemma TwoParticlePairOrder()
    ensures PairOrder(2) == [(0, 1)]
  {
    assert Rows(1, 2) == Rows(0, 2) + Row(0, 1, 2);
    assert Row(0, 1, 2) == [(0, 1)];
  }

  const Left: Position := Vec2(-0.1, 0.0)
  const Right: Position := Vec2(0.1, 0.0)

  /** The two particles are 0.2 apart and the heading from the left one to the right one
      is `(1, 0)`. */
  lemma TwoParticleGeometry(len: Vec2 -> real)
    requires len(Vec2(0.2, 0.0)) == 0.2
    ensures PairDistance(Left, Right, len) == 0.2
    ensures Heading(Left, Right, len) == Vec2(1.0, 0.0)
  {
    var d := ToroidalDifference(Left, Right);
    assert d == Vec2(0.2, 0.0);
    assert Scale(1.0 / 0.2, d) == Vec2(1.0, 0.0);
  }

  /** At 0.2 two particles of a colour attracted by its own colour by 0.3 are in the
      attraction band, `0.02` from its middle. */
  lemma TwoParticleFactor(m: ColorAttractions)
    requires ValidColor(m, 0) && m[0][0] == SelfAttraction
    ensures AttractionFactor(0.2, 0, 0, m, 0.04, 0.4).0 == 0.006
    ensures AttractionFactor(0.2, 0, 0, m, 0.04, 0.4).1 == 0.006
  {
    assert Abs(0.2 - (0.04 + 0.4) / 2.0) == 0.02;
  }

  /** The pair step of the two particles: `dt * 0.006` along `(1, 0)` for the left one and
      the opposite for the right one. */
  lemma TwoParticleImpulse(m: ColorAttractions, len: Vec2 -> real)
    requires ValidColor(m, 0) && m[0][0] == SelfAttraction
    requires len(Vec2(0.2, 0.0)) == 0.2
    ensures PairImpulse(Left, 0, Right, 0, 1.0 / 60.0, m, ExampleRadius, len).0 == Vec2(0.0001, 0.0)
    ensures PairImpulse(Left, 0, Right, 0, 1.0 / 60.0, m, ExampleRadius, len).1 == Vec2(-0.0001, 0.0)
  {
    TwoParticleGeometry(len);
    TwoParticleFactor(m);
    PairImpulseParts(Left, 0, Right, 0, 1.0 / 60.0, m, ExampleRadius, len);
    var f := AttractionFactor(0.2, 0, 0, m, 0.04, 0.4);
    assert Impulses(1.0 / 60.0, f, Vec2(1.0, 0.0)).0 == Vec2(0.0001, 0.0);
    assert Impulses(1.0 / 60.0, f, Vec2(1.0, 0.0)).1 == Vec2(-0.0001, 0.0);
  }

  /** With two particles the velocity pass is the single pair step of `(0, 1)`. */
  lemma TwoParticlePass(s: seq<Particle>, dt: real, m: ColorAttractions,
                        radius: AttractionRadius, len: Vec2 -> real)
    requires |s| == 2 && ColorsIndex(m, s)
    ensures var impulse := PairImpulse(s[0].position, s[0].color, s[1].position, s[1].color,
                                       dt, m, radius, len);
            var r := VelocityPass(s, dt, m, radius, len);
            r[0].velocity == Add(s[0].velocity, impulse.0) &&
            r[1].velocity == Add(s[1].velocity, impulse.1)
  {
    TwoParticlePairOrder();
    ApplyPairsSnoc(s, [], (0, 1), dt, m, radius, len);
    assert [] + [(0, 1)] == [(0, 1)];
  }

  /** Two particles of a self-attracting colour, 0.2 apart and at rest, attract each other
      in one velocity pass: the left one starts moving right and the right one left, with
      opposite velocities. */
  lemma TwoParticlesAttract(m: ColorAttractions, len: Vec2 -> real)
    requires ValidColor(m, 0) && m[0][0] == SelfAttraction
    requires len(Vec2(0.2, 0.0)) == 0.2
    ensures var s := [Particle(Left, Zero, 0), Particle(Right, Zero, 0)];
            var r := VelocityPass(s, 1.0 / 60.0, m, ExampleRadius, len);
            r[0].velocity == Vec2(0.0001, 0.0) && r[1].velocity == Vec2(-0.0001, 0.0)
  {
    var s := [Particle(Left, Zero, 0), Particle(Right, Zero, 0)];
    assert ColorsIndex(m, s);
    TwoParticlePass(s, 1.0 / 60.0, m, ExampleRadius, len);
    TwoParticleImpulse(m, len);
  }

  /** The same with the example matrix: two red particles. */
  lemma ExampleTwoParticles(len: Vec2 -> real)
    requires len(Vec2(0.2, 0.0)) == 0.2
    ensures var s := [Particle(Left, Zero, 0), Particle(Right, Zero, 0)];
            var r := VelocityPass(s, 1.0 / 60.0, ExampleMatrix, ExampleRadius, len);
            r[0].velocity == Vec2(0.0001, 0.0) && r[1].velocity == Vec2(-0.0001, 0.0)
  {
    ExampleColors(0);
    TwoParticlesAttract(ExampleMatrix, len);
  }
}
