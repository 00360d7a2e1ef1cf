# Particle life: the physics kernel in Dafny

This project models the physics kernel of a "particle life" simulation: coloured point
particles on a periodically wrapped square, which attract or repel one another according to
their colours and their separation. The kernel sits in `src/lib.rs` and has three parts.

- **Toroidal geometry** (`toroidal.dfy`, module `Toroidal`):
  - the coordinate wrap `x - 2 round(x / 2)`, with `f32::round` as round-half-away-from-zero;
  - `toroidal_difference`, which corrects each axis of `tip - base` separately;
  - `toroidal_distance`, the length of that difference.
- **The attraction law** (`attraction.dfy`, module `AttractionLaw`): `attraction_factor`, a
  piecewise function of the distance, two colour ids, the colour-by-colour matrix and the radii
  `rmin` and `rmax`. It returns how A is attracted by B and how B is attracted by A.
- **The two per-tick passes** (`kernel.dfy`, module `Kernel`):
  - `update_velocity` visits every pair of distinct particles once, in the order Bevy's
    `iter_combinations_mut` yields them (module `Combinations`), and changes the two
    velocities of each pair;
  - `update_position` integrates every position by `dt` times its velocity and wraps it.

  Each pass is a method over an `array<Particle>`, updated in place. Each is proved equal to a
  function on sequences (`VelocityPass` and `PositionPass`). The properties are proved about
  those functions.

`vectors.dfy` (module `Vectors`) holds the 2D vectors over exact reals. `Vec2::length` is a
square root, which is not modelled. It is a function parameter `len`. The general lemmas
that need it assume only `IsLength(len)`: the length is never negative, and it is zero
exactly at the zero vector. The two-particle lemmas of `Scenarios` (`TwoParticleGeometry`,
`TwoParticleImpulse`, `TwoParticlesAttract`, `ExampleTwoParticles`) assume instead the one
value they use, that the length of `(0.2, 0)` is 0.2. `try_normalize` multiplies by the reciprocal of that length when the length
is positive.

`scenarios.dfy` (module `Scenarios`) proves the kernel's results on the example configuration
from `src/main.rs`: six colours, `rmin = 0.04` and `rmax = 0.4`.

The model follows the code as written. Four consequences are worth knowing:

- The wrap lands in the closed interval [-1, 1], not in a half-open one. Under
  round-half-away-from-zero it sends -1 to 1 and 1 to -1, so it is not idempotent at the two
  ends (`Toroidal.WrapSwapsEnds`, `Toroidal.WrapIdempotentExactlyInside`).
- `toroidal_difference` subtracts 2 from an axis below -1 as well as above 1. Such an axis
  lands 4 below the shortest offset, on the other side of zero from it (`Toroidal.AxisDifferenceVersusShortest`,
  `Toroidal.DifferenceNotAntisymmetric`).
- The comment on `attraction_factor` says the band factor is zero at `rmax` and peaks
  halfway. The formula is zero halfway and largest at `rmax` (`AttractionLaw.BandZeroAtMidpoint`,
  `AttractionLaw.BandLargestAtRmax`, `Scenarios.ExampleBandShape`).
- The code registers `update_position` and `update_velocity` with no order between them and
  checks neither the radii nor the colours. The model claims no order between the passes.
  `AttractionLaw.AttractionFactor` requires only what its code needs: `rmin != 0` where the
  repulsive band divides by it, and the two entries it reads in the band. The pair-step and
  pass-level members require every colour to be valid; "## Left out" lists them.

## Model

| member | source | states |
|---|---|---|
| Vectors.TryNormalize | src/lib.rs:165 | for an admissible length, normalization succeeds exactly for the non-zero vectors, and a result is the vector divided by its (positive) length |
| Vectors.NormalizeIsPositiveMultiple | src/lib.rs:164-166 | `try_normalize` succeeds exactly for non-zero vectors, and its result is a positive multiple of the input |
| Toroidal.Round | src/lib.rs:135-136 | `f32::round` is within 1/2 of its argument, and a tie goes away from zero |
| Toroidal.Wrap | src/lib.rs:135-136 | the wrap lands in [-1, 1] and moves `x` by a whole number of domain widths (2) |
| Toroidal.WrapFixesInterior | src/lib.rs:135-136 | inside (-1, 1) the wrap is the identity |
| Toroidal.WrapSwapsEnds | src/lib.rs:135-136 | the wrap sends -1 to 1 and 1 to -1 |
| Toroidal.WrapReachesEnds | src/lib.rs:135-136 | the wrap yields 1 only from a negative input and -1 only from a positive input |
| Toroidal.WrapIdempotentExactlyInside | src/lib.rs:135-136 | wrapping twice equals wrapping once exactly when the once-wrapped value is strictly inside (-1, 1) |
| Toroidal.WrapVec | src/lib.rs:135-136 | wrapping both coordinates puts a position in the closed square |
| Toroidal.AxisDifference | src/lib.rs:181-186 | an axis is left alone exactly when it lies in [-1, 1]; otherwise it has 2 subtracted, whatever its sign |
| Toroidal.ToroidalDifference | src/lib.rs:178-188 | on each axis the difference is `tip - base`, with 2 subtracted exactly when its magnitude exceeds 1 |
| Toroidal.ToroidalDistance | src/lib.rs:173-176 | for an admissible length the distance is non-negative and is zero exactly when the toroidal difference is zero |
| Toroidal.AxisDifferenceBands | src/lib.rs:180-186 | for a raw offset in [-2, 2]: [-1, 1] is unchanged, (1, 2] maps into (-1, 0], and [-2, -1) maps into [-4, -3) |
| Toroidal.ShortestOffset | src/lib.rs:178-188 | the reference correction lies in [-1, 1] and differs from the raw offset by 0 or ±2 |
| Toroidal.ShortestOffsetIsShortest | src/lib.rs:178-188 | no offset congruent modulo 2 is shorter than the reference |
| Toroidal.AxisDifferenceVersusShortest | src/lib.rs:181-186 | the code agrees with the shortest offset exactly when the raw offset is at least -1; below -1 it is 4 less, on the other side of zero from it |
| Toroidal.DistanceFacts | src/lib.rs:173-176 | the distance is non-negative, the distance from a point to itself is zero, and the distance is zero exactly when the difference is zero |
| Toroidal.DifferenceZero | src/lib.rs:179-187 | the difference is zero exactly when each axis of `tip - base` is 0 or 2 |
| Toroidal.DifferenceNotAntisymmetric | src/lib.rs:178-188 | between x = -0.9 and x = 0.9 the difference is -0.2 one way and -3.8 the other way |
| AttractionLaw.AttractionFactor | src/lib.rs:206-230 | in the repulsive band both factors are equal; beyond both radii both factors are 0; the matrix is read only in the band |
| AttractionLaw.AttractionSwap | src/lib.rs:214-226 | swapping the two colours swaps the two factors |
| AttractionLaw.RepulsionBand | src/lib.rs:196-197 | for `d <= rmin`, both factors are `d / rmin - 1` whatever the colours and the matrix: negative below `rmin`, zero at `rmin`, at least -1 for `d >= 0`, and -1 at 0 |
| AttractionLaw.BeyondRange | src/lib.rs:227-228 | beyond `rmax` both factors are 0 whatever the colours and the matrix |
| AttractionLaw.AttractionBand | src/lib.rs:217-226 | in the band the factors are `abs(d - (rmin + rmax) / 2)` times `m[a][b]` and times `m[b][a]` |
| AttractionLaw.BandZeroAtMidpoint | src/lib.rs:221-222 | in the middle of the band both factors are 0 |
| AttractionLaw.BandGrowsAwayFromMidpoint | src/lib.rs:221-225 | for a non-zero entry, the magnitude grows strictly with the distance from the middle of the band |
| AttractionLaw.BandLargestAtRmax | src/lib.rs:221-225 | the factor at `rmax` is `(rmax - rmin) / 2` times the entry, and no factor in the band is larger in magnitude |
| AttractionLaw.BandSign | src/lib.rs:223-226 | away from the middle of the band each factor has the sign of its matrix entry |
| Combinations.Row | src/lib.rs:150-151 | a row is the pairs `(i, lo)` up to `(i, hi - 1)`, in order |
| Combinations.Rows | src/lib.rs:150-151 | every pair in the first `i` rows has first member below `i` and `first < second < n` |
| Combinations.PairOrder | src/lib.rs:150-151 | every pair visited is `(a, b)` with `a < b < n` |
| Combinations.PairOrderComplete | src/lib.rs:150-158 | the pass visits `(a, b)` exactly when `a < b < n`, so it meets every pair of distinct particles and never meets a particle paired with itself |
| Combinations.PairOrderNoRepeats | src/lib.rs:150-151 | the visiting order is strictly increasing, so no pair is visited twice |
| Combinations.PairOrderSize | src/lib.rs:150-151 | `n` particles give `n (n - 1) / 2` pair steps |
| Kernel.PairDistance | src/lib.rs:160 | the distance passed to the law is at least 0.01; it is the toroidal distance when that is at least 0.01 and exactly 0.01 otherwise |
| Kernel.Heading | src/lib.rs:164-166 | for an admissible length and a non-zero difference the direction is the difference divided by the toroidal distance; for a zero difference it is the fallback `(1, 0)` |
| Kernel.PairImpulse | src/lib.rs:160-169 | A's change is `dt F_ab` times the direction and B's is `-(dt F_ba)` times it, with the factors taken at the clamped distance; what this means is proved in `Kernel.RepulsionPushesApart` (below `rmin` the pair is pushed apart), `Kernel.ReciprocalPairConservesMomentum` (reciprocal entries cancel) and `Kernel.ApplyPairsAccumulates` (impulses use the starting positions) |
| Kernel.PairStep | src/lib.rs:160-169 | a pair step changes no position and no colour, and leaves every particle other than the two of the pair unchanged |
| Kernel.ApplyPairs | src/lib.rs:150-170 | a run of pair steps keeps the number of particles, the positions and the colours |
| Kernel.VelocityPass | src/lib.rs:150-170 | the velocity pass keeps the number of particles, the positions and the colours |
| Kernel.StepPair | src/lib.rs:152-169 | the loop body leaves the array equal to `PairStep` of its old contents |
| Kernel.VisitRow | src/lib.rs:150-170 | the pairs `(i, j)` for `j > i`, visited in order, leave the array equal to those pair steps applied to its old contents |
| Kernel.UpdateVelocity | src/lib.rs:140-171 | the nested loop leaves the array equal to `VelocityPass` of its old contents |
| Kernel.ApplyPairsAppend | src/lib.rs:150-170 | two runs of pair steps in a row equal one run over the concatenated pairs |
| Kernel.ApplyPairsAccumulates | src/lib.rs:150-170 | after a run of pair steps, each velocity is its old value plus the sum of the impulses of that particle's pairs, all computed from the starting positions |
| Kernel.VelocityPassAccumulates | src/lib.rs:150-170 | the same for the whole velocity pass |
| Kernel.HeadingAlongDifference | src/lib.rs:164-166 | the direction is a positive multiple of the A-to-B difference, or `(1, 0)` when that difference is zero |
| Kernel.RepulsionPushesApart | src/lib.rs:160-169 | below `rmin` with `dt > 0`, A's velocity changes against the A-to-B direction and B's along it, by equal amounts |
| Kernel.ReciprocalPairConservesMomentum | src/lib.rs:168-169 | when `m[a][b] == m[b][a]`, the changes to the two velocities cancel |
| Kernel.PairStepConservesMomentum | src/lib.rs:168-169 | with reciprocal entries, a pair step keeps the sum of all velocities |
| Kernel.ApplyPairsConservesMomentum | src/lib.rs:150-170 | with reciprocal entries, a run of pair steps keeps the sum of all velocities |
| Kernel.VelocityPassConservesMomentum | src/lib.rs:150-170 | with reciprocal entries, the velocity pass keeps the sum of all velocities |
| Kernel.Moved | src/lib.rs:134-136 | a moved particle's position is the wrapped `position + dt velocity`, inside the closed square; velocity and colour are unchanged |
| Kernel.PositionPass | src/lib.rs:131-138 | after the position pass every position is in the closed square, and velocities, colours and the particle count are unchanged |
| Kernel.PositionPassWraps | src/lib.rs:134-136 | an integrated coordinate inside (-1, 1) is kept; one at -1 becomes 1, and one at 1 becomes -1 |
| Kernel.UpdatePosition | src/lib.rs:131-138 | the loop leaves the array equal to `PositionPass` of its old contents, with every position in the closed square |
| Scenarios.ExampleColors | src/main.rs:131-180 | exactly the colours 0 to 5 index the example matrix |
| Scenarios.ExampleRepulsion | src/lib.rs:214-216 | at `d = 0.02` with `rmin = 0.04` both factors are -0.5, whatever the colours |
| Scenarios.ExampleBand | src/lib.rs:217-226 | at `d = 0.3` the self factor is 0.024; red is attracted by green (0.00016) and green is slightly repelled by red (-0.00008) |
| Scenarios.ExampleBandShape | src/lib.rs:199-200 | with entry 0.3 the factor is 0 halfway (0.22) and 0.054 at `rmax` |
| Scenarios.ExampleWrapAround | src/lib.rs:134-136 | a particle moving from x = 0.95 to 1.1 comes back at -0.9 |
| Scenarios.TwoParticlesAttract | src/lib.rs:150-170 | two resting same-colour particles 0.2 apart with a self entry of 0.3 and `dt = 1/60` get velocities (1e-4, 0) and (-1e-4, 0), toward each other |
| Scenarios.ExampleTwoParticles | src/lib.rs:150-170 | the same with the example matrix |

## Left out

- Plugin wiring in `ParticleLifePlugin::build` (src/lib.rs:15-43) is framework registration. The engine gives no order between `update_position` and `update_velocity`, so there is no tick function.
- Rendering (src/lib.rs:75-129, 232-260) is left out: camera, meshes, materials and transforms.
- `src/main.rs` is window setup and random placement. Only its matrix and radii appear, as example data.
- IEEE `f32` behaviour is left out: rounding error, NaN, infinities and overflow. Every scalar is an exact real.
- `Vec2::length` is a parameter `len`, not a square root. `try_normalize` succeeds exactly when that length is positive, whereas glam also fails when the reciprocal of the length is not finite.
- `Time::delta_seconds` is left out; `dt` is a parameter.
- The guard `entity_a == entity_b` (src/lib.rs:156-158) cannot fire under `iter_combinations_mut`. It is modelled by the pair order, which only contains pairs `i < j`.
- The query's iteration order is modelled as array index order.
- Kernel.UpdateVelocity: requires every particle's colour to index every row of the matrix. The source reads the matrix only for pairs in the attraction band, so a bad colour elsewhere does no harm there. `AttractionLaw.AttractionFactor` itself requires only the two entries it reads.
- Kernel.VelocityPass: requires every colour to be valid, for the same reason as `Kernel.UpdateVelocity`.
- Kernel.PairStep: requires every colour to be valid, for the same reason as `Kernel.UpdateVelocity`.
- Kernel.ApplyPairs: requires every colour to be valid, for the same reason as `Kernel.UpdateVelocity`.
- Kernel.PairImpulse: requires both colours to be valid, though the source reads the matrix only when the pair is in the attraction band.
- Kernel.StepPair: requires every colour to be valid, for the same reason as `Kernel.UpdateVelocity`.
- Kernel.VisitRow: requires every colour to be valid, for the same reason as `Kernel.UpdateVelocity`.
