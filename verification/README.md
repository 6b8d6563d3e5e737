# Boids flocking core, modelled in Dafny

This project models the flocking update of `BoidsManager`, a Unity component that
moves a flock of boids. Each frame, `UpdateBoids` walks the boid list in order.
For each boid it does four things:

- it resets the boid's velocity to zero;
- it adds the enabled steering rules in turn: `Cohesion` (towards the neighbours'
  centre), `Seperation` (away from boids closer than `r2`) and `Alignment`
  (towards the neighbours' mean velocity);
- it moves the boid by its new velocity;
- it wraps the new position back into the field with `CheckFieldPosition`.

The list is updated in place. So a boid's rules see the boids before it as
already updated in this frame, and the boids after it as they were. `Alignment`
also subtracts the boid's own velocity as it stands at the call, which is the
sum of the Cohesion and Separation just added, not last frame's velocity.

Layout:

- `vectors.dfy` (module `Vectors`): `Vec3` over `real`, with the vector
  operations the code uses. `Vector3.Distance(a, b) < d` becomes `Within`, a
  comparison of the squared distance.
- `field.dfy` (module `Field`): `CheckFieldPosition`, the per-axis teleport wrap
  with re-entry offset 0.5.
- `rules.dfy` (module `Rules`): `Boid`, the inspector settings `Config`, and the
  three rules. Each neighbour scan is written as a recursive sum or count over a
  prefix of the list.
- `tick.dfy` (module `Tick`): the loop body for one boid (`StepBoid`, built from
  one function per statement of the body), the list after k boids (`Processed`)
  and a whole frame (`Tick`).
- `manager.dfy` (module `Manager`): class `BoidsManager`. It holds the settings
  and an array of boids. Its loop methods `Cohesion`, `Seperation` and
  `Alignment` are proved to return the functions of module `Rules`. Its method
  `UpdateBoids` rewrites the array in place and is proved to leave `Tick` of the
  old contents.

A boid is excluded from its own scan by index (`k != j`). The source uses
reference inequality (`b != boidJ`). The two agree because every list entry is a
distinct boid created by `CreateBoids`.

## Model

| member | source | states |
|---|---|---|
| Field.CheckFieldPosition | Kdev3_Boids/Assets/Scripts/BoidsManager.cs:145-167 | A point already inside the field ([-x,x], [-y,y], [0,z]) is returned unchanged. If x, y ≥ 0.25 and z ≥ 0.5, the result always lies inside the field. |
| Field.WrapValues | Kdev3_Boids/Assets/Scripts/BoidsManager.cs:148-164 | Per axis: below the range gives the upper bound less 0.5; above it gives the lower bound plus 0.5 (so z > size.z gives 0.5); inside it the value is kept. |
| Field.WrapAxesIndependent | Kdev3_Boids/Assets/Scripts/BoidsManager.cs:145-167 | Each coordinate of the result depends only on the same coordinate of the input. |
| Field.WrapIdempotent | Kdev3_Boids/Assets/Scripts/BoidsManager.cs:145-167 | Wrapping twice gives the same point as wrapping once, for every field size. |
| Vectors.WithinIsDistanceBelow | Kdev3_Boids/Assets/Scripts/BoidsManager.cs:106 | The squared-distance test agrees with `Vector3.Distance(a, b) < d` for every non-negative root of the squared distance. A negative threshold admits nothing. |
| Rules.NeighbourCount | Kdev3_Boids/Assets/Scripts/BoidsManager.cs:74-88 | The counter never exceeds the number of other boids scanned: boid j never counts itself. |
| Rules.AllOthersCounted | Kdev3_Boids/Assets/Scripts/BoidsManager.cs:83-86 | Without `nearNeighboursOnly`, every other boid is counted, so the counter reaches n - 1 over n boids. |
| Rules.NoNeighboursIff | Kdev3_Boids/Assets/Scripts/BoidsManager.cs:76-90 | The counter is zero if and only if no scanned boid passes the filter. |
| Rules.EmptyScanSumsZero | Kdev3_Boids/Assets/Scripts/BoidsManager.cs:73-97 | While the counter is zero, the position sum and the velocity sum are still the zero vector. |
| Rules.CohesionAndAlignmentValues | Kdev3_Boids/Assets/Scripts/BoidsManager.cs:72-143 | With no qualifying neighbour, Cohesion and Alignment return zero. Otherwise Cohesion is (normalize(mean position)·cohesionSpeed - own position)/r1 and Alignment is (normalize(mean velocity)·alignmentSpeed - own velocity)/r3. |
| Rules.SeparationWithoutCloseBoids | Kdev3_Boids/Assets/Scripts/BoidsManager.cs:101-114 | Separation is the zero vector when no other boid is strictly closer than r2. |
| Rules.LoneBoidRulesAreZero | Kdev3_Boids/Assets/Scripts/BoidsManager.cs:72-143 | A single boid gets the zero vector from all three rules (from Cohesion whenever r1 ≠ 0 and from Alignment whenever r3 ≠ 0). |
| Rules.ScansIgnoreOwnVelocity | Kdev3_Boids/Assets/Scripts/BoidsManager.cs:76-88 | Replacing boid j's velocity changes none of the counts and sums computed for boid j. |
| Rules.OwnVelocityIgnored | Kdev3_Boids/Assets/Scripts/BoidsManager.cs:58-62 | Cohesion (for any r1 ≠ 0) and Separation of boid j do not depend on its own velocity, so resetting it first does not change them. |
| Rules.SeparationOfTwoBoids | Kdev3_Boids/Assets/Scripts/BoidsManager.cs:101-114 | Boids at (0,0,0) and (1,0,0) with r2 = 8: the first boid's Separation is (-1,0,0), the whole displacement with no normalisation. |
| Rules.CohesionOfThreeBoids | Kdev3_Boids/Assets/Scripts/BoidsManager.cs:72-98 | Boids at (0,0,0), (2,0,0) and (0,2,0), no filter, cohesionSpeed 1 and r1 1: the first boid's Cohesion is normalize((1,1,0)). |
| Tick.StepBoid | Kdev3_Boids/Assets/Scripts/BoidsManager.cs:57-68 | At iteration k only boid k changes. Its new position is the wrap of its old position plus its new velocity. |
| Tick.Processed | Kdev3_Boids/Assets/Scripts/BoidsManager.cs:57-68 | Processing a prefix of the list keeps the list's length. |
| Tick.StepBoidVelocity | Kdev3_Boids/Assets/Scripts/BoidsManager.cs:58-64 | The new velocity is the sum of the enabled rules only. Alignment is evaluated with boid k's velocity set to Cohesion + Separation (each only if enabled). |
| Tick.AlignmentSubtractsCurrentVelocity | Kdev3_Boids/Assets/Scripts/BoidsManager.cs:135-138 | Alignment subtracts the velocity boid k has at the call. Its neighbour count and velocity sum are those of the list before the velocity was set. |
| Tick.ProcessedOrder | Kdev3_Boids/Assets/Scripts/BoidsManager.cs:57-68 | After k iterations, boids before k hold the value their own iteration gave them and boids from k on are untouched. |
| Tick.IterationSees | Kdev3_Boids/Assets/Scripts/BoidsManager.cs:57-68 | Boid k's rules read the end-of-frame state of boids 0..k-1 and the old state of boids k+1..n-1. Boid k's final value is what its own iteration computes. |
| Tick.AllRulesOffFreezes | Kdev3_Boids/Assets/Scripts/BoidsManager.cs:56-69 | With all three toggles off, whatever r1 and r3 are, every velocity becomes zero and every position becomes its wrap. A boid inside the field stays where it is. |
| Tick.LoneBoidTick | Kdev3_Boids/Assets/Scripts/BoidsManager.cs:56-69 | A lone boid ends the frame with zero velocity and only its position wrapped, whatever the toggles (an enabled Cohesion or Alignment needs its divisor non-zero). |
| Manager.BoidsManager.constructor | Kdev3_Boids/Assets/Scripts/BoidsManager.cs:28 | The boid list holds the given boids in order, with the given settings. |
| Manager.BoidsManager.Cohesion | Kdev3_Boids/Assets/Scripts/BoidsManager.cs:72-98 | The loop over the array returns Rules.Cohesion of the array's contents. |
| Manager.BoidsManager.Seperation | Kdev3_Boids/Assets/Scripts/BoidsManager.cs:101-114 | The loop's `c - (b - boidJ)` accumulation returns Rules.Separation, the sum of the displacements from each too-close boid to boid j. |
| Manager.BoidsManager.Alignment | Kdev3_Boids/Assets/Scripts/BoidsManager.cs:117-143 | The loop over the array returns Rules.Alignment of the array's contents, including boid j's current velocity. |
| Manager.BoidsManager.UpdateBoids | Kdev3_Boids/Assets/Scripts/BoidsManager.cs:56-69 | After the in-place pass, the array holds Tick of its old contents. |

## Left out

- `Start`, `Update` and `CreateBoids` (lines 30-54) are Unity lifecycle hooks, prefab instantiation, `Random.Range` placement and object naming. The constructor takes the initial boid list in their place. `boidAmount` and `boidPrefab` are used only there.
- The `Boid` component is not part of this model. Only its `velocity` and its `transform.position` are read, and they form the `Boid` record.
- Floating point: vector components are `real`. There is no rounding, infinity or NaN.
- `Vector3.normalized` needs a square root. It is the function-valued setting `Config.normalize`, which the engine supplies, and nothing is assumed about it.
- `Vector3.Distance(a, b) < d` is modelled as squared distance < d², with a negative `d` admitting nothing (`Vectors.WithinIsDistanceBelow` shows the two agree).
- Manager.BoidsManager.UpdateBoids: requires r1 ≠ 0 when `useCohesion` is set and r3 ≠ 0 when `useAlignment` is set (`Config.EnabledDivisorsNonZero`). The code divides by them without checking, and only in an enabled rule that has found a neighbour; there a zero divisor gives infinities or NaN in floating point, which real arithmetic cannot represent. A disabled rule puts no condition on its divisor. The same holds for `Cohesion` (r1), `Alignment` (r3), `Tick.StepBoid`, `Tick.Processed` and `Tick.Tick`.
- Construction-time validation of the settings, and an error result for it, are not modelled: the code validates nothing. `r2` is only a distance threshold.
- Inspector attributes (`[Space]`), rendering, and the commented-out `print` calls.
- `CheckFieldPosition` keeps a coordinate exactly on a boundary (x = -size.x, say) unchanged, so the field is the closed box [-x,x]×[-y,y]×[0,z]. It is not half-open.
