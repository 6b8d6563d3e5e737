/** BoidsManager: the flock as an array of boids that UpdateBoids rewrites in
    place, one boid at a time, together with the inspector settings it reads. Each
    rule is a loop over the array that is proved to compute the function of the
    same name in module Rules; UpdateBoids is proved to compute Tick. */
module Manager {
  import opened Vectors
  import opened Field
  import opened Rules
  import opened Tick

  class BoidsManager {
    const config: Config
    const boids: array<Boid>

    /** The flock as CreateBoids leaves it: the given boids, in order. */
    constructor (config: Config, initial: seq<Boid>)
      ensures this.config == config
      ensures fresh(boids) && boids[..] == initial
    {
      this.config := config;
      boids := new Boid[|initial|](i requires 0 <= i < |initial| => initial[i]);
    }

    /** Rule 1 for boids[j]: the centre of its neighbours, normalised and scaled by
        cohesionSpeed, less its own position, over r1. */
    method Cohesion(j: nat) returns (pc: Vec3)
      requires j < boids.Length && config.r1 != 0.0
      ensures pc == Rules.Cohesion(config, boids[..], j)
    {
      pc := Zero;
      var counter: nat := 0;
      var i := 0;
      while i < boids.Length
        invariant i <= boids.Length
        invariant pc == PositionSum(config, boids[..], j, i)
        invariant counter == NeighbourCount(config, boids[..], j, i)
      {
        var b := boids[i];
        if i != j {
          if config.nearNeighboursOnly {
            if Within(b.position, boids[j].position, config.nearDistance) {
              pc := Add(pc, b.position);
              counter := counter + 1;
            }
          } else {
            pc := Add(pc, b.position);
            counter := counter + 1;
          }
        }
        i := i + 1;
      }
      EmptyScanSumsZero(config, boids[..], j, i);
      if counter > 0 {
        pc := Div(pc, counter as real);
        pc := Scale(config.normalize(pc), config.cohesionSpeed);
        pc := Div(Sub(pc, boids[j].position), config.r1);
      }
    }

    /** Rule 2 for boids[j]: pushed away from every other boid closer than r2. */
    method Seperation(j: nat) returns (c: Vec3)
      requires j < boids.Length
      ensures c == Rules.Separation(config, boids[..], j)
    {
      c := Zero;
      var i := 0;
      while i < boids.Length
        invariant i <= boids.Length
        invariant c == SeparationSum(config, boids[..], j, i)
      {
        var b := boids[i];
        if i != j {
          if Within(b.position, boids[j].position, config.r2) {
            c := Sub(c, Sub(b.position, boids[j].position));
          }
        }
        i := i + 1;
      }
    }

    /** Rule 3 for boids[j]: the mean velocity of its neighbours, normalised and
        scaled by alignmentSpeed, less its own current velocity, over r3. */
    method Alignment(j: nat) returns (pv: Vec3)
      requires j < boids.Length && config.r3 != 0.0
      ensures pv == Rules.Alignment(config, boids[..], j)
    {
      pv := Zero;
      var counter: nat := 0;
      var i := 0;
      while i < boids.Length
        invariant i <= boids.Length
        invariant pv == VelocitySum(config, boids[..], j, i)
        invariant counter == NeighbourCount(config, boids[..], j, i)
      {
        var b := boids[i];
        if i != j {
          if config.nearNeighboursOnly {
            if Within(b.position, boids[j].position, config.nearDistance) {
              pv := Add(pv, b.velocity);
              counter := counter + 1;
            }
          } else {
            pv := Add(pv, b.velocity);
            counter := counter + 1;
          }
        }
        i := i + 1;
      }
      EmptyScanSumsZero(config, boids[..], j, i);
      if counter > 0 {
        pv := Div(pv, counter as real);
        pv := Scale(config.normalize(pv), config.alignmentSpeed);
        pv := Div(Sub(pv, boids[j].velocity), config.r3);
      }
    }

    /** One tick: every boid in list order gets the sum of the enabled rules as
        its velocity and moves by it, wrapped into the field. */
    method UpdateBoids()
      requires config.EnabledDivisorsNonZero()
      modifies boids
      ensures boids[..] == Tick.Tick(config, old(boids[..]))
    {
      var k := 0;
      while k < boids.Length
        invariant k <= boids.Length
        invariant boids[..] == Processed(config, old(boids[..]), k)
      {
        ghost var before := boids[..];
        boids[k] := boids[k].(velocity := Zero);
        assert boids[..] == SetVelocity(before, k, Zero);
        ghost var reset := boids[..];
        if config.useCohesion {
          var v := Cohesion(k);
          boids[k] := boids[k].(velocity := Add(boids[k].velocity, v));
        }
        assert boids[..] == ApplyCohesion(config, reset, k);
        ghost var cohered := boids[..];
        if config.useSeparation {
          var v := Seperation(k);
          boids[k] := boids[k].(velocity := Add(boids[k].velocity, v));
        }
        assert boids[..] == ApplySeparation(config, cohered, k);
        ghost var separated := boids[..];
        if config.useAlignment {
          var v := Alignment(k);
          boids[k] := boids[k].(velocity := Add(boids[k].velocity, v));
        }
        assert boids[..] == ApplyAlignment(config, separated, k);
        var pos := Add(boids[k].position, boids[k].velocity);
        boids[k] := boids[k].(position := CheckFieldPosition(config.fieldSize, pos));
        assert boids[..] == StepBoid(config, before, k);
        k := k + 1;
      }
    }
  }
}
