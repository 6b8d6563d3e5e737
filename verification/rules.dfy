/** The three steering rules of BoidsManager: Cohesion, Seperation and Alignment.
    Each scans the other boids of the list, optionally filtered by distance, and
    accumulates a sum and a count. Here each scan is a function of a prefix of the
    boid list, so that a loop over the list can be stated against it. */
module Rules {
  import opened Vectors

  /** A boid as the rules see it: its transform's position and its velocity. */
  datatype Boid = Boid(position: Vec3, velocity: Vec3)

  /** The inspector settings of BoidsManager that the core reads. `normalize` is
      Unity's Vector3.normalized, which the engine supplies. */
  datatype Config = Config(
    fieldSize: Vec3,
    useCohesion: bool,
    useSeparation: bool,
    useAlignment: bool,
    nearNeighboursOnly: bool,
    nearDistance: real,
    r1: real,
    r2: real,
    r3: real,
    cohesionSpeed: real,
    alignmentSpeed: real,
    normalize: Vec3 -> Vec3)
  {
    /** r1 divides the cohesion correction and r3 the alignment correction; each
        is a divisor only while its rule is enabled. */
    predicate EnabledDivisorsNonZero() {
      (useCohesion ==> r1 != 0.0) && (useAlignment ==> r3 != 0.0)
    }
  }

  /** Boid k takes part in the cohesion and alignment of boid j: it is another boid
      and, when only near neighbours count, it is closer than nearDistance. */
  predicate IsNeighbour(c: Config, bs: seq<Boid>, j: nat, k: nat)
    requires j < |bs| && k < |bs|
  {
    k != j && (!c.nearNeighboursOnly || Within(bs[k].position, bs[j].position, c.nearDistance))
  }

  /** Boid k pushes boid j away: it is another boid closer than r2. */
  predicate IsTooClose(c: Config, bs: seq<Boid>, j: nat, k: nat)
    requires j < |bs| && k < |bs|
  {
    k != j && Within(bs[k].position, bs[j].position, c.r2)
  }

  /** The number of neighbours of boid j among bs[..n]; boid j itself never counts. */
  function NeighbourCount(c: Config, bs: seq<Boid>, j: nat, n: nat): (r: nat)
    requires j < |bs| && n <= |bs|
    ensures r <= if j < n then n - 1 else n
  {
    if n == 0 then 0
    else NeighbourCount(c, bs, j, n - 1) + (if IsNeighbour(c, bs, j, n - 1) then 1 else 0)
  }

  /** The sum of the positions of the neighbours of boid j among bs[..n]. */
  function PositionSum(c: Config, bs: seq<Boid>, j: nat, n: nat): Vec3
    requires j < |bs| && n <= |bs|
  {
    if n == 0 then Zero
    else if IsNeighbour(c, bs, j, n - 1) then Add(PositionSum(c, bs, j, n - 1), bs[n - 1].position)
    else PositionSum(c, bs, j, n - 1)
  }

  /** The sum of the velocities of the neighbours of boid j among bs[..n]. */
  function VelocitySum(c: Config, bs: seq<Boid>, j: nat, n: nat): Vec3
    requires j < |bs| && n <= |bs|
  {
    if n == 0 then Zero
    else if IsNeighbour(c, bs, j, n - 1) then Add(VelocitySum(c, bs, j, n - 1), bs[n - 1].velocity)
    else VelocitySum(c, bs, j, n - 1)
  }

  /** The sum, over the boids among bs[..n] that are too close to boid j, of the
      displacement from that boid to boid j. */
  function SeparationSum(c: Config, bs: seq<Boid>, j: nat, n: nat): Vec3
    requires j < |bs| && n <= |bs|
  {
    if n == 0 then Zero
    else if IsTooClose(c, bs, j, n - 1)
    then Add(SeparationSum(c, bs, j, n - 1), Sub(bs[j].position, bs[n - 1].position))
    else SeparationSum(c, bs, j, n - 1)
  }

  /** Rule 1: fly towards the centre of mass of the neighbouring boids. */
  function Cohesion(c: Config, bs: seq<Boid>, j: nat): Vec3
    requires j < |bs| && c.r1 != 0.0
  {
    var counter := NeighbourCount(c, bs, j, |bs|);
    if counter == 0 then Zero
    else
      var centre := Div(PositionSum(c, bs, j, |bs|), counter as real);
      Div(Sub(Scale(c.normalize(centre), c.cohesionSpeed), bs[j].position), c.r1)
  }

  /** Rule 2: keep a small distance from the other boids. */
  function Separation(c: Config, bs: seq<Boid>, j: nat): Vec3
    requires j < |bs|
  {
    SeparationSum(c, bs, j, |bs|)
  }

  /** Rule 3: match velocity with the neighbouring boids. */
  function Alignment(c: Config, bs: seq<Boid>, j: nat): Vec3
    requires j < |bs| && c.r3 != 0.0
  {
    var counter := NeighbourCount(c, bs, j, |bs|);
    if counter == 0 then Zero
    else
      var mean := Div(VelocitySum(c, bs, j, |bs|), counter as real);
      Div(Sub(Scale(c.normalize(mean), c.alignmentSpeed), bs[j].velocity), c.r3)
  }

  /** Without the distance filter every other boid is a neighbour, so the counter
      of Cohesion and Alignment reaches n - 1 over a list of n boids. */
  lemma {:induction false} AllOthersCounted(c: Config, bs: seq<Boid>, j: nat, n: nat)
    requires j < |bs| && n <= |bs|
    requires !c.nearNeighboursOnly
    ensures NeighbourCount(c, bs, j, n) == if j < n then n - 1 else n
  {
    if n > 0 {
      AllOthersCounted(c, bs, j, n - 1);
    }
  }

  /** The counter stays zero exactly when no boid of the prefix is a neighbour. */
  lemma {:induction false} NoNeighboursIff(c: Config, bs: seq<Boid>, j: nat, n: nat)
    requires j < |bs| && n <= |bs|
    ensures NeighbourCount(c, bs, j, n) == 0 <==> forall k :: 0 <= k < n ==> !IsNeighbour(c, bs, j, k)
  {
    if n > 0 {
      NoNeighboursIff(c, bs, j, n - 1);
    }
  }

  /** While the counter is zero, the position and velocity sums are still the
      zero vector they started from. */
  lemma {:induction false} EmptyScanSumsZero(c: Config, bs: seq<Boid>, j: nat, n: nat)
    requires j < |bs| && n <= |bs|
    ensures NeighbourCount(c, bs, j, n) == 0 ==> PositionSum(c, bs, j, n) == Zero && VelocitySum(c, bs, j, n) == Zero
  {
    if n > 0 {
      EmptyScanSumsZero(c, bs, j, n - 1);
    }
  }

  /** Cohesion and Alignment return the zero vector when no other boid passes the
      filter, and otherwise steer by the normalised average of the neighbours'
      positions (respectively velocities), less boid j's own, over r1 (r3). */
  lemma CohesionAndAlignmentValues(c: Config, bs: seq<Boid>, j: nat)
    requires j < |bs| && c.r1 != 0.0 && c.r3 != 0.0
    ensures (forall k :: 0 <= k < |bs| ==> !IsNeighbour(c, bs, j, k)) ==>
      Cohesion(c, bs, j) == Zero && Alignment(c, bs, j) == Zero
    ensures (exists k :: 0 <= k < |bs| && IsNeighbour(c, bs, j, k)) ==>
      var n := NeighbourCount(c, bs, j, |bs|) as real;
      && n > 0.0
      && Cohesion(c, bs, j) ==
         Div(Sub(Scale(c.normalize(Div(PositionSum(c, bs, j, |bs|), n)), c.cohesionSpeed), bs[j].position), c.r1)
      && Alignment(c, bs, j) ==
         Div(Sub(Scale(c.normalize(Div(VelocitySum(c, bs, j, |bs|), n)), c.alignmentSpeed), bs[j].velocity), c.r3)
  {
    NoNeighboursIff(c, bs, j, |bs|);
  }

  /** Separation is the zero vector when no other boid is closer than r2. */
  lemma {:induction false} SeparationWithoutCloseBoids(c: Config, bs: seq<Boid>, j: nat, n: nat)
    requires j < |bs| && n <= |bs|
    requires forall k :: 0 <= k < n ==> !IsTooClose(c, bs, j, k)
    ensures SeparationSum(c, bs, j, n) == Zero
  {
    if n > 0 {
      SeparationWithoutCloseBoids(c, bs, j, n - 1);
    }
  }

  /** A lone boid has no neighbour: each of the three rules, wherever its divisor
      lets it be evaluated, returns the zero vector. */
  lemma LoneBoidRulesAreZero(c: Config, b: Boid)
    ensures c.r1 != 0.0 ==> Cohesion(c, [b], 0) == Zero
    ensures Separation(c, [b], 0) == Zero
    ensures c.r3 != 0.0 ==> Alignment(c, [b], 0) == Zero
  {
    NoNeighboursIff(c, [b], 0, 1);
    SeparationWithoutCloseBoids(c, [b], 0, 1);
  }

  /** The scans read boid j's position but never its velocity. */
  lemma {:induction false} ScansIgnoreOwnVelocity(c: Config, bs: seq<Boid>, j: nat, n: nat, v: Vec3)
    requires j < |bs| && n <= |bs|
    ensures var bs' := bs[j := bs[j].(velocity := v)];
      && NeighbourCount(c, bs', j, n) == NeighbourCount(c, bs, j, n)
      && PositionSum(c, bs', j, n) == PositionSum(c, bs, j, n)
      && VelocitySum(c, bs', j, n) == VelocitySum(c, bs, j, n)
      && SeparationSum(c, bs', j, n) == SeparationSum(c, bs, j, n)
  {
    if n > 0 {
      ScansIgnoreOwnVelocity(c, bs, j, n - 1, v);
    }
  }

  /** Cohesion and Separation do not depend on boid j's own velocity. */
  lemma OwnVelocityIgnored(c: Config, bs: seq<Boid>, j: nat, v: Vec3)
    requires j < |bs|
    ensures c.r1 != 0.0 ==> Cohesion(c, bs[j := bs[j].(velocity := v)], j) == Cohesion(c, bs, j)
    ensures Separation(c, bs[j := bs[j].(velocity := v)], j) == Separation(c, bs, j)
  {
    ScansIgnoreOwnVelocity(c, bs, j, |bs|, v);
  }

  /** Arithmetic steps for the two scenario lemmas below (SeparationOfTwoBoids and
      CohesionOfThreeBoids), kept out of their unfolding so that each proof stays
      small. These model nothing of BoidsManager on their own. */
  lemma UnitApartWithinEight(a: Vec3, b: Vec3, d: real)
    requires a == Vec3(0.0, 0.0, 0.0) && b == Vec3(1.0, 0.0, 0.0) && d == 8.0
    ensures Within(b, a, d)
  {
    SquareOfEight(d);
    UnitDistance(a, b);
  }

  lemma SquareOfEight(d: real)
    requires d == 8.0
    ensures Square(d) == 64.0
  {
  }

  lemma UnitDistance(a: Vec3, b: Vec3)
    requires a == Vec3(0.0, 0.0, 0.0) && b == Vec3(1.0, 0.0, 0.0)
    ensures DistSq(b, a) == 1.0
  {
  }

  lemma UnitDisplacement(a: Vec3, b: Vec3)
    requires a == Vec3(0.0, 0.0, 0.0) && b == Vec3(1.0, 0.0, 0.0)
    ensures Add(Zero, Sub(a, b)) == Vec3(-1.0, 0.0, 0.0)
  {
  }

  lemma SeparationOfOneCloseBoid(c: Config, bs: seq<Boid>)
    requires |bs| == 2 && Within(bs[1].position, bs[0].position, c.r2)
    ensures Separation(c, bs, 0) == Add(Zero, Sub(bs[0].position, bs[1].position))
  {
    assert IsTooClose(c, bs, 0, 1);
    assert SeparationSum(c, bs, 0, 1) == Zero by {
      assert !IsTooClose(c, bs, 0, 0);
    }
  }

  lemma PositionSumOfThree(c: Config, bs: seq<Boid>)
    requires !c.nearNeighboursOnly
    requires |bs| == 3 && bs[0].position == Vec3(0.0, 0.0, 0.0)
    requires bs[1].position == Vec3(2.0, 0.0, 0.0) && bs[2].position == Vec3(0.0, 2.0, 0.0)
    ensures PositionSum(c, bs, 0, 3) == Vec3(2.0, 2.0, 0.0)
  {
    assert !IsNeighbour(c, bs, 0, 0) && IsNeighbour(c, bs, 0, 1) && IsNeighbour(c, bs, 0, 2);
    assert PositionSum(c, bs, 0, 1) == PositionSum(c, bs, 0, 0) == Zero;
    assert PositionSum(c, bs, 0, 2) == Add(Zero, bs[1].position);
    assert PositionSum(c, bs, 0, 3) == Add(Add(Zero, bs[1].position), bs[2].position);
  }

  lemma CentreOfTwoNeighbours(s: Vec3, n: nat)
    requires s == Vec3(2.0, 2.0, 0.0) && n == 2
    ensures Div(s, n as real) == Vec3(1.0, 1.0, 0.0)
  {
  }

  lemma UnitCorrection(n: Vec3, speed: real, p: Vec3, r1: real)
    requires speed == 1.0 && p == Vec3(0.0, 0.0, 0.0) && r1 == 1.0
    ensures Div(Sub(Scale(n, speed), p), r1) == n
  {
  }

  /** Two boids at (0,0,0) and (1,0,0), one unit apart, with r2 = 8: the first is
      pushed by the whole displacement, one unit along -x. */
  lemma SeparationOfTwoBoids(c: Config, bs: seq<Boid>)
    requires c.r2 == 8.0
    requires |bs| == 2 && bs[0].position == Vec3(0.0, 0.0, 0.0) && bs[1].position == Vec3(1.0, 0.0, 0.0)
    ensures Separation(c, bs, 0) == Vec3(-1.0, 0.0, 0.0)
  {
    UnitApartWithinEight(bs[0].position, bs[1].position, c.r2);
    SeparationOfOneCloseBoid(c, bs);
    UnitDisplacement(bs[0].position, bs[1].position);
  }

  /** Three boids at (0,0,0), (2,0,0) and (0,2,0), no distance filter,
      cohesionSpeed 1 and r1 1: the first boid's neighbours average (1,1,0), and
      its cohesion is that point normalised. */
  lemma CohesionOfThreeBoids(c: Config, bs: seq<Boid>)
    requires !c.nearNeighboursOnly && c.cohesionSpeed == 1.0 && c.r1 == 1.0
    requires |bs| == 3 && bs[0].position == Vec3(0.0, 0.0, 0.0)
    requires bs[1].position == Vec3(2.0, 0.0, 0.0) && bs[2].position == Vec3(0.0, 2.0, 0.0)
    ensures Cohesion(c, bs, 0) == c.normalize(Vec3(1.0, 1.0, 0.0))
  {
    AllOthersCounted(c, bs, 0, 3);
    PositionSumOfThree(c, bs);
    CentreOfTwoNeighbours(PositionSum(c, bs, 0, 3), NeighbourCount(c, bs, 0, 3));
    UnitCorrection(c.normalize(Vec3(1.0, 1.0, 0.0)), c.cohesionSpeed, bs[0].position, c.r1);
  }
}
