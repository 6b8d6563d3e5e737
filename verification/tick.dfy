/** One tick of BoidsManager.UpdateBoids, as a function of the boid list. The
    loop walks the list in order and updates each boid in place, so boid k's rules
    see boids 0..k-1 as already updated in this tick and boids k+1.. as they were. */
module Tick {
  import opened Vectors
  import opened Field
  import opened Rules

  /** bs with boid k's velocity replaced by v. */
  function SetVelocity(bs: seq<Boid>, k: nat, v: Vec3): seq<Boid>
    requires k < |bs|
  {
    bs[k := bs[k].(velocity := v)]
  }

  /** Boid k's velocity increased by v. */
  function AddVelocity(bs: seq<Boid>, k: nat, v: Vec3): seq<Boid>
    requires k < |bs|
  {
    SetVelocity(bs, k, Add(bs[k].velocity, v))
  }

  /** When cohesion is enabled, boid k's velocity grows by its Cohesion. */
  function ApplyCohesion(c: Config, bs: seq<Boid>, k: nat): seq<Boid>
    requires k < |bs| && (c.useCohesion ==> c.r1 != 0.0)
  {
    if c.useCohesion then AddVelocity(bs, k, Cohesion(c, bs, k)) else bs
  }

  /** When separation is enabled, boid k's velocity grows by its Separation. */
  function ApplySeparation(c: Config, bs: seq<Boid>, k: nat): seq<Boid>
    requires k < |bs|
  {
    if c.useSeparation then AddVelocity(bs, k, Separation(c, bs, k)) else bs
  }

  /** When alignment is enabled, boid k's velocity grows by its Alignment. */
  function ApplyAlignment(c: Config, bs: seq<Boid>, k: nat): seq<Boid>
    requires k < |bs| && (c.useAlignment ==> c.r3 != 0.0)
  {
    if c.useAlignment then AddVelocity(bs, k, Alignment(c, bs, k)) else bs
  }

  /** Boid k moves by its velocity and is wrapped into the field. */
  function Move(c: Config, bs: seq<Boid>, k: nat): seq<Boid>
    requires k < |bs|
  {
    bs[k := bs[k].(position := CheckFieldPosition(c.fieldSize, Add(bs[k].position, bs[k].velocity)))]
  }

  /** The body of the foreach loop of UpdateBoids for boid k: reset its velocity,
      add each enabled rule in turn (each rule reading the list as it stands),
      then move the boid by its new velocity and wrap it into the field. */
  function StepBoid(c: Config, bs: seq<Boid>, k: nat): (r: seq<Boid>)
    requires k < |bs| && c.EnabledDivisorsNonZero()
    ensures |r| == |bs|
    ensures forall i :: 0 <= i < |bs| && i != k ==> r[i] == bs[i]
    ensures r[k].position == CheckFieldPosition(c.fieldSize, Add(bs[k].position, r[k].velocity))
  {
    Move(c, ApplyAlignment(c, ApplySeparation(c, ApplyCohesion(c, SetVelocity(bs, k, Zero), k), k), k), k)
  }

  /** The list after the loop has processed boids 0..k-1. */
  function Processed(c: Config, bs: seq<Boid>, k: nat): (r: seq<Boid>)
    requires k <= |bs| && c.EnabledDivisorsNonZero()
    ensures |r| == |bs|
  {
    if k == 0 then bs else StepBoid(c, Processed(c, bs, k - 1), k - 1)
  }

  /** UpdateBoids: every boid processed once, in list order. */
  function Tick(c: Config, bs: seq<Boid>): seq<Boid>
    requires c.EnabledDivisorsNonZero()
  {
    Processed(c, bs, |bs|)
  }

  /** The velocity boid k has when Alignment is called: Cohesion plus Separation,
      each counted only when enabled. */
  function PartialVelocity(c: Config, bs: seq<Boid>, k: nat): Vec3
    requires k < |bs| && c.EnabledDivisorsNonZero()
  {
    Add(if c.useCohesion then Cohesion(c, bs, k) else Zero,
        if c.useSeparation then Separation(c, bs, k) else Zero)
  }

  /** The new velocity of boid k is the sum of the enabled rules only, and
      Alignment is evaluated with boid k's velocity already set to the Cohesion and
      Separation contributions, not to its velocity of the previous tick. */
  lemma StepBoidVelocity(c: Config, bs: seq<Boid>, k: nat)
    requires k < |bs| && c.EnabledDivisorsNonZero()
    ensures var partial := PartialVelocity(c, bs, k);
      StepBoid(c, bs, k)[k].velocity ==
        Add(partial, if c.useAlignment then Alignment(c, SetVelocity(bs, k, partial), k) else Zero)
  {
    var coh := if c.useCohesion then Cohesion(c, bs, k) else Zero;
    var sep := if c.useSeparation then Separation(c, bs, k) else Zero;
    var partial := PartialVelocity(c, bs, k);
    var cohered := ApplyCohesion(c, SetVelocity(bs, k, Zero), k);
    assert cohered == SetVelocity(bs, k, coh) by {
      OwnVelocityIgnored(c, bs, k, Zero);
      AddZero(coh);
    }
    var separated := ApplySeparation(c, cohered, k);
    assert separated == SetVelocity(bs, k, partial) by {
      OwnVelocityIgnored(c, bs, k, coh);
      AddZero(coh);
    }
    var aligned := ApplyAlignment(c, separated, k);
    assert StepBoid(c, bs, k) == Move(c, aligned, k);
    assert aligned[k].velocity ==
      Add(partial, if c.useAlignment then Alignment(c, SetVelocity(bs, k, partial), k) else Zero) by {
      AddZero(partial);
    }
  }

  /** Alignment subtracts boid k's velocity as it stands when the call is made;
      everything else it reads is the same as in the list before the call. */
  lemma AlignmentSubtractsCurrentVelocity(c: Config, bs: seq<Boid>, k: nat, v: Vec3)
    requires k < |bs| && c.r3 != 0.0
    ensures var n := NeighbourCount(c, bs, k, |bs|);
      Alignment(c, SetVelocity(bs, k, v), k) ==
        if n == 0 then Zero
        else Div(Sub(Scale(c.normalize(Div(VelocitySum(c, bs, k, |bs|), n as real)), c.alignmentSpeed), v), c.r3)
  {
    ScansIgnoreOwnVelocity(c, bs, k, |bs|, v);
  }

  /** While the loop is at boid k, boids 0..k-1 already hold their values of the
      end of the tick and boids k.. still hold their values from before it. */
  lemma {:induction false} ProcessedOrder(c: Config, bs: seq<Boid>, k: nat, i: nat)
    requires k <= |bs| && i < |bs| && c.EnabledDivisorsNonZero()
    ensures i < k ==> Processed(c, bs, k)[i] == Processed(c, bs, i + 1)[i]
    ensures k <= i ==> Processed(c, bs, k)[i] == bs[i]
  {
    if k > 0 && i != k - 1 {
      ProcessedOrder(c, bs, k - 1, i);
    }
  }

  /** The rules of boid k read the already updated boids 0..k-1 and the old boids
      k+1..; only boid k changes at iteration k. */
  lemma IterationSees(c: Config, bs: seq<Boid>, k: nat)
    requires k < |bs| && c.EnabledDivisorsNonZero()
    ensures forall i :: 0 <= i < k ==> Processed(c, bs, k)[i] == Tick(c, bs)[i]
    ensures forall i :: k <= i < |bs| ==> Processed(c, bs, k)[i] == bs[i]
    ensures Tick(c, bs)[k] == StepBoid(c, Processed(c, bs, k), k)[k]
  {
    forall i | 0 <= i < |bs|
      ensures i < k ==> Processed(c, bs, k)[i] == Tick(c, bs)[i]
      ensures k <= i ==> Processed(c, bs, k)[i] == bs[i]
    {
      ProcessedOrder(c, bs, k, i);
      ProcessedOrder(c, bs, |bs|, i);
    }
    ProcessedOrder(c, bs, |bs|, k);
  }

  /** The configuration in which every rule is switched off. */
  predicate AllRulesOff(c: Config) {
    !c.useCohesion && !c.useSeparation && !c.useAlignment
  }

  lemma {:induction false} AllRulesOffPrefix(c: Config, bs: seq<Boid>, k: nat)
    requires k <= |bs| && AllRulesOff(c)
    ensures forall i :: 0 <= i < k ==>
      Processed(c, bs, k)[i] == Boid(CheckFieldPosition(c.fieldSize, bs[i].position), Zero)
    ensures forall i :: k <= i < |bs| ==> Processed(c, bs, k)[i] == bs[i]
  {
    if k > 0 {
      AllRulesOffPrefix(c, bs, k - 1);
      var prev := Processed(c, bs, k - 1);
      assert Add(prev[k - 1].position, Zero) == bs[k - 1].position;
    }
  }

  /** With all three rules switched off, a tick sets every velocity to zero and
      moves every boid only by the wrap; a boid inside the field stays put. */
  lemma AllRulesOffFreezes(c: Config, bs: seq<Boid>)
    requires AllRulesOff(c)
    ensures |Tick(c, bs)| == |bs|
    ensures forall i :: 0 <= i < |bs| ==>
      Tick(c, bs)[i] == Boid(CheckFieldPosition(c.fieldSize, bs[i].position), Zero)
    ensures forall i :: 0 <= i < |bs| && InField(c.fieldSize, bs[i].position) ==>
      Tick(c, bs)[i] == Boid(bs[i].position, Zero)
  {
    AllRulesOffPrefix(c, bs, |bs|);
  }

  /** A lone boid ends a tick with zero velocity, its position only wrapped. */
  lemma LoneBoidTick(c: Config, b: Boid)
    requires c.EnabledDivisorsNonZero()
    ensures Tick(c, [b]) == [Boid(CheckFieldPosition(c.fieldSize, b.position), Zero)]
  {
    StepBoidVelocity(c, [b], 0);
    LoneBoidRulesAreZero(c, b);
    AddZero(Zero);
    assert PartialVelocity(c, [b], 0) == Zero;
    assert SetVelocity([b], 0, Zero) == [b.(velocity := Zero)];
    LoneBoidRulesAreZero(c, b.(velocity := Zero));
    var r := StepBoid(c, [b], 0);
    assert r[0].velocity == Zero;
    AddZero(b.position);
    assert Processed(c, [b], 0) == [b];
    assert Tick(c, [b]) == r;
  }
}
