/**
 * The arithmetic a pulley performs: the gear-ratio integration of the
 * rotation it receives from its driver, and the belt "rocking" oscillator
 * advanced while the belts are drawn.
 */
module PulleyRules {
  import opened Numeric

  type NonZeroReal = r: real | r != 0.0 witness 1.0

  /** The driver's rotation expressed in this pulley's turns: the gear law. */
  function Scaled(rotation: real, driverRadius: real, ownRadius: NonZeroReal): real
  {
    rotation * driverRadius / ownRadius
  }

  /** A driven pulley's accumulated rotation and the last scaled value it received. */
  datatype GearState = GearState(rotation: real, previous: real)

  const Rest := GearState(0.0, 0.0)

  /**
   * One received value. A magnitude smaller than the previous one is taken
   * as a wrap of the driver and the value itself is the increment; otherwise
   * the increment is the difference to the previous value.
   */
  function GearStep(g: GearState, scaled: real): GearState
  {
    if Abs(scaled) < Abs(g.previous) then GearState(g.rotation + scaled, scaled)
    else GearState(g.rotation + (scaled - g.previous), scaled)
  }

  /** The state after receiving the values in order. */
  function Integrate(g: GearState, inputs: seq<real>): GearState
  {
    if inputs == [] then g else GearStep(Integrate(g, inputs[..|inputs| - 1]), inputs[|inputs| - 1])
  }

  /** No received magnitude is smaller than the one before it (the first is compared with start). */
  ghost predicate NoWrap(start: real, inputs: seq<real>)
  {
    (|inputs| > 0 ==> Abs(start) <= Abs(inputs[0]))
    && forall i :: 0 < i < |inputs| ==> Abs(inputs[i - 1]) <= Abs(inputs[i])
  }

  lemma {:induction false} NoWrapPrefix(start: real, inputs: seq<real>, n: nat)
    requires n <= |inputs| && NoWrap(start, inputs)
    ensures NoWrap(start, inputs[..n])
  {
  }

  /**
   * Without a wrap the increments telescope: the rotation grows by the last
   * value minus the starting previous value, and previous is the last value.
   */
  lemma {:induction false} Telescoping(g: GearState, inputs: seq<real>)
    requires inputs != [] && NoWrap(g.previous, inputs)
    ensures Integrate(g, inputs) == GearState(g.rotation + inputs[|inputs| - 1] - g.previous, inputs[|inputs| - 1])
  {
    var n := |inputs|;
    if n > 1 {
      var front := inputs[..n - 1];
      NoWrapPrefix(g.previous, inputs, n - 1);
      Telescoping(g, front);
      assert front[|front| - 1] == inputs[n - 2];
      assert Abs(inputs[n - 2]) <= Abs(inputs[n - 1]);
    } else {
      assert inputs[..0] == [];
    }
  }

  /** From rest, a run of received values without a wrap leaves the pulley at the last value. */
  lemma GearLawFromRest(inputs: seq<real>)
    requires inputs != [] && NoWrap(0.0, inputs)
    ensures Integrate(Rest, inputs).rotation == inputs[|inputs| - 1]
  {
    Telescoping(Rest, inputs);
  }

  /** The driver rotations a driven pulley receives, each scaled by the radius ratio. */
  function ScaledAll(rotations: seq<real>, driverRadius: real, ownRadius: NonZeroReal): (r: seq<real>)
    ensures |r| == |rotations|
    ensures forall i :: 0 <= i < |rotations| ==> r[i] == Scaled(rotations[i], driverRadius, ownRadius)
  {
    if rotations == [] then []
    else ScaledAll(rotations[..|rotations| - 1], driverRadius, ownRadius) + [Scaled(rotations[|rotations| - 1], driverRadius, ownRadius)]
  }

  lemma AbsScaled(x: real, driverRadius: real, ownRadius: NonZeroReal)
    ensures Abs(Scaled(x, driverRadius, ownRadius)) == Abs(x) * Abs(driverRadius / ownRadius)
  {
    assert Scaled(x, driverRadius, ownRadius) == x * (driverRadius / ownRadius);
  }

  /**
   * The gear law over driver rotations: a driven pulley starting at rest that
   * receives driver rotations of non-decreasing magnitude ends at the last
   * driver rotation times driverRadius / ownRadius.
   */
  lemma GearLaw(rotations: seq<real>, driverRadius: real, ownRadius: NonZeroReal)
    requires rotations != [] && NoWrap(0.0, rotations)
    ensures Integrate(Rest, ScaledAll(rotations, driverRadius, ownRadius)).rotation
            == rotations[|rotations| - 1] * driverRadius / ownRadius
  {
    var s := ScaledAll(rotations, driverRadius, ownRadius);
    forall i | 0 < i < |s|
      ensures Abs(s[i - 1]) <= Abs(s[i])
    {
      ScaledMonotone(rotations[i - 1], rotations[i], driverRadius, ownRadius);
    }
    ScaledMonotone(0.0, rotations[0], driverRadius, ownRadius);
    assert s[0] == Scaled(rotations[0], driverRadius, ownRadius);
    assert s[|s| - 1] == Scaled(rotations[|rotations| - 1], driverRadius, ownRadius);
    GearLawFromRest(s);
  }

  lemma MulMonotone(a: real, b: real, c: real)
    requires a <= b && c >= 0.0
    ensures a * c <= b * c
  {
  }

  /** Scaling by the radius ratio preserves the order of magnitudes. */
  lemma ScaledMonotone(x: real, y: real, driverRadius: real, ownRadius: NonZeroReal)
    requires Abs(x) <= Abs(y)
    ensures Abs(Scaled(x, driverRadius, ownRadius)) <= Abs(Scaled(y, driverRadius, ownRadius))
  {
    var c := Abs(driverRadius / ownRadius);
    AbsScaled(x, driverRadius, ownRadius);
    AbsScaled(y, driverRadius, ownRadius);
    MulMonotone(Abs(x), Abs(y), c);
    calc {
      Abs(Scaled(x, driverRadius, ownRadius));
    ==
      Abs(x) * c;
    <=
      Abs(y) * c;
    ==
      Abs(Scaled(y, driverRadius, ownRadius));
    }
  }

  /**
   * A driver turning forward never turns the driven pulley back: with a
   * non-negative previous and received value the rotation does not
   * decrease, whether or not the step is taken as a wrap.
   */
  lemma ForwardNeverBack(g: GearState, scaled: real)
    requires 0.0 <= g.previous && 0.0 <= scaled
    ensures GearStep(g, scaled).rotation >= g.rotation
    ensures GearStep(g, scaled).previous == scaled
  {
  }

  /**
   * Receiving the same value again changes nothing: the second step sees
   * no wrap and adds zero. So a pulley reached twice by one propagation
   * ends as if reached once.
   */
  lemma GearStepTwice(g: GearState, scaled: real)
    ensures GearStep(GearStep(g, scaled), scaled) == GearStep(g, scaled)
  {
  }

  // The belt oscillator advanced once per belt while a pulley turns.

  const BeltRockMin: real := 2.0
  const BeltRockMax: real := 2.05
  const BeltRockIncrement: real := 0.015
  const BeltRockDecrement: real := 0.02

  /** Curve divisor of the belts and whether it is currently growing. */
  datatype Rocking = Rocking(amount: real, increasing: bool)

  const InitialRocking := Rocking(2.0, true)

  /** The two successive tests of one belt. */
  function RockStep(r: Rocking): Rocking
  {
    var r1 := if r.amount < BeltRockMax && r.increasing then Rocking(r.amount + BeltRockIncrement, r.increasing)
              else Rocking(r.amount, false);
    if r1.amount > BeltRockMin && !r1.increasing then Rocking(r1.amount - BeltRockDecrement, r1.increasing)
    else Rocking(r1.amount, true)
  }

  function RockSteps(r: Rocking, n: nat): Rocking
  {
    if n == 0 then r else RockStep(RockSteps(r, n - 1))
  }

  /** The open band the divisor lives in; it excludes 0, so the curve divisions are defined. */
  ghost predicate InBand(r: Rocking)
  {
    BeltRockMin - BeltRockDecrement < r.amount < BeltRockMax + BeltRockIncrement
  }

  lemma RockStepInBand(r: Rocking)
    requires InBand(r)
    ensures InBand(RockStep(r))
  {
  }

  /** However many belts are drawn, the divisor stays in the band and is positive. */
  lemma {:induction false} RockStepsInBand(r: Rocking, n: nat)
    requires InBand(r)
    ensures InBand(RockSteps(r, n)) && RockSteps(r, n).amount > 0.0
  {
    if n > 0 {
      RockStepsInBand(r, n - 1);
      RockStepInBand(RockSteps(r, n - 1));
    }
  }

  /** Drawing a belts and then b belts advances the oscillator as drawing a + b belts. */
  lemma {:induction false} RockStepsAdd(r: Rocking, a: nat, b: nat)
    ensures RockSteps(RockSteps(r, a), b) == RockSteps(r, a + b)
  {
    if b > 0 {
      RockStepsAdd(r, a, b - 1);
    }
  }
}
