/**
 The per-step settings of the rigid-body physics engine: the `IntegrationParameters`
 record, its two ways of being built (`new` and `default`), the time-step accessors
 `dt`/`inv_dt`, and the two time-step setters `set_dt`/`set_inv_dt`.

 The engine's `f32` scalars are modelled as exact `real`s and its `usize` counts as
 `nat`s, so reciprocals are exact, and neither rounding nor infinities, NaN or
 overflow of `1/x` are modelled.
 */
module Dynamics {

  /** The value held by an `IntegrationParameters` record: what a clone of it copies.
      The fields are in the record's declaration order. */
  datatype Params = Params(
    dt: real,
    returnAfterCcdSubstep: bool,
    erp: real,
    jointErp: real,
    warmstartCoeff: real,
    restitutionVelocityThreshold: real,
    allowedLinearError: real,
    predictionDistance: real,
    allowedAngularError: real,
    maxLinearCorrection: real,
    maxAngularCorrection: real,
    maxStabilizationMultiplier: real,
    maxVelocityIterations: nat,
    maxPositionIterations: nat,
    minIslandSize: nat,
    maxCcdPositionIterations: nat,
    maxCcdSubsteps: nat,
    multipleCcdSubstepSensorEventsEnabled: bool,
    ccdOnPenetrationEnabled: bool
  )

  /** The island size that `new` imposes whatever its arguments, and that `default` uses. */
  const PinnedMinIslandSize: nat := 128

  /** The ranges the record's documentation gives: a non-negative step length (the one
      `set_dt` enforces) and the two error reduction parameters and the warm-start
      coefficient in [0, 1] (which no operation enforces). */
  predicate InDocumentedRanges(p: Params) {
    && p.dt >= 0.0
    && 0.0 <= p.erp <= 1.0
    && 0.0 <= p.jointErp <= 1.0
    && 0.0 <= p.warmstartCoeff <= 1.0
  }

  /** `new`: every field from its argument, except `minIslandSize`, which is pinned.
      The arguments come in the constructor's order, which differs from the fields'
      (`predictionDistance` comes after the two corrections, the booleans last). */
  function New(
    dt: real,
    erp: real,
    jointErp: real,
    warmstartCoeff: real,
    restitutionVelocityThreshold: real,
    allowedLinearError: real,
    allowedAngularError: real,
    maxLinearCorrection: real,
    maxAngularCorrection: real,
    predictionDistance: real,
    maxStabilizationMultiplier: real,
    maxVelocityIterations: nat,
    maxPositionIterations: nat,
    maxCcdPositionIterations: nat,
    maxCcdSubsteps: nat,
    returnAfterCcdSubstep: bool,
    multipleCcdSubstepSensorEventsEnabled: bool,
    ccdOnPenetrationEnabled: bool
  ): (p: Params)
    ensures p.dt == dt && p.erp == erp && p.jointErp == jointErp
    ensures p.warmstartCoeff == warmstartCoeff
    ensures p.restitutionVelocityThreshold == restitutionVelocityThreshold
    ensures p.allowedLinearError == allowedLinearError && p.allowedAngularError == allowedAngularError
    ensures p.maxLinearCorrection == maxLinearCorrection && p.maxAngularCorrection == maxAngularCorrection
    ensures p.predictionDistance == predictionDistance
    ensures p.maxStabilizationMultiplier == maxStabilizationMultiplier
    ensures p.maxVelocityIterations == maxVelocityIterations
    ensures p.maxPositionIterations == maxPositionIterations
    ensures p.maxCcdPositionIterations == maxCcdPositionIterations
    ensures p.maxCcdSubsteps == maxCcdSubsteps
    ensures p.returnAfterCcdSubstep == returnAfterCcdSubstep
    ensures p.multipleCcdSubstepSensorEventsEnabled == multipleCcdSubstepSensorEventsEnabled
    ensures p.ccdOnPenetrationEnabled == ccdOnPenetrationEnabled
    ensures p.minIslandSize == PinnedMinIslandSize
  {
    Params(
      dt := dt,
      returnAfterCcdSubstep := returnAfterCcdSubstep,
      erp := erp,
      jointErp := jointErp,
      warmstartCoeff := warmstartCoeff,
      restitutionVelocityThreshold := restitutionVelocityThreshold,
      allowedLinearError := allowedLinearError,
      predictionDistance := predictionDistance,
      allowedAngularError := allowedAngularError,
      maxLinearCorrection := maxLinearCorrection,
      maxAngularCorrection := maxAngularCorrection,
      maxStabilizationMultiplier := maxStabilizationMultiplier,
      maxVelocityIterations := maxVelocityIterations,
      maxPositionIterations := maxPositionIterations,
      minIslandSize := PinnedMinIslandSize,
      maxCcdPositionIterations := maxCcdPositionIterations,
      maxCcdSubsteps := maxCcdSubsteps,
      multipleCcdSubstepSensorEventsEnabled := multipleCcdSubstepSensorEventsEnabled,
      ccdOnPenetrationEnabled := ccdOnPenetrationEnabled
    )
  }

  /** `new` builds exactly the records whose island size is the pinned one: fed the
      fields of such a record it gives that record back, and it never gives back a
      record with any other island size. */
  lemma NewBuildsExactlyPinnedRecords(p: Params)
    ensures New(p.dt, p.erp, p.jointErp, p.warmstartCoeff, p.restitutionVelocityThreshold,
                p.allowedLinearError, p.allowedAngularError, p.maxLinearCorrection,
                p.maxAngularCorrection, p.predictionDistance, p.maxStabilizationMultiplier,
                p.maxVelocityIterations, p.maxPositionIterations, p.maxCcdPositionIterations,
                p.maxCcdSubsteps, p.returnAfterCcdSubstep, p.multipleCcdSubstepSensorEventsEnabled,
                p.ccdOnPenetrationEnabled) == p
            <==> p.minIslandSize == PinnedMinIslandSize
  {
  }

  /** `default`: the documented default of every field. */
  function DefaultParams(): (p: Params)
    ensures p.dt == 1.0 / 60.0
    ensures p.erp == 0.2 && p.jointErp == 0.2
    ensures p.warmstartCoeff == 1.0 && p.restitutionVelocityThreshold == 1.0
    ensures p.allowedLinearError == 0.005 && p.predictionDistance == 0.002
    ensures p.allowedAngularError == 0.001
    ensures p.maxLinearCorrection == 0.2 && p.maxAngularCorrection == 0.2
    ensures p.maxStabilizationMultiplier == 0.2
    ensures p.maxVelocityIterations == 4 && p.maxPositionIterations == 1
    ensures p.minIslandSize == PinnedMinIslandSize
    ensures p.maxCcdPositionIterations == 10 && p.maxCcdSubsteps == 1
    ensures !p.returnAfterCcdSubstep && !p.multipleCcdSubstepSensorEventsEnabled
    ensures !p.ccdOnPenetrationEnabled
    // consequences: sixty steps per second, and the documented ranges hold
    ensures GuardedInverse(p.dt) == 60.0
    ensures InDocumentedRanges(p)
  {
    Params(
      dt := 1.0 / 60.0,
      returnAfterCcdSubstep := false,
      erp := 0.2,
      jointErp := 0.2,
      warmstartCoeff := 1.0,
      restitutionVelocityThreshold := 1.0,
      allowedLinearError := 0.005,
      predictionDistance := 0.002,
      allowedAngularError := 0.001,
      maxLinearCorrection := 0.2,
      maxAngularCorrection := 0.2,
      maxStabilizationMultiplier := 0.2,
      maxVelocityIterations := 4,
      maxPositionIterations := 1,
      minIslandSize := 128,
      maxCcdPositionIterations := 10,
      maxCcdSubsteps := 1,
      multipleCcdSubstepSensorEventsEnabled := false,
      ccdOnPenetrationEnabled := false
    )
  }

  /** The reciprocal with zero standing for itself. `inv_dt` computes it of `dt`, and
      `set_inv_dt` stores it of the given frequency. It never divides by zero. */
  function GuardedInverse(x: real): (r: real)
    ensures r == 0.0 <==> x == 0.0
    ensures x != 0.0 ==> r * x == 1.0
    ensures r < 0.0 <==> x < 0.0
  {
    if x == 0.0 then 0.0 else 1.0 / x
  }

  /** Taking the guarded reciprocal twice gives back what one started with. */
  lemma GuardedInverseInvolutive(x: real)
    ensures GuardedInverse(GuardedInverse(x)) == x
  {
  }

  /** A call of one of the two time-step setters. */
  datatype Mutation = StepLength(length: real) | Frequency(hz: real)

  /** `set_dt` asserts that its argument is not negative; `set_inv_dt` checks nothing. */
  predicate Permitted(m: Mutation) {
    m.StepLength? ==> m.length >= 0.0
  }

  /** The record's value after one setter call. */
  function Apply(p: Params, m: Mutation): (r: Params)
    requires Permitted(m)
    // only the step length changes
    ensures r.(dt := p.dt) == p
    ensures m.StepLength? ==> r.dt == m.length
    // afterwards `inv_dt` gives back the frequency that was set, and a zero frequency
    // gives a step length of exactly zero
    ensures m.Frequency? ==> GuardedInverse(r.dt) == m.hz
    ensures m.Frequency? && m.hz == 0.0 ==> r.dt == 0.0
    // no sign check: a non-negative step length results exactly from a non-negative frequency
    ensures m.Frequency? ==> (r.dt >= 0.0 <==> m.hz >= 0.0)
  {
    match m
    case StepLength(x) => p.(dt := x)
    case Frequency(f) =>
      GuardedInverseInvolutive(f);
      p.(dt := GuardedInverse(f))
  }

  /** `set_inv_dt(inv_dt())` leaves the record as it was. */
  lemma SetInvDtOfInvDtIsNoOp(p: Params)
    ensures Apply(p, Frequency(GuardedInverse(p.dt))) == p
  {
    GuardedInverseInvolutive(p.dt);
  }

  /** The record's value after a sequence of setter calls, first call first. */
  function Run(p: Params, ms: seq<Mutation>): (r: Params)
    requires forall i :: 0 <= i < |ms| ==> Permitted(ms[i])
    // however many setters run, only the step length changes
    ensures r.(dt := p.dt) == p
    decreases |ms|
  {
    if ms == [] then p else Run(Apply(p, ms[0]), ms[1..])
  }

  /** Each setter overwrites the step length whatever it was, so after a non-empty
      sequence of calls the record is what the last call alone makes of it. */
  lemma {:induction false} RunLastCallWins(p: Params, ms: seq<Mutation>)
    requires forall i :: 0 <= i < |ms| ==> Permitted(ms[i])
    requires ms != []
    ensures Run(p, ms) == Apply(p, ms[|ms| - 1])
    decreases |ms|
  {
    if |ms| > 1 {
      var q := Apply(p, ms[0]);
      RunLastCallWins(q, ms[1..]);
      assert ms[1..][|ms[1..]| - 1] == ms[|ms| - 1];
    }
  }

  /** A record whose step length is not negative keeps it so through any sequence of
      calls in which every frequency given to `set_inv_dt` is not negative either. */
  lemma {:induction false} RunKeepsStepLengthNonNegative(p: Params, ms: seq<Mutation>)
    requires forall i :: 0 <= i < |ms| ==> Permitted(ms[i])
    requires forall i :: 0 <= i < |ms| && ms[i].Frequency? ==> ms[i].hz >= 0.0
    requires p.dt >= 0.0
    ensures Run(p, ms).dt >= 0.0
    decreases |ms|
  {
    if ms != [] {
      RunKeepsStepLengthNonNegative(Apply(p, ms[0]), ms[1..]);
    }
  }

  /** One negative frequency given to `set_inv_dt` as the last call leaves a negative
      step length, which `set_dt` would have refused. */
  lemma NegativeFrequencyLeavesNegativeStepLength(p: Params, ms: seq<Mutation>, f: real)
    requires forall i :: 0 <= i < |ms| ==> Permitted(ms[i])
    requires f < 0.0
    ensures Run(p, ms + [Frequency(f)]).dt < 0.0
    ensures !InDocumentedRanges(Run(p, ms + [Frequency(f)]))
  {
    var ms' := ms + [Frequency(f)];
    assert forall i :: 0 <= i < |ms'| ==> Permitted(ms'[i]);
    RunLastCallWins(p, ms');
  }

  /** An `IntegrationParameters` record held in a mutable place, as the engine's
      callers hold it. */
  class IntegrationParameters {
    var dt: real
    var returnAfterCcdSubstep: bool
    var erp: real
    var jointErp: real
    var warmstartCoeff: real
    var restitutionVelocityThreshold: real
    var allowedLinearError: real
    var predictionDistance: real
    var allowedAngularError: real
    var maxLinearCorrection: real
    var maxAngularCorrection: real
    var maxStabilizationMultiplier: real
    var maxVelocityIterations: nat
    var maxPositionIterations: nat
    var minIslandSize: nat
    var maxCcdPositionIterations: nat
    var maxCcdSubsteps: nat
    var multipleCcdSubstepSensorEventsEnabled: bool
    var ccdOnPenetrationEnabled: bool

    /** The record's current value. */
    function Value(): Params
      reads this
    {
      Params(
        dt, returnAfterCcdSubstep, erp, jointErp, warmstartCoeff,
        restitutionVelocityThreshold, allowedLinearError, predictionDistance,
        allowedAngularError, maxLinearCorrection, maxAngularCorrection,
        maxStabilizationMultiplier, maxVelocityIterations, maxPositionIterations,
        minIslandSize, maxCcdPositionIterations, maxCcdSubsteps,
        multipleCcdSubstepSensorEventsEnabled, ccdOnPenetrationEnabled)
    }

    /** Stores a record value, such as one built by `New` or `DefaultParams`. */
    constructor (v: Params)
      ensures Value() == v
    {
      dt := v.dt;
      returnAfterCcdSubstep := v.returnAfterCcdSubstep;
      erp := v.erp;
      jointErp := v.jointErp;
      warmstartCoeff := v.warmstartCoeff;
      restitutionVelocityThreshold := v.restitutionVelocityThreshold;
      allowedLinearError := v.allowedLinearError;
      predictionDistance := v.predictionDistance;
      allowedAngularError := v.allowedAngularError;
      maxLinearCorrection := v.maxLinearCorrection;
      maxAngularCorrection := v.maxAngularCorrection;
      maxStabilizationMultiplier := v.maxStabilizationMultiplier;
      maxVelocityIterations := v.maxVelocityIterations;
      maxPositionIterations := v.maxPositionIterations;
      minIslandSize := v.minIslandSize;
      maxCcdPositionIterations := v.maxCcdPositionIterations;
      maxCcdSubsteps := v.maxCcdSubsteps;
      multipleCcdSubstepSensorEventsEnabled := v.multipleCcdSubstepSensorEventsEnabled;
      ccdOnPenetrationEnabled := v.ccdOnPenetrationEnabled;
    }

    /** `clone`: a new record with the same value, which later changes to either
        record leave the other alone. */
    method Clone() returns (c: IntegrationParameters)
      ensures fresh(c) && c.Value() == Value()
    {
      c := new IntegrationParameters(Value());
    }

    /** `dt`: the current step length. */
    function Dt(): (r: real)
      reads this
      ensures r == Value().dt
    {
      dt
    }

    /** `inv_dt`: the number of steps per second, zero exactly when the step length is. */
    function InvDt(): (r: real)
      reads this
      ensures r == 0.0 <==> dt == 0.0
      ensures dt != 0.0 ==> r * dt == 1.0
      ensures r < 0.0 <==> dt < 0.0
    {
      GuardedInverse(dt)
    }

    /** `set_dt`: a negative step length is a contract violation. */
    method SetDt(x: real)
      requires x >= 0.0
      modifies this
      ensures Value() == Apply(old(Value()), StepLength(x))
      ensures Dt() == x
      ensures x == 0.0 ==> InvDt() == 0.0
    {
      dt := x;
    }

    /** `set_inv_dt`: sets the step length from a frequency; zero means a zero step. */
    method SetInvDt(f: real)
      modifies this
      ensures Value() == Apply(old(Value()), Frequency(f))
      ensures f == 0.0 ==> Dt() == 0.0
      ensures InvDt() == f
    {
      if f == 0.0 {
        dt := 0.0;
      } else {
        dt := 1.0 / f;
      }
    }
  }

  /** What a caller can conclude from the contracts above alone. */
  method ClientScenarios() {
    var p := new IntegrationParameters(DefaultParams());
    assert p.InvDt() == 60.0;
    p.SetDt(0.01);
    assert p.InvDt() == 100.0;
    var q := p.Clone();
    q.SetInvDt(240.0);
    assert q.Dt() == 1.0 / 240.0;
    assert p.Dt() == 0.01;
    p.SetDt(0.0);
    assert p.InvDt() == 0.0;
    assert q.Dt() == 1.0 / 240.0;
    var r := new IntegrationParameters(New(1.0 / 120.0, 0.1, 0.1, 0.8, 0.5, 0.001, 0.0005, 0.1, 0.1,
                                           0.001, 0.1, 8, 3, 20, 4, true, true, true));
    assert r.minIslandSize == 128 && r.predictionDistance == 0.001 && r.allowedAngularError == 0.0005;
  }
}
