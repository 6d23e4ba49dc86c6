/** A control session: run called once per tick on a sequence of inputs.
    These lemmas carry the single-cycle facts across any number of cycles. */
module Session {
  import opened Geometry
  import opened Collaborators
  import opened StepperModel

  /** Every cycle of the session finds a plan (run asserts it each time). */
  predicate Solvable<M>(c: Components<M>, s: StepperState<M>, inputs: seq<CycleInput>)
    decreases |inputs|
  {
    |inputs| == 0 || (PlanSolved(c, s, inputs[0]) && Solvable(c, Cycle(c, s, inputs[0]), inputs[1..]))
  }

  /** The state after running the cycles of `inputs` in order. */
  function Cycles<M>(c: Components<M>, s: StepperState<M>, inputs: seq<CycleInput>): StepperState<M>
    requires Solvable(c, s, inputs)
    decreases |inputs|
  {
    if |inputs| == 0 then s else Cycles(c, Cycle(c, s, inputs[0]), inputs[1..])
  }

  /** Consistency (stance foot frozen, feasible CoM velocity flat and half
      the support displacement) holds after every nonempty session, and
      is kept by every session from a consistent state. */
  lemma {:induction false} SessionStaysConsistent<M>(c: Components<M>, s: StepperState<M>,
                                                    inputs: seq<CycleInput>)
    requires Solvable(c, s, inputs)
    requires Consistent(s) || |inputs| > 0
    ensures Consistent(Cycles(c, s, inputs))
    decreases |inputs|
  {
    if |inputs| > 0 {
      SessionStaysConsistent(c, Cycle(c, s, inputs[0]), inputs[1..]);
    }
  }

  /** A session from initialize is consistent after any number of cycles. */
  lemma InitializedSessionConsistent<M>(c: Components<M>, s: StepperState<M>, isLeftLegInContact: bool,
                                        config: PlannerConfig, midAirFootHeight: real,
                                        controlPeriod: real, inputs: seq<CycleInput>)
    requires Solvable(c, Initialized(s, isLeftLegInContact, config, midAirFootHeight, controlPeriod), inputs)
    ensures Consistent(Cycles(c, Initialized(s, isLeftLegInContact, config, midAirFootHeight, controlPeriod), inputs))
  {
    SessionStaysConsistent(c, Initialized(s, isLeftLegInContact, config, midAirFootHeight, controlPeriod), inputs);
  }

  /** Running k + 1 cycles is running k cycles and then one more. */
  lemma {:induction false} SessionExtends<M>(c: Components<M>, s: StepperState<M>,
                                             inputs: seq<CycleInput>, k: nat)
    requires Solvable(c, s, inputs)
    requires k < |inputs|
    ensures Solvable(c, s, inputs[..k])
    ensures PlanSolved(c, Cycles(c, s, inputs[..k]), inputs[k])
    ensures Solvable(c, s, inputs[..k + 1])
    ensures Cycles(c, s, inputs[..k + 1]) == Cycle(c, Cycles(c, s, inputs[..k]), inputs[k])
    decreases k
  {
    if k == 0 {
      assert inputs[..1][1..] == [];
    } else {
      var t := Cycle(c, s, inputs[0]);
      var rest := inputs[1..];
      SessionExtends(c, t, rest, k - 1);
      assert inputs[..k][0] == inputs[0] && inputs[..k][1..] == rest[..k - 1];
      assert inputs[..k + 1][0] == inputs[0] && inputs[..k + 1][1..] == rest[..k];
    }
  }

  /** On every cycle after the first, run hands the scheduler the step
      duration the planner chose on the cycle before. */
  lemma SchedulerSeesPreviousPlan<M>(c: Components<M>, s: StepperState<M>,
                                     inputs: seq<CycleInput>, k: nat)
    requires Solvable(c, s, inputs)
    requires 0 < k < |inputs|
    ensures Solvable(c, s, inputs[..k - 1]) && Solvable(c, s, inputs[..k]) && Solvable(c, s, inputs[..k + 1])
    ensures var before := Cycles(c, s, inputs[..k - 1]);
      var now := Cycles(c, s, inputs[..k]);
      Cycles(c, s, inputs[..k + 1]).stepperHead
        == c.advance(now.stepperHead, PlanFor(c, before, inputs[k - 1]).durationBeforeStepLanding,
                     inputs[k].nextSupportFootPosition, inputs[k].time)
  {
    SessionExtends(c, s, inputs, k);
    SessionExtends(c, s, inputs, k - 1);
  }
}
