/** The stepper's state as a value, and the specification of its two
    operations: Initialized (initialize) and Cycle (one call of run). The
    class in module ReactiveStepper is proved against these functions. */
module StepperModel {
  import opened Geometry
  import opened Collaborators

  /** One snapshot of every member of the stepper; `M` is the scheduler's
      own memory, which the stepper holds but never looks into. */
  datatype StepperState<M> = StepperState(
    stepperHead: M,
    plannerConfig: PlannerConfig,
    midAirFootHeight: real,
    controlPeriod: real,
    isLeftLegInContact: bool,
    stepDuration: real,
    timeFromLastStepTouchdown: real,
    previousSupportFootPosition: Vec3,
    currentSupportFootPosition: Vec3,
    nextSupportFootPosition: Vec3,
    desiredComVelocity: Vec3,
    leftFoot: LimbState,
    rightFoot: LimbState,
    feasibleComVelocity: Vec3)

  /** The arguments of one call of run. */
  datatype CycleInput = CycleInput(
    time: real,
    nextSupportFootPosition: Vec3,
    comPosition: Vec3,
    comVelocity: Vec3,
    baseYaw: real)

  /** `v` is the CoM velocity a step from `previous` to `next` makes
      feasible: horizontal, and such that travelling at it for two time
      units from the previous support reaches the next support in the
      ground plane. */
  predicate IsFeasibleComVelocity(v: Vec3, previous: Vec3, next: Vec3) {
    && v.z == 0.0
    && previous.x + 2.0 * v.x == next.x
    && previous.y + 2.0 * v.y == next.y
  }

  /** Half the previous-to-next support displacement, flattened. */
  function FeasibleComVelocity(previous: Vec3, next: Vec3): (v: Vec3)
    ensures IsFeasibleComVelocity(v, previous, next)
  {
    AtHeight(Half(Sub(next, previous)), 0.0)
  }

  /** The foot in contact stands still on the current support location. */
  predicate StanceFrozen<M>(s: StepperState<M>) {
    if s.isLeftLegInContact then s.leftFoot == Standing(s.currentSupportFootPosition)
    else s.rightFoot == Standing(s.currentSupportFootPosition)
  }

  /** What holds of the stepper after initialize and after every run. */
  predicate Consistent<M>(s: StepperState<M>) {
    && StanceFrozen(s)
    && IsFeasibleComVelocity(s.feasibleComVelocity, s.previousSupportFootPosition, s.nextSupportFootPosition)
  }

  /** The state after initialize: the planner and trajectory generator are
      configured, every time and vector is zero, and the scheduler's memory
      is left as it was. */
  function Initialized<M>(s: StepperState<M>, isLeftLegInContact: bool, config: PlannerConfig,
                          midAirFootHeight: real, controlPeriod: real): (r: StepperState<M>)
    ensures Consistent(r)
    ensures r.stepperHead == s.stepperHead
    ensures r.stepDuration == 0.0 && r.timeFromLastStepTouchdown == 0.0
    ensures r.isLeftLegInContact == isLeftLegInContact && r.controlPeriod == controlPeriod
    ensures r.leftFoot == r.rightFoot == Standing(Zero) && r.feasibleComVelocity == Zero
  {
    StepperState(
      s.stepperHead, config, midAirFootHeight, controlPeriod, isLeftLegInContact,
      0.0, 0.0, Zero, Zero, Zero, Zero,
      LimbState(Zero, Zero, Zero), LimbState(Zero, Zero, Zero), Zero)
  }

  /** Step 1 of run: the scheduler is run with the step duration planned on
      the previous cycle, and its getters are copied into the contact fields. */
  function Scheduled<M>(c: Components<M>, s: StepperState<M>, time: real, nextSupport: Vec3): StepperState<M> {
    var head := c.advance(s.stepperHead, s.stepDuration, nextSupport, time);
    var contact := c.observe(head);
    s.(stepperHead := head,
       timeFromLastStepTouchdown := contact.timeFromLastStepTouchdown,
       currentSupportFootPosition := contact.currentSupportLocation,
       previousSupportFootPosition := contact.previousSupportLocation,
       isLeftLegInContact := contact.isLeftLegInContact)
  }

  /** The planner's answer, updated from the contact fields of `t`. */
  function Plan<M>(c: Components<M>, t: StepperState<M>, comPosition: Vec3, comVelocity: Vec3,
                   baseYaw: real): PlanResult {
    c.plan(t.plannerConfig,
           PlannerInput(t.currentSupportFootPosition, t.timeFromLastStepTouchdown, t.isLeftLegInContact,
                        t.desiredComVelocity, comPosition, comVelocity, baseYaw))
  }

  /** Step 2 of run: the planner's duration and next step are copied. */
  function Replanned<M>(c: Components<M>, t: StepperState<M>, comPosition: Vec3, comVelocity: Vec3,
                        baseYaw: real): StepperState<M> {
    var plan := Plan(c, t, comPosition, comVelocity, baseYaw);
    t.(stepDuration := plan.durationBeforeStepLanding, nextSupportFootPosition := plan.nextStepLocation)
  }

  /** The trajectory generator's state for a flying foot now in state
      `flying`: the trajectory is fitted from the previous toward the next
      support over [0, stepDuration], starting at the time since touchdown,
      and evaluated one control period later. */
  function SwingStep<M>(c: Components<M>, t: StepperState<M>, flying: LimbState): LimbState {
    c.swing(SwingRequest(t.midAirFootHeight, t.previousSupportFootPosition, flying,
                         t.nextSupportFootPosition, 0.0, t.timeFromLastStepTouchdown, t.stepDuration),
            t.timeFromLastStepTouchdown + t.controlPeriod)
  }

  /** Step 3 of run: the foot not in contact flies, the other stands on the
      current support. */
  function FeetMoved<M>(c: Components<M>, t: StepperState<M>): StepperState<M> {
    if t.isLeftLegInContact then
      t.(rightFoot := SwingStep(c, t, t.rightFoot), leftFoot := Standing(t.currentSupportFootPosition))
    else
      t.(leftFoot := SwingStep(c, t, t.leftFoot), rightFoot := Standing(t.currentSupportFootPosition))
  }

  /** Step 4 of run. */
  function WithFeasibleComVelocity<M>(t: StepperState<M>): StepperState<M> {
    t.(feasibleComVelocity := FeasibleComVelocity(t.previousSupportFootPosition, t.nextSupportFootPosition))
  }

  /** The planner's answer on the cycle that starts in state `s`. */
  function PlanFor<M>(c: Components<M>, s: StepperState<M>, input: CycleInput): PlanResult {
    Plan(c, Scheduled(c, s, input.time, input.nextSupportFootPosition),
         input.comPosition, input.comVelocity, input.baseYaw)
  }

  /** run asserts that the planner's solve succeeds. */
  predicate PlanSolved<M>(c: Components<M>, s: StepperState<M>, input: CycleInput) {
    PlanFor(c, s, input).solved
  }

  /** One control cycle: scheduler, planner, swing trajectory of the flying
      foot with the stance foot held, feasible CoM velocity. */
  function Cycle<M>(c: Components<M>, s: StepperState<M>, input: CycleInput): (r: StepperState<M>)
    requires PlanSolved(c, s, input)
    ensures Consistent(r)
  {
    var scheduled := Scheduled(c, s, input.time, input.nextSupportFootPosition);
    var planned := Replanned(c, scheduled, input.comPosition, input.comVelocity, input.baseYaw);
    WithFeasibleComVelocity(FeetMoved(c, planned))
  }

  /** The scheduler is run with the duration held before the cycle, and the
      contact fields are read back from it afterwards. */
  lemma CycleMirrorsScheduler<M>(c: Components<M>, s: StepperState<M>, input: CycleInput)
    requires PlanSolved(c, s, input)
    ensures var r := Cycle(c, s, input);
      && r.stepperHead == c.advance(s.stepperHead, s.stepDuration, input.nextSupportFootPosition, input.time)
      && r.timeFromLastStepTouchdown == c.observe(r.stepperHead).timeFromLastStepTouchdown
      && r.currentSupportFootPosition == c.observe(r.stepperHead).currentSupportLocation
      && r.previousSupportFootPosition == c.observe(r.stepperHead).previousSupportLocation
      && r.isLeftLegInContact == c.observe(r.stepperHead).isLeftLegInContact
  {
  }

  /** The planner is updated from the refreshed contact fields, and the
      step duration and next support are its outputs. */
  lemma CycleMirrorsPlanner<M>(c: Components<M>, s: StepperState<M>, input: CycleInput)
    requires PlanSolved(c, s, input)
    ensures var r := Cycle(c, s, input);
      var plan := c.plan(s.plannerConfig,
                         PlannerInput(r.currentSupportFootPosition, r.timeFromLastStepTouchdown,
                                      r.isLeftLegInContact, s.desiredComVelocity,
                                      input.comPosition, input.comVelocity, input.baseYaw));
      && plan.solved
      && r.stepDuration == plan.durationBeforeStepLanding
      && r.nextSupportFootPosition == plan.nextStepLocation
  {
  }

  /** The foot not in contact after the scheduler has run is the one whose
      old state is fed to the trajectory generator; the trajectory runs from
      the previous to the next support over [0, stepDuration], starting at
      the time since touchdown and evaluated one control period later. */
  lemma CycleSwingsFlyingFoot<M>(c: Components<M>, s: StepperState<M>, input: CycleInput)
    requires PlanSolved(c, s, input)
    ensures var r := Cycle(c, s, input);
      var request := (flying: LimbState) =>
        SwingRequest(s.midAirFootHeight, r.previousSupportFootPosition, flying,
                     r.nextSupportFootPosition, 0.0, r.timeFromLastStepTouchdown, r.stepDuration);
      var t := r.timeFromLastStepTouchdown + s.controlPeriod;
      && (r.isLeftLegInContact ==> r.rightFoot == c.swing(request(s.rightFoot), t))
      && (!r.isLeftLegInContact ==> r.leftFoot == c.swing(request(s.leftFoot), t))
  {
  }

  /** The foot in contact ends the cycle at the current support location
      with exactly zero velocity and acceleration. */
  lemma CycleFreezesStanceFoot<M>(c: Components<M>, s: StepperState<M>, input: CycleInput)
    requires PlanSolved(c, s, input)
    ensures var r := Cycle(c, s, input);
      && (r.isLeftLegInContact ==>
            r.leftFoot.position == r.currentSupportFootPosition
            && r.leftFoot.velocity == Zero && r.leftFoot.acceleration == Zero)
      && (!r.isLeftLegInContact ==>
            r.rightFoot.position == r.currentSupportFootPosition
            && r.rightFoot.velocity == Zero && r.rightFoot.acceleration == Zero)
  {
  }

  /** The feasible CoM velocity is half of the previous-to-next support
      displacement in x and y, and exactly 0 vertically, for every input. */
  lemma CycleFeasibleVelocity<M>(c: Components<M>, s: StepperState<M>, input: CycleInput)
    requires PlanSolved(c, s, input)
    ensures var r := Cycle(c, s, input);
      && r.feasibleComVelocity.z == 0.0
      && r.feasibleComVelocity.x == (r.nextSupportFootPosition.x - r.previousSupportFootPosition.x) / 2.0
      && r.feasibleComVelocity.y == (r.nextSupportFootPosition.y - r.previousSupportFootPosition.y) / 2.0
  {
  }

  /** run leaves the configuration and the desired CoM velocity alone. */
  lemma CycleKeepsConfiguration<M>(c: Components<M>, s: StepperState<M>, input: CycleInput)
    requires PlanSolved(c, s, input)
    ensures var r := Cycle(c, s, input);
      && r.plannerConfig == s.plannerConfig
      && r.midAirFootHeight == s.midAirFootHeight
      && r.controlPeriod == s.controlPeriod
      && r.desiredComVelocity == s.desiredComVelocity
  {
  }

  /** Only the flying foot's old state influences the new state: two states
      that differ at most in their feet, and agree on the foot that will be
      flying, lead to the same state after the cycle. */
  lemma OnlyFlyingFootMatters<M>(c: Components<M>, s: StepperState<M>, t: StepperState<M>,
                                 input: CycleInput)
    requires PlanSolved(c, s, input)
    requires t == s.(leftFoot := t.leftFoot, rightFoot := t.rightFoot)
    requires Scheduled(c, s, input.time, input.nextSupportFootPosition).isLeftLegInContact ==> t.rightFoot == s.rightFoot
    requires !Scheduled(c, s, input.time, input.nextSupportFootPosition).isLeftLegInContact ==> t.leftFoot == s.leftFoot
    ensures PlanSolved(c, t, input) && Cycle(c, t, input) == Cycle(c, s, input)
  {
  }

  /** The first run after initialize hands the scheduler a step duration of
      0, whatever the state before initialize. */
  lemma FirstRunPassesZeroDuration<M>(c: Components<M>, s: StepperState<M>, isLeftLegInContact: bool,
                                      config: PlannerConfig, midAirFootHeight: real,
                                      controlPeriod: real, input: CycleInput)
    requires PlanSolved(c, Initialized(s, isLeftLegInContact, config, midAirFootHeight, controlPeriod), input)
    ensures Cycle(c, Initialized(s, isLeftLegInContact, config, midAirFootHeight, controlPeriod), input).stepperHead
            == c.advance(s.stepperHead, 0.0, input.nextSupportFootPosition, input.time)
  {
  }

  /** initialize does not reach the scheduler, so after the first run the
      contact flag is the scheduler's, whichever flag initialize was given. */
  lemma InitialContactFlagOverwritten<M>(c: Components<M>, s: StepperState<M>, config: PlannerConfig,
                                         midAirFootHeight: real, controlPeriod: real,
                                         input: CycleInput)
    requires PlanSolved(c, Initialized(s, true, config, midAirFootHeight, controlPeriod), input)
    requires PlanSolved(c, Initialized(s, false, config, midAirFootHeight, controlPeriod), input)
    ensures Cycle(c, Initialized(s, true, config, midAirFootHeight, controlPeriod), input).isLeftLegInContact
            == Cycle(c, Initialized(s, false, config, midAirFootHeight, controlPeriod), input).isLeftLegInContact
  {
  }
}
