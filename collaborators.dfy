/** The three components the stepper drives: the contact scheduler
    (stepper_head_), the DCM/VRP step planner (dcm_vrp_planner_) and the
    swing-foot trajectory generator (end_eff_traj3d_). Their implementations
    are not part of this model: each is an uninterpreted function value, and
    the stepper relies only on what it passes in and what it reads back. */
module Collaborators {
  import opened Geometry

  /** What the scheduler's getters report after it has run. */
  datatype ContactState = ContactState(
    timeFromLastStepTouchdown: real,
    currentSupportLocation: Vec3,
    previousSupportLocation: Vec3,
    isLeftLegInContact: bool)

  /** The arguments of the planner's initialize: step length, width and
      duration bounds, the nominal step width, the CoM height and the
      nine cost weights. */
  datatype PlannerConfig = PlannerConfig(
    lMin: real, lMax: real,
    wMin: real, wMax: real,
    tMin: real, tMax: real,
    lP: real,
    comHeight: real,
    weight: seq<real>)

  /** The arguments of the planner's update. */
  datatype PlannerInput = PlannerInput(
    currentSupportFootPosition: Vec3,
    timeFromLastStepTouchdown: real,
    isLeftLegInContact: bool,
    desiredComVelocity: Vec3,
    comPosition: Vec3,
    comVelocity: Vec3,
    baseYaw: real)

  /** What solve() returns, followed by the planner's two getters. */
  datatype PlanResult = PlanResult(
    solved: bool,
    durationBeforeStepLanding: real,
    nextStepLocation: Vec3)

  /** The arguments of the trajectory generator's compute, together with
      the mid-air height it was configured with. */
  datatype SwingRequest = SwingRequest(
    midAirHeight: real,
    startPosition: Vec3,
    current: LimbState,
    targetPosition: Vec3,
    startTime: real,
    currentTime: real,
    endTime: real)

  /** The collaborators, with `M` the scheduler's own memory.
      - advance(m, duration, nextSupport, time): the scheduler's run;
      - observe(m): its getters;
      - plan(config, input): update followed by solve and the getters;
      - swing(request, t): compute(request) followed by get_next_state(t). */
  datatype Components<!M> = Components(
    advance: (M, real, Vec3, real) -> M,
    observe: M -> ContactState,
    plan: (PlannerConfig, PlannerInput) -> PlanResult,
    swing: (SwingRequest, real) -> LimbState)
}
