/** The DcmReactiveStepper class: one controller's state in mutable fields,
    updated in place by initialize and by run, once per control tick. */
module ReactiveStepper {
  import opened Geometry
  import opened Collaborators
  import opened StepperModel

  class DcmReactiveStepper<M> {
    /** The scheduler, planner and swing-trajectory generator. */
    const components: Components<M>

    /** The scheduler's own memory (the state of stepper_head_). */
    var stepperHead: M
    /** What the planner and the trajectory generator were configured with. */
    var plannerConfig: PlannerConfig
    var midAirFootHeight: real

    var controlPeriod: real
    var isLeftLegInContact: bool
    var stepDuration: real
    var timeFromLastStepTouchdown: real
    var previousSupportFootPosition: Vec3
    var currentSupportFootPosition: Vec3
    var nextSupportFootPosition: Vec3
    var desiredComVelocity: Vec3
    /** Each foot's position, velocity and acceleration. */
    var rightFoot: LimbState
    var leftFoot: LimbState
    var feasibleComVelocity: Vec3

    /** The fields as one value. */
    function State(): StepperState<M>
      reads this
    {
      StepperState(
        stepperHead, plannerConfig, midAirFootHeight, controlPeriod, isLeftLegInContact,
        stepDuration, timeFromLastStepTouchdown,
        previousSupportFootPosition, currentSupportFootPosition, nextSupportFootPosition,
        desiredComVelocity, leftFoot, rightFoot, feasibleComVelocity)
    }

    predicate Valid()
      reads this
    {
      Consistent(State())
    }

    /** The default constructor sets nothing of its own; the fields hold
        unspecified values until initialize is called. */
    constructor (components: Components<M>, stepperHead: M)
      ensures this.components == components && this.stepperHead == stepperHead
    {
      this.components := components;
      this.stepperHead := stepperHead;
    }

    /** Configures the planner and the trajectory generator and resets
        every time and vector of the stepper; the scheduler is not touched. */
    method Initialize(isLeftLegInContact: bool,
                      lMin: real, lMax: real, wMin: real, wMax: real, tMin: real, tMax: real,
                      lP: real, comHeight: real, weight: seq<real>,
                      midAirFootHeight: real, controlPeriod: real)
      requires |weight| == 9
      modifies this
      ensures State() == Initialized(old(State()), isLeftLegInContact,
                                     PlannerConfig(lMin, lMax, wMin, wMax, tMin, tMax, lP, comHeight, weight),
                                     midAirFootHeight, controlPeriod)
      ensures Valid()
    {
      Configure(PlannerConfig(lMin, lMax, wMin, wMax, tMin, tMax, lP, comHeight, weight),
                midAirFootHeight, controlPeriod);
      ResetContact(isLeftLegInContact);
      ResetMotion();
    }

    /** The planner's and the trajectory generator's initialisation, and
        the control period. */
    method Configure(config: PlannerConfig, midAirFootHeight: real, controlPeriod: real)
      modifies this`plannerConfig, this`midAirFootHeight, this`controlPeriod
      ensures plannerConfig == config
      ensures this.midAirFootHeight == midAirFootHeight && this.controlPeriod == controlPeriod
    {
      plannerConfig := config;
      this.midAirFootHeight := midAirFootHeight;
      this.controlPeriod := controlPeriod;
    }

    /** The contact flag as given, times at 0 and supports at the origin. */
    method ResetContact(isLeftLegInContact: bool)
      modifies this`isLeftLegInContact, this`stepDuration, this`timeFromLastStepTouchdown,
               this`previousSupportFootPosition, this`currentSupportFootPosition,
               this`nextSupportFootPosition
      ensures this.isLeftLegInContact == isLeftLegInContact
      ensures stepDuration == 0.0 && timeFromLastStepTouchdown == 0.0
      ensures previousSupportFootPosition == currentSupportFootPosition == nextSupportFootPosition == Zero
    {
      this.isLeftLegInContact := isLeftLegInContact;
      stepDuration := 0.0;
      timeFromLastStepTouchdown := 0.0;
      previousSupportFootPosition := Zero;
      currentSupportFootPosition := Zero;
      nextSupportFootPosition := Zero;
    }

    /** Desired and feasible CoM velocities and both feet's vectors at zero. */
    method ResetMotion()
      modifies this`desiredComVelocity, this`rightFoot, this`leftFoot, this`feasibleComVelocity
      ensures desiredComVelocity == Zero && feasibleComVelocity == Zero
      ensures rightFoot == LimbState(Zero, Zero, Zero) && leftFoot == LimbState(Zero, Zero, Zero)
    {
      desiredComVelocity := Zero;
      rightFoot := LimbState(Zero, Zero, Zero);
      leftFoot := LimbState(Zero, Zero, Zero);
      feasibleComVelocity := Zero;
    }

    /** One control cycle. The planner's solve must succeed. */
    method Run(time: real, nextSupportFootPosition: Vec3, comPosition: Vec3, comVelocity: Vec3,
               baseYaw: real)
      requires PlanSolved(components, State(),
                          CycleInput(time, nextSupportFootPosition, comPosition, comVelocity, baseYaw))
      modifies this
      ensures State() == Cycle(components, old(State()),
                               CycleInput(time, nextSupportFootPosition, comPosition, comVelocity, baseYaw))
      ensures Valid()
      ensures isLeftLegInContact ==> leftFoot == Standing(currentSupportFootPosition)
      ensures !isLeftLegInContact ==> rightFoot == Standing(currentSupportFootPosition)
      ensures feasibleComVelocity.z == 0.0
    {
      RunScheduler(time, nextSupportFootPosition);
      RunPlanner(comPosition, comVelocity, baseYaw);
      MoveFeet();
      UpdateFeasibleComVelocity();
    }

    /** The scheduler runs with the duration planned on the previous cycle;
        its getters are copied into the contact fields. */
    method RunScheduler(time: real, nextSupportFootPosition: Vec3)
      modifies this`stepperHead, this`timeFromLastStepTouchdown, this`currentSupportFootPosition,
               this`previousSupportFootPosition, this`isLeftLegInContact
      ensures State() == Scheduled(components, old(State()), time, nextSupportFootPosition)
    {
      stepperHead := components.advance(stepperHead, stepDuration, nextSupportFootPosition, time);
      var contact := components.observe(stepperHead);
      timeFromLastStepTouchdown := contact.timeFromLastStepTouchdown;
      currentSupportFootPosition := contact.currentSupportLocation;
      previousSupportFootPosition := contact.previousSupportLocation;
      isLeftLegInContact := contact.isLeftLegInContact;
    }

    /** The planner is updated and solved (its success is asserted), and
        its duration and next step location are copied. */
    method RunPlanner(comPosition: Vec3, comVelocity: Vec3, baseYaw: real)
      requires Plan(components, State(), comPosition, comVelocity, baseYaw).solved
      modifies this`stepDuration, this`nextSupportFootPosition
      ensures State() == Replanned(components, old(State()), comPosition, comVelocity, baseYaw)
    {
      var plan := components.plan(plannerConfig,
                                  PlannerInput(currentSupportFootPosition, timeFromLastStepTouchdown,
                                               isLeftLegInContact, desiredComVelocity,
                                               comPosition, comVelocity, baseYaw));
      assert plan.solved;
      stepDuration := plan.durationBeforeStepLanding;
      nextSupportFootPosition := plan.nextStepLocation;
    }

    /** The flying foot is driven through the trajectory generator, which
        overwrites its position, velocity and acceleration; the stance foot
        stays on the current support. */
    method MoveFeet()
      modifies this`leftFoot, this`rightFoot
      ensures State() == FeetMoved(components, old(State()))
    {
      var startTime := 0.0;
      var currentTime := timeFromLastStepTouchdown;
      var endTime := stepDuration;
      if isLeftLegInContact {
        // The right foot flies.
        rightFoot := components.swing(
          SwingRequest(midAirFootHeight, previousSupportFootPosition, rightFoot,
                       nextSupportFootPosition, startTime, currentTime, endTime),
          currentTime + controlPeriod);
        leftFoot := LimbState(currentSupportFootPosition, Zero, Zero);
      } else {
        // The left foot flies.
        leftFoot := components.swing(
          SwingRequest(midAirFootHeight, previousSupportFootPosition, leftFoot,
                       nextSupportFootPosition, startTime, currentTime, endTime),
          currentTime + controlPeriod);
        rightFoot := LimbState(currentSupportFootPosition, Zero, Zero);
      }
    }

    /** Half the previous-to-next support displacement, then the vertical
        component forced to 0. */
    method UpdateFeasibleComVelocity()
      modifies this`feasibleComVelocity
      ensures State() == WithFeasibleComVelocity(old(State()))
    {
      feasibleComVelocity := Half(Sub(nextSupportFootPosition, previousSupportFootPosition));
      feasibleComVelocity := AtHeight(feasibleComVelocity, 0.0);
    }
  }
}
