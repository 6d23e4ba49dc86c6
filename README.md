# DcmReactiveStepper in Dafny

This project models the reactive stepper of `reactive_planners`
(`src/dcm_reactive_stepper.cpp`). The stepper is a walking controller run
once per control tick. It holds three collaborators:

- a contact scheduler (`stepper_head_`), which decides which foot is in
  contact and where the supports are;
- a DCM/VRP step planner (`dcm_vrp_planner_`), which picks the duration
  and location of the next step;
- a swing-trajectory generator (`end_eff_traj3d_`), which moves the flying
  foot.

`initialize` configures the planner and the trajectory generator, then sets
every time and vector of the stepper to zero. `run` performs one control
cycle in four steps:

1. Run the scheduler with the step duration from the previous cycle, and
   copy its contact information.
2. Update and solve the planner, and copy its step duration and next step.
3. Drive the flying foot one control period along a swing trajectory from
   the previous support toward the next support, and hold the stance foot
   on the current support.
4. Compute the feasible CoM velocity: half the support displacement, with
   its vertical component set to zero.

Modules:

- `Geometry`: 3-vectors over the reals, and a limb's position, velocity and
  acceleration (`LimbState`).
- `Collaborators`: the three collaborators, given as function values
  (`Components<M>`). `M` is the scheduler's private memory.
- `StepperModel`: the stepper's state as a value (`StepperState`). It
  specifies `initialize` as `Initialized`, and each step of `run` as its own
  function, composed into `Cycle`. It also holds the single-cycle
  properties.
- `Session`: `run` called over a sequence of ticks (`Cycles`), and the
  properties that hold across ticks.
- `ReactiveStepper`: the class `DcmReactiveStepper`. Its fields mirror the
  C++ members, and its methods update them in place. Each method is proved
  to produce exactly the state its specification function gives.

`Initialize` and `Run` both establish `Valid()`. `Valid()` means two
things: the foot in contact stands still on the current support, and the
feasible CoM velocity is flat and equals half the support displacement.

## Model

| member | source | states |
|---|---|---|
| `StepperModel.FeasibleComVelocity` | src/dcm_reactive_stepper.cpp:137-139 | the result has z exactly 0, and previous + 2·v reaches next in x and y, i.e. v is half the previous-to-next displacement |
| `StepperModel.Initialized` | src/dcm_reactive_stepper.cpp:35-56 | after initialize: step duration and time since touchdown are 0; the contact flag and control period are the arguments; both feet's position, velocity and acceleration are zero; the feasible CoM velocity is zero; the result is consistent; the scheduler's memory is untouched |
| `StepperModel.Cycle` | src/dcm_reactive_stepper.cpp:59-140 | one run (scheduler, planner, flying-foot swing, stance-foot hold, feasible velocity), defined only when the planner solves; the result is always consistent (stance foot frozen, feasible CoM velocity correct) |
| `StepperModel.CycleMirrorsScheduler` | src/dcm_reactive_stepper.cpp:66-74 | the scheduler advances with the step duration held before the cycle; time since touchdown, current and previous support and the contact flag equal the scheduler's getters afterwards |
| `StepperModel.CycleMirrorsPlanner` | src/dcm_reactive_stepper.cpp:76-88 | the planner is fed the refreshed support, time, contact flag and desired CoM velocity plus the run arguments; it solves; step duration and next support equal its outputs |
| `StepperModel.CycleSwingsFlyingFoot` | src/dcm_reactive_stepper.cpp:89-130 | the foot not in contact gets the generator's state: its trajectory is fitted from its own old state over [0, step duration], from the previous toward the next support, starting at the time since touchdown, and it is evaluated one control period later |
| `StepperModel.CycleFreezesStanceFoot` | src/dcm_reactive_stepper.cpp:110-134 | the foot in contact sits on the current support with velocity and acceleration exactly zero, for either contact flag |
| `StepperModel.CycleFeasibleVelocity` | src/dcm_reactive_stepper.cpp:137-139 | the feasible CoM velocity's x and y are half of next − previous support, and its z is exactly 0 |
| `StepperModel.CycleKeepsConfiguration` | src/dcm_reactive_stepper.cpp:59-140 | run changes neither the planner configuration, the mid-air height, the control period nor the desired CoM velocity |
| `StepperModel.OnlyFlyingFootMatters` | src/dcm_reactive_stepper.cpp:94-135 | two states that differ only in their feet, and agree on the foot that will fly, give identical states after run: the stance foot's old state and everything else of the old feet are irrelevant |
| `StepperModel.FirstRunPassesZeroDuration` | src/dcm_reactive_stepper.cpp:44-68 | the first run after initialize advances the scheduler with duration 0, whatever the state before initialize |
| `StepperModel.InitialContactFlagOverwritten` | src/dcm_reactive_stepper.cpp:43-74 | after the first run the contact flag is the same whichever flag initialize was given, because run takes it from the scheduler, which initialize does not reach |
| `Session.SessionStaysConsistent` | src/dcm_reactive_stepper.cpp:59-140 | consistency holds after every non-empty sequence of runs, and every sequence of runs from a consistent state keeps it |
| `Session.InitializedSessionConsistent` | src/dcm_reactive_stepper.cpp:22-140 | after initialize followed by any number of runs, the stepper is consistent |
| `Session.SessionExtends` | src/dcm_reactive_stepper.cpp:59-140 | running k + 1 ticks is running k ticks and then one more: the planner solves at tick k, and the state is one Cycle of the k-tick state |
| `Session.SchedulerSeesPreviousPlan` | src/dcm_reactive_stepper.cpp:67-87 | at every tick after the first, the scheduler advances with the duration the planner chose at the tick before |
| `ReactiveStepper.DcmReactiveStepper.constructor` | src/dcm_reactive_stepper.cpp:14-16 | the collaborators and the scheduler memory are as given; nothing else is set |
| `ReactiveStepper.DcmReactiveStepper.Initialize` | src/dcm_reactive_stepper.cpp:22-57 | the new fields are exactly `Initialized` of the old ones, and `Valid()` holds |
| `ReactiveStepper.DcmReactiveStepper.Configure` | src/dcm_reactive_stepper.cpp:35-42 | the planner configuration, mid-air height and control period are the arguments; no other field changes |
| `ReactiveStepper.DcmReactiveStepper.ResetContact` | src/dcm_reactive_stepper.cpp:43-48 | the contact flag is the argument; the times are 0; the three supports are zero; no other field changes |
| `ReactiveStepper.DcmReactiveStepper.ResetMotion` | src/dcm_reactive_stepper.cpp:49-56 | the desired and feasible CoM velocities and both feet's position, velocity and acceleration are zero; no other field changes |
| `ReactiveStepper.DcmReactiveStepper.Run` | src/dcm_reactive_stepper.cpp:59-140 | when the planner solves, the new fields are exactly `Cycle` of the old ones; `Valid()` holds; the stance foot stands on the current support; the feasible CoM velocity is flat |
| `ReactiveStepper.DcmReactiveStepper.RunScheduler` | src/dcm_reactive_stepper.cpp:66-74 | the scheduler memory advances with the old step duration; time since touchdown, supports and contact flag are its getters; no other field changes |
| `ReactiveStepper.DcmReactiveStepper.RunPlanner` | src/dcm_reactive_stepper.cpp:76-88 | requires the planner to solve; step duration and next support are its outputs; no other field changes |
| `ReactiveStepper.DcmReactiveStepper.MoveFeet` | src/dcm_reactive_stepper.cpp:89-135 | the flying foot, chosen by the contact flag, is overwritten by the generator's state one control period ahead; the other foot stands on the current support with zero velocity and acceleration |
| `ReactiveStepper.DcmReactiveStepper.UpdateFeasibleComVelocity` | src/dcm_reactive_stepper.cpp:137-139 | the feasible CoM velocity becomes half the previous-to-next displacement with z set to 0; no other field changes |

## Left out

- The internals of the collaborators are not modelled; the scheduler, planner, solver and trajectory generator are uninterpreted functions. Their headers and sources are not part of this model.
- The scheduler's memory between ticks is a type parameter that only the scheduler's own functions read or change. The planner and the trajectory generator are modelled as pure functions of their configuration and of what run passes them. Any memory they keep between ticks is not modelled.
- The trajectory generator's two calls, `compute` followed by `get_next_state`, are modelled as one function of the fitting request and the evaluation time.
- Floating-point rounding and Eigen types are not modelled: vectors are triples of reals. So `* 0.5` is modelled as an exact halving.
- `StepperModel.Cycle` requires that the planner solves. This models the `assert(solve())` at line 84. Builds with `NDEBUG`, where the call to solve disappears, are not modelled.
- The per-component foot fields (`right_foot_position_`, `right_foot_velocity_`, …) are grouped into one position/velocity/acceleration record per foot. Every write in the source overwrites all three components together, so no behaviour is lost.
- Before initialize the fields hold unspecified values, as in the C++ default constructor. The destructor does nothing and is not modelled.
- `ReactiveStepper.DcmReactiveStepper.Initialize` requires nine weights. This is the length fixed by `Eigen::Vector9d`, and nothing else is demanded of the arguments.
- The getters, setters and Python bindings are accessor plumbing. `dcm_reactive_stepper.hpp` is not part of this model.
- The demo script (`demos/demo_dcm_reactive_stepper.py`) is plotting and simulation I/O, and is not modelled.
