# Balancing controller of a two-wheeled robot

This project models the control loop of a self-balancing robot in Dafny (`Firmware/sub/Controller/Controller.cpp`).
Each control cycle does the following, in order:

1. It stores the teleoperation commands.
2. It estimates the forward speed from the two wheel speeds.
3. It evaluates a three-gain state-feedback law against zero setpoints for pitch rate, pitch and speed.
4. It saturates the result to the supply voltage `[-Vb, Vb]`.
5. It passes the result through the voltage limiter once per motor.
6. It forces both motor commands to zero when `|pitch| > pitch_max`.

A one-shot `init` brings up the teleop link, the IMU and both motor drivers on its first call only.

The model is functional. The controller's process-wide variables form an immutable `State` record. The sensor, teleop and motor readings of one cycle form a `Readings` argument. The build-time constants (`dr`, `Vb`, `pitch_max`, `k1..k3`) form a `Params` argument. `Init` returns the new state together with the ordered list of sub-initialisations it triggered. `Update` is a pure function from state, parameters and readings to the next state.

Modules:

- `Limits`: the absolute value (`fabsf`), the clamp (`CppUtil::clamp`) and the voltage limiter (`ClampLimiter`). The clamp is characterised independently as the point of the interval nearest to its input.
- `Controller`: state, `Init`, `Update`, the accessors, and the properties of a single cycle.
- `Cycles`: repeated cycles as the periodic scheduler runs them. It shows that bounds hold after any number of cycles and that the tip-over cut-off does not latch.

Assumptions:

- `Imu::get_pitch()` is called twice in one cycle, once in the feedback law and once in the tip-over test. The model assumes both calls return the same value, so `Readings` holds a single `pitch`.
- `ClampLimiter` and `CppUtil::clamp` are not part of this model. Both are modelled as the stateless clamp their names and the limiter's constructor argument `Vb` suggest. Because the limiter is a value, using one instance for both motors cannot carry history from one motor to the other.
- `dr` is not defined in `Controller.cpp`, and `Vb` comes from the motor configuration, which is not part of this model. Both are parameters. `Params.Valid` asks only that `Vb >= 0`, so that the voltage interval is not empty. `pitch_max` may take any value, because the tip-over test handles every value.

## Model

| member | source | states |
|---|---|---|
| Limits.Abs | Firmware/sub/Controller/Controller.cpp:112 | the magnitude is non-negative and equals the value or its negation |
| Limits.Clamp | Firmware/sub/Controller/Controller.cpp:105 | the result lies in `[lo, hi]`, leaves in-range inputs unchanged, and is the point of the interval nearest to the input |
| Limits.NearestIsClamp | Firmware/sub/Controller/Controller.cpp:105 | a value is the nearest point of `[lo, hi]` to `x` exactly when it is the clamp of `x`, in both directions |
| Limits.ClampIdempotent | Firmware/sub/Controller/Controller.cpp:105-109 | saturating an already saturated voltage again, as the limiter does after the clamp, changes nothing |
| Limits.ClampMonotone | Firmware/sub/Controller/Controller.cpp:105 | a larger demand never produces a smaller saturated voltage |
| Limits.ClampOdd | Firmware/sub/Controller/Controller.cpp:66 | the symmetric limit treats forward and backward demands alike: clamping `-x` gives minus the clamp of `x` |
| Limits.ClampLimiter.Update | Firmware/sub/Controller/Controller.cpp:66 | the limiter's output is within `±limit`, passes in-range commands unchanged, and is the nearest admissible voltage |
| Controller.Initial | Firmware/sub/Controller/Controller.cpp:31-62 | the power-on state: speed estimate, teleop commands and both motor commands 0, and the init flag clear (lines 31-36 and 62) |
| Controller.GetLinVel | Firmware/sub/Controller/Controller.cpp:123-126 | returns the stored speed estimate and changes nothing |
| Controller.GetMotorLCmd | Firmware/sub/Controller/Controller.cpp:131-134 | returns the stored left motor command and changes nothing |
| Controller.GetMotorRCmd | Firmware/sub/Controller/Controller.cpp:139-142 | returns the stored right motor command and changes nothing |
| Controller.LinearVelocity | Firmware/sub/Controller/Controller.cpp:97 | the forward speed is half the wheel radius times the sum of wheel speeds; equal wheel speeds `w` give `dr * w`, and opposite wheel speeds give 0 |
| Controller.FeedbackLaw | Firmware/sub/Controller/Controller.cpp:100-102 | the voltage demand `k1*(0 - pitch_vel) + k2*(0 - pitch) + k3*(0 - lin_vel)`; it is 0 at zero pitch rate, pitch and speed for any gains, and 0 for any state when all gains are 0 |
| Controller.TippedOver | Firmware/sub/Controller/Controller.cpp:112 | the tip-over test (absolute pitch above `pitch_max`) holds exactly when the pitch is above `pitch_max` or below `-pitch_max` |
| Controller.Init | Firmware/sub/Controller/Controller.cpp:72-85 | afterwards the flag is set; the first call triggers Bluetooth, IMU, left and right motor initialisation in that order; a later call changes nothing and triggers nothing; no other state variable changes |
| Controller.InitIdempotent | Firmware/sub/Controller/Controller.cpp:74-84 | `init` followed by `init` leaves the state of one `init` and the second call triggers no sub-initialisation |
| Controller.InitRepeatedIsInit | Firmware/sub/Controller/Controller.cpp:72-85 | any positive number of `init` calls gives the same state and the same sub-initialisations as a single call, so each subsystem is brought up once |
| Controller.Update | Firmware/sub/Controller/Controller.cpp:90-118 | the teleop commands are stored as read; `lin_vel` is half the wheel radius times the sum of wheel speeds; both commands are within `±Vb` and equal; tipped over means both are 0; otherwise the command is the admissible voltage nearest to the feedback law's demand; the init flag is untouched |
| Controller.UpdateIsSafeCommand | Firmware/sub/Controller/Controller.cpp:100-116 | a value is the left (and the right) command of a cycle exactly when it is 0 on tip-over and otherwise the nearest admissible voltage to the feedback demand |
| Controller.UpdateNominal | Firmware/sub/Controller/Controller.cpp:100-109 | within the tip-over threshold both commands equal `clamp(k1*(-pitch_vel) + k2*(-pitch) + k3*(-lin_vel), -Vb, Vb)` |
| Controller.CommandsDoNotSteer | Firmware/sub/Controller/Controller.cpp:93-116 | replacing the teleop speed and yaw commands by any other values leaves both motor commands unchanged |
| Controller.UpdateMemoryless | Firmware/sub/Controller/Controller.cpp:90-118 | a cycle's result depends on the previous state only through the init flag |
| Controller.ShippedGainsIdle | Firmware/sub/Controller/Controller.cpp:55-57 | with the shipped gains `k1 = k2 = k3 = 0` and `pitch_max = 0.8`, both commands are 0 for every reading |
| Controller.AccessorsInitial | Firmware/sub/Controller/Controller.cpp:31-36 | before any cycle `get_lin_vel`, `get_motor_L_cmd` and `get_motor_R_cmd` report 0 |
| Controller.AccessorsAfterUpdate | Firmware/sub/Controller/Controller.cpp:123-142 | after a cycle the accessors report the velocity estimate and two equal commands within `±Vb` |
| Controller.BalancedAtRest | Firmware/sub/Controller/Controller.cpp:97-116 | for any gains, zero pitch rate, zero pitch and opposite wheel speeds give zero commands on both motors |
| Controller.ScenarioSaturation | Firmware/sub/Controller/Controller.cpp:105-109 | a 50 V demand with `Vb = 12` gives 12 V on both motors |
| Controller.ScenarioTipOver | Firmware/sub/Controller/Controller.cpp:112-116 | a pitch of 0.9 rad with `pitch_max = 0.8` gives 0 on both motors for any gains |
| Controller.ScenarioVelocity | Firmware/sub/Controller/Controller.cpp:97 | `dr = 0.1` with wheel speeds 2 and 4 rad/s gives 0.3 m/s |
| Cycles.Run | Firmware/sub/Controller/Controller.cpp:90-118 | when one cycle runs per reading, the init flag is kept, and bounded commands stay within `±Vb`; after at least one cycle, from any starting state, both commands are within `±Vb` and equal |
| Cycles.RunFromInitialBounded | Firmware/sub/Controller/Controller.cpp:31-36 | from the power-on state the commands are within `±Vb` and equal after any number of cycles |
| Cycles.RunIsLastCycle | Firmware/sub/Controller/Controller.cpp:90-118 | from any starting state, a run whose last reading is `r` ends in the state the cycle for `r` alone produces |
| Cycles.NoLatching | Firmware/sub/Controller/Controller.cpp:111-116 | after any history, including tip-overs, a cycle within the threshold drives the motors with the saturated feedback law again |

## Left out

- Floating point: `float` arithmetic, rounding, NaN and infinity (`fabsf` and comparisons on non-finite values) are modelled with reals.
- Hardware drivers: the internals of `Bluetooth`, `Imu`, `MotorL` and `MotorR`, including their `init` routines, are not modelled. Their readings are the fields of `Readings`, and `init` records only which of them it calls and in what order.
- Timing: `f_ctrl`, `t_ctrl` and the external scheduler that calls `update` once per period are not modelled. `Cycles.Run` models only the order of the cycles.
- Unused declarations: `yaw_vel`, `px`, `Kv`, `Kt` and `R` do not affect any result.
- Two reads of `Imu::get_pitch()` within one cycle are assumed to return the same value, as stated above.
- Limiter internals: `ClampLimiter`, `SlewLimiter`, `PID` and `CppUtil::clamp` are not part of this model. The limiter and the clamp are stood in for by `Limits.ClampLimiter` and `Limits.Clamp`.
