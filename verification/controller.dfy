/**
 The balancing controller of a two-wheeled robot: one control cycle reads the
 teleoperation command, the wheel speeds and the tilt sensor, evaluates a
 three-gain state-feedback law against zero setpoints, saturates the result to
 the supply voltage and disables both motors when the robot has tipped over.

 The controller's process-wide variables form an immutable `State` record,
 the collaborators' readings for one cycle form a `Readings` argument and the
 build-time constants form a `Params` argument.
 */
module Controller {
  import opened Limits

  /** Build-time constants: wheel radius, supply voltage, tip-over threshold and gains. */
  datatype Params = Params(
    dr: real,        // wheel radius [m]
    vb: real,        // supply voltage bound [V]
    pitchMax: real,  // tip-over threshold [rad]
    k1: real,        // pitch-rate gain
    k2: real,        // pitch gain
    k3: real         // linear-velocity gain
  )
  {
    /** The voltage interval `[-vb, vb]` must not be empty. */
    predicate Valid()
    {
      vb >= 0.0
    }
  }

  /** The shipped configuration: tip-over at 0.8 rad and all gains zero. */
  function Shipped(dr: real, vb: real): Params
  {
    Params(dr, vb, 0.8, 0.0, 0.0, 0.0)
  }

  /** What the collaborators report during one cycle. */
  datatype Readings = Readings(
    linVelCmd: real,  // teleop forward-velocity command [m/s]
    yawVelCmd: real,  // teleop yaw-rate command [rad/s]
    velL: real,       // left wheel angular velocity [rad/s]
    velR: real,       // right wheel angular velocity [rad/s]
    pitchVel: real,   // pitch rate [rad/s]
    pitch: real       // pitch angle [rad], the same value for both reads in a cycle
  )

  /** The subsystems `Init` brings up. */
  datatype Subsystem = Bluetooth | Imu | MotorL | MotorR

  /** The controller's state variables and its one-shot initialisation flag. */
  datatype State = State(
    linVel: real,
    linVelCmd: real,
    yawVelCmd: real,
    vCmdL: real,
    vCmdR: real,
    initComplete: bool
  )

  /** The state at process start: every number zero, not yet initialised. */
  function Initial(): State
  {
    State(0.0, 0.0, 0.0, 0.0, 0.0, false)
  }

  /** Both motor commands lie within the supply voltage. */
  ghost predicate CommandsBounded(s: State, vb: real)
  {
    Abs(s.vCmdL) <= vb && Abs(s.vCmdR) <= vb
  }

  // ---------------------------------------------------------------------------
  // Initialisation

  /** The state after an `init` call together with the sub-initialisations it triggered, in order. */
  datatype InitStep = InitStep(state: State, calls: seq<Subsystem>)

  /** The one-shot initialisation: brings up the subsystems only on the first call. */
  function Init(s: State): (r: InitStep)
    ensures r.state.initComplete
    ensures s.initComplete ==> r.state == s && r.calls == []
    ensures !s.initComplete ==> r.calls == [Bluetooth, Imu, MotorL, MotorR]
    ensures r.state.(initComplete := s.initComplete) == s
  {
    if !s.initComplete then
      InitStep(s.(initComplete := true), [Bluetooth, Imu, MotorL, MotorR])
    else
      InitStep(s, [])
  }

  /** `n` consecutive `init` calls: the final state and every sub-initialisation they triggered. */
  function InitRepeated(s: State, n: nat): (r: InitStep)
    ensures n > 0 ==> r.state.initComplete
    decreases n
  {
    if n == 0 then InitStep(s, [])
    else
      var first := Init(s);
      var rest := InitRepeated(first.state, n - 1);
      InitStep(rest.state, first.calls + rest.calls)
  }

  /** A second `init` changes nothing and triggers nothing. */
  lemma InitIdempotent(s: State)
    ensures Init(Init(s).state) == InitStep(Init(s).state, [])
  {
  }

  /** Any positive number of `init` calls acts exactly like one: the
      subsystems are brought up at most once. */
  lemma {:induction false} InitRepeatedIsInit(s: State, n: nat)
    requires n > 0
    ensures InitRepeated(s, n) == Init(s)
    decreases n
  {
    if n > 1 {
      InitRepeatedIsInit(Init(s).state, n - 1);
      InitIdempotent(s);
    }
  }

  // ---------------------------------------------------------------------------
  // One control cycle

  /** Forward speed of the chassis from the two wheel speeds, rolling without slip. */
  function LinearVelocity(p: Params, velL: real, velR: real): (v: real)
    // equal wheel rates drive the chassis at radius times that rate
    ensures velL == velR ==> v == p.dr * velL
    // opposite wheel rates spin the chassis in place
    ensures velL == -velR ==> v == 0.0
  {
    p.dr / 2.0 * (velL + velR)
  }

  /** The state-feedback law against zero setpoints for pitch rate, pitch and forward speed. */
  function FeedbackLaw(p: Params, pitchVel: real, pitch: real, linVel: real): (u: real)
    // at the upright, stationary equilibrium no voltage is demanded, whatever the gains
    ensures pitchVel == 0.0 && pitch == 0.0 && linVel == 0.0 ==> u == 0.0
    // with all gains zero no voltage is demanded, whatever the state
    ensures p.k1 == 0.0 && p.k2 == 0.0 && p.k3 == 0.0 ==> u == 0.0
  {
    p.k1 * (0.0 - pitchVel) + p.k2 * (0.0 - pitch) + p.k3 * (0.0 - linVel)
  }

  /** The robot has tipped over. */
  predicate TippedOver(p: Params, pitch: real)
    ensures TippedOver(p, pitch) <==> pitch > p.pitchMax || pitch < -p.pitchMax
  {
    Abs(pitch) > p.pitchMax
  }

  /** One control cycle. */
  function Update(s: State, p: Params, r: Readings): (t: State)
    requires p.Valid()
    ensures t.linVelCmd == r.linVelCmd && t.yawVelCmd == r.yawVelCmd
    ensures 2.0 * t.linVel == p.dr * (r.velL + r.velR)
    ensures t.initComplete == s.initComplete
    ensures CommandsBounded(t, p.vb)
    ensures t.vCmdL == t.vCmdR
    ensures TippedOver(p, r.pitch) ==> t.vCmdL == 0.0 && t.vCmdR == 0.0
    ensures !TippedOver(p, r.pitch) ==>
              IsNearest(FeedbackLaw(p, r.pitchVel, r.pitch, t.linVel), -p.vb, p.vb, t.vCmdL)
  {
    var linVel := LinearVelocity(p, r.velL, r.velR);
    var vAvg := Clamp(FeedbackLaw(p, r.pitchVel, r.pitch, linVel), -p.vb, p.vb);
    var limiter := ClampLimiter(p.vb);
    var vL := limiter.Update(vAvg);
    var vR := limiter.Update(vAvg);
    var tripped := TippedOver(p, r.pitch);
    s.(linVelCmd := r.linVelCmd,
       yawVelCmd := r.yawVelCmd,
       linVel := linVel,
       vCmdL := if tripped then 0.0 else vL,
       vCmdR := if tripped then 0.0 else vR)
  }

  /** The command a cycle must produce, described without reference to `Update`:
      zero when tipped over, otherwise the admissible voltage nearest to the
      feedback law's demand. */
  ghost predicate SafeCommand(p: Params, r: Readings, c: real)
  {
    if TippedOver(p, r.pitch) then c == 0.0
    else IsNearest(FeedbackLaw(p, r.pitchVel, r.pitch, LinearVelocity(p, r.velL, r.velR)), -p.vb, p.vb, c)
  }

  /** Each motor command of a cycle is exactly the value `SafeCommand` describes. */
  lemma UpdateIsSafeCommand(s: State, p: Params, r: Readings, c: real)
    requires p.Valid()
    ensures SafeCommand(p, r, c) <==> c == Update(s, p, r).vCmdL
    ensures SafeCommand(p, r, c) <==> c == Update(s, p, r).vCmdR
  {
  }

  /** Within the tip-over threshold the commands are the saturated feedback law. */
  lemma UpdateNominal(s: State, p: Params, r: Readings)
    requires p.Valid()
    requires !TippedOver(p, r.pitch)
    ensures Update(s, p, r).vCmdL == Update(s, p, r).vCmdR
              == Clamp(FeedbackLaw(p, r.pitchVel, r.pitch, LinearVelocity(p, r.velL, r.velR)), -p.vb, p.vb)
  {
  }

  /** The teleop commands are stored but do not reach the motors. */
  lemma CommandsDoNotSteer(s: State, p: Params, r: Readings, linVelCmd: real, yawVelCmd: real)
    requires p.Valid()
    ensures var t := Update(s, p, r.(linVelCmd := linVelCmd, yawVelCmd := yawVelCmd));
            t.vCmdL == Update(s, p, r).vCmdL && t.vCmdR == Update(s, p, r).vCmdR
  {
  }

  /** A cycle overwrites every state variable; only the initialisation flag carries over. */
  lemma UpdateMemoryless(s1: State, s2: State, p: Params, r: Readings)
    requires p.Valid()
    requires s1.initComplete == s2.initComplete
    ensures Update(s1, p, r) == Update(s2, p, r)
  {
  }

  /** With the shipped gains of zero the motors are never driven. */
  lemma ShippedGainsIdle(s: State, dr: real, vb: real, r: Readings)
    requires vb >= 0.0
    ensures Update(s, Shipped(dr, vb), r).vCmdL == 0.0
    ensures Update(s, Shipped(dr, vb), r).vCmdR == 0.0
  {
  }

  // ---------------------------------------------------------------------------
  // Accessors

  function GetLinVel(s: State): real { s.linVel }

  function GetMotorLCmd(s: State): real { s.vCmdL }

  function GetMotorRCmd(s: State): real { s.vCmdR }

  /** Before the first cycle every accessor reports zero. */
  lemma AccessorsInitial()
    ensures GetLinVel(Initial()) == 0.0
    ensures GetMotorLCmd(Initial()) == 0.0 && GetMotorRCmd(Initial()) == 0.0
  {
  }

  /** After a cycle the accessors report the velocity estimate and bounded, equal commands. */
  lemma AccessorsAfterUpdate(s: State, p: Params, r: Readings)
    requires p.Valid()
    ensures GetLinVel(Update(s, p, r)) == LinearVelocity(p, r.velL, r.velR)
    ensures Abs(GetMotorLCmd(Update(s, p, r))) <= p.vb
    ensures GetMotorLCmd(Update(s, p, r)) == GetMotorRCmd(Update(s, p, r))
  {
  }

  // ---------------------------------------------------------------------------
  // Worked cycles

  /** Upright, not rotating and not moving forward: no voltage, whatever the gains. */
  lemma BalancedAtRest(s: State, p: Params, r: Readings)
    requires p.Valid()
    requires r.pitchVel == 0.0 && r.pitch == 0.0 && r.velL == -r.velR
    ensures Update(s, p, r).vCmdL == 0.0 && Update(s, p, r).vCmdR == 0.0
  {
  }

  /** A demand of 50 V saturates at a 12 V supply. */
  lemma ScenarioSaturation(s: State)
    ensures var t := Update(s, Params(0.1, 12.0, 0.8, -50.0, 0.0, 0.0), Readings(0.0, 0.0, 0.0, 0.0, 1.0, 0.0));
            t.vCmdL == 12.0 && t.vCmdR == 12.0
  {
  }

  /** A pitch of 0.9 rad beyond a 0.8 rad threshold cuts the motors whatever the gains. */
  lemma ScenarioTipOver(s: State, p: Params, r: Readings)
    requires p.Valid() && p.pitchMax == 0.8 && r.pitch == 0.9
    ensures Update(s, p, r).vCmdL == 0.0 && Update(s, p, r).vCmdR == 0.0
  {
  }

  /** Wheel radius 0.1 m with wheel speeds 2 and 4 rad/s gives 0.3 m/s. */
  lemma ScenarioVelocity(s: State, p: Params, r: Readings)
    requires p.Valid() && p.dr == 0.1 && r.velL == 2.0 && r.velR == 4.0
    ensures Update(s, p, r).linVel == 0.3
  {
  }
}
