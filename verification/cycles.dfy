/**
 Repeated control cycles, as the periodic scheduler runs them: one `Update`
 per period, each with that period's readings.
 */
module Cycles {
  import opened Limits
  import opened Controller

  /** The state after running one cycle for each reading of `rs`, in order. */
  function Run(s: State, p: Params, rs: seq<Readings>): (t: State)
    requires p.Valid()
    ensures CommandsBounded(s, p.vb) ==> CommandsBounded(t, p.vb)
    ensures rs != [] ==> CommandsBounded(t, p.vb) && t.vCmdL == t.vCmdR
    ensures t.initComplete == s.initComplete
    decreases |rs|
  {
    if rs == [] then s
    else Run(Update(s, p, rs[0]), p, rs[1..])
  }

  /** From the power-on state the bounds hold after any number of cycles. */
  lemma RunFromInitialBounded(p: Params, rs: seq<Readings>)
    requires p.Valid()
    ensures CommandsBounded(Initial(), p.vb)
    ensures CommandsBounded(Run(Initial(), p, rs), p.vb)
    ensures GetMotorLCmd(Run(Initial(), p, rs)) == GetMotorRCmd(Run(Initial(), p, rs))
  {
  }

  /** Nothing but the initialisation flag survives a cycle, so a run ends in
      the state its last cycle alone produces. */
  lemma {:induction false} RunIsLastCycle(s: State, p: Params, rs: seq<Readings>, r: Readings)
    requires p.Valid()
    ensures Run(s, p, rs + [r]) == Update(s, p, r)
    decreases |rs|
  {
    if rs != [] {
      var s' := Update(s, p, rs[0]);
      assert (rs + [r])[1..] == rs[1..] + [r];
      RunIsLastCycle(s', p, rs[1..], r);
      UpdateMemoryless(s', s, p, r);
    }
  }

  /** The tip-over cut-off does not latch: once the last cycle's pitch is back
      within the threshold, the motors follow the feedback law again. */
  lemma NoLatching(s: State, p: Params, rs: seq<Readings>, r: Readings)
    requires p.Valid()
    requires !TippedOver(p, r.pitch)
    ensures Run(s, p, rs + [r]).vCmdL
              == Clamp(FeedbackLaw(p, r.pitchVel, r.pitch, LinearVelocity(p, r.velL, r.velR)), -p.vb, p.vb)
  {
    RunIsLastCycle(s, p, rs, r);
    UpdateNominal(s, p, r);
  }
}
