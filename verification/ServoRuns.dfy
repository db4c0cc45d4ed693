/** Properties of whole servo runs (PTPWRd/dep/wr_servo.c:335-436). */
module ServoRuns {
  import opened CTypes
  import opened WrTime
  import opened LinkModel
  import opened Servo

  ghost predicate IsServoRun(run: seq<Control>, readings: seq<Reading>) {
    && |run| == |readings| + 1
    && forall i :: 0 <= i < |readings| ==> run[i + 1] == ServoStep(run[i], readings[i]).0
  }

  // ----- what one update sees -----

  /** On a link that obeys the fixed-point alpha relation, an update of the servo is a control step on a reading
      whose offset is the clock difference and whose delay is the one-way delay of the link, both as adjusted
      by hand and to 1.5 ps, with the three polls as they are. */
  lemma UpdateSeesLink(c: Control, s: Stamps, d: Deltas, alpha: int32, period: int32, phAdjust: int32,
                       locked: bool, busy: bool, tracking: bool, theta: real, fms: real, fsm: real)
    returns (r: Reading)
    requires UpdateFits(s, d, alpha, period, phAdjust) && DeltasFit(d)
    requires Picos(s.t2) as real == (Picos(s.t1) + d.txM + d.rxS) as real + fms + theta
    requires Picos(s.t4) as real == (Picos(s.t3) + d.txS + d.rxM) as real + fsm - theta
    requires AlphaRelation(fms, fms + fsm, alpha) && 0.0 <= fms + fsm < TWO32 as real
    ensures Outcome(c, s, d, alpha, period, phAdjust, locked, busy, tracking) == ServoStep(c, r)
    ensures r.locked == locked && r.busy == busy && r.tracking == tracking
    ensures -1.5 < (Picos(r.hw) - phAdjust) as real + theta <= 0.0
    ensures -1.5 < (r.deltaMs - phAdjust - d.txM - d.rxS) as real - fms <= 0.0
  {
    hide DelayMs, Hardwarize, ServoStep, AlphaRelation, DiffTs;
    var delay := DelayMs(Picos(Mu(s)), d, alpha, phAdjust);
    r := Reading(Hardwarize(Offset(s, delay), period), delay, locked, busy, tracking);
    MuExact(s);
    DelayNear(Picos(Mu(s)), d, alpha, phAdjust, fms, fsm);
    OffsetError(s, d, alpha, phAdjust, theta, fms, fsm);
  }

  // ----- the timing output -----

  /** Where the timing output may be on. */
  predicate TimingSafe(c: Control) {
    c.timingOn ==> c.state in {TRACK_PHASE, SYNC_TAI} || (c.state == WAIT_SYNC_IDLE && c.next == TRACK_PHASE)
  }

  /** Less than one cycle away in whole cycles, and less than the threshold in phase. */
  predicate OnTarget(hw: WrTimestamp) {
    WholeCyclesZero(hw) && -STABILITY_THRESHOLD < hw.phase < STABILITY_THRESHOLD
  }

  /** Whatever the readings, the timing output stays where it belongs, and it is switched on only
      by an update that finds the offset on target. */
  lemma TimingStep(c: Control, r: Reading)
    requires TimingSafe(c) && -0x8000_0000 < r.hw.phase
    ensures var d := ServoStep(c, r).0;
            TimingSafe(d) && (!c.timingOn && d.timingOn ==> c.state == WAIT_OFFSET_STABLE && OnTarget(r.hw))
  {
  }

  /** The last switch-on before `n`, if the output is on at `n`. */
  lemma {:induction false} TimingOnHasCause(run: seq<Control>, readings: seq<Reading>, n: nat) returns (i: nat)
    requires IsServoRun(run, readings) && n < |run| && run[n].timingOn
    requires TimingSafe(run[0]) && !run[0].timingOn
    requires forall k :: 0 <= k < |readings| ==> -0x8000_0000 < readings[k].hw.phase
    ensures TimingSafe(run[n])
    ensures i < n && OnTarget(readings[i].hw) && run[i].state == WAIT_OFFSET_STABLE
    ensures forall k :: i < k <= n ==> run[k].timingOn
  {
    TimingSafeThroughout(run, readings, n);
    TimingSafeThroughout(run, readings, n - 1);
    TimingStep(run[n - 1], readings[n - 1]);
    if run[n - 1].timingOn {
      i := TimingOnHasCause(run, readings, n - 1);
    } else {
      i := n - 1;
    }
  }

  lemma {:induction false} TimingSafeThroughout(run: seq<Control>, readings: seq<Reading>, n: nat)
    requires IsServoRun(run, readings) && n < |run| && TimingSafe(run[0])
    requires forall k :: 0 <= k < |readings| ==> -0x8000_0000 < readings[k].hw.phase
    ensures TimingSafe(run[n])
  {
    if n > 0 {
      TimingSafeThroughout(run, readings, n - 1);
      TimingStep(run[n - 1], readings[n - 1]);
    }
  }

  // ----- the phase setpoint follows the link delay -----

  /** Setpoint minus the delay it was computed for, modulo 2^32. */
  function Anchor(c: Control): int32 {
    ToInt32(c.setpoint - c.deltaMsPrev)
  }

  lemma AnchorStep(c: Control, r: Reading)
    requires c.state != SYNC_PHASE
    ensures Anchor(ServoStep(c, r).0) == Anchor(c)
  {
  }

  /** Since the last SYNC_PHASE, the setpoint has moved by exactly the change of the delay; no
      modulus is involved as long as the sum is a 32-bit value. */
  lemma {:induction false} SetpointTracksDelay(run: seq<Control>, readings: seq<Reading>, i: nat, n: nat)
    requires IsServoRun(run, readings) && i <= n < |run|
    requires forall k :: i <= k < n ==> run[k].state != SYNC_PHASE
    ensures Anchor(run[n]) == Anchor(run[i])
    ensures var moved := run[i].setpoint + (run[n].deltaMsPrev - run[i].deltaMsPrev);
            -0x8000_0000 <= moved < 0x8000_0000 ==> run[n].setpoint == moved
    decreases n
  {
    if i < n {
      SetpointTracksDelay(run, readings, i, n - 1);
      AnchorStep(run[n - 1], readings[n - 1]);
    }
    SameAnchor(run[i], run[n]);
  }

  lemma SameAnchor(c: Control, d: Control)
    requires Anchor(c) == Anchor(d)
    ensures var moved := c.setpoint + (d.deltaMsPrev - c.deltaMsPrev);
            -0x8000_0000 <= moved < 0x8000_0000 ==> d.setpoint == moved
  {
    var x, y := c.setpoint - c.deltaMsPrev, d.setpoint - d.deltaMsPrev;
    var k := (x + 0x8000_0000) / TWO32 - (y + 0x8000_0000) / TWO32;
    assert x - y == k * TWO32;
    var moved := c.setpoint + (d.deltaMsPrev - c.deltaMsPrev);
    if -0x8000_0000 <= moved < 0x8000_0000 {
      SmallMultiple(k, TWO32);
    }
  }

  /** An update that tracks: the new setpoint differs from the old one by the change of the delay since the
      last phase command, is the only thing sent to the hardware, and this delay is now the reference. */
  lemma TrackingUpdate(c: Control, r: Reading)
    requires c.state == TRACK_PHASE && r.tracking
    ensures var (d, commands) := ServoStep(c, r);
            && commands == [AdjustPhase(d.setpoint)]
            && d.deltaMsPrev == r.deltaMs
            && ToInt32(d.setpoint - c.setpoint) == ToInt32(r.deltaMs - c.deltaMsPrev)
            && d.state == WAIT_SYNC_IDLE && d.next == TRACK_PHASE
  {
    var moved := c.setpoint + (r.deltaMs - c.deltaMsPrev);
    hide ToInt32;
    ToInt32Once(moved, c.setpoint);
  }

  /** An update in TRACK_PHASE that does not track sends nothing and keeps setpoint and reference; it goes back
      to SYNC_TAI exactly when the offset is a cycle or more. */
  lemma UntrackedUpdate(c: Control, r: Reading)
    requires c.state == TRACK_PHASE && !r.tracking
    ensures var (d, commands) := ServoStep(c, r);
            && commands == [] && d.setpoint == c.setpoint && d.deltaMsPrev == c.deltaMsPrev && d.missed == c.missed
            && d.state == (if WholeCyclesZero(r.hw) then TRACK_PHASE else SYNC_TAI)
  {
  }

  /** The update in SYNC_PHASE takes out all that is left of the offset and makes its delay the reference. */
  lemma PhaseUpdate(c: Control, r: Reading)
    requires c.state == SYNC_PHASE
    ensures var (d, commands) := ServoStep(c, r);
            && commands == [AdjustPhase(d.setpoint)]
            && d.deltaMsPrev == r.deltaMs && d.setpoint == ToInt32(r.hw.phase + 1000 * r.hw.nsec)
            && d.state == WAIT_SYNC_IDLE && d.next == WAIT_OFFSET_STABLE
  {
  }

  /** Main result for tracking: from an update in SYNC_PHASE to any later one that tracks, the setpoint sent
      to the hardware has moved by exactly the change of the measured link delay between those two
      readings, whatever came in between. */
  lemma SetpointFollowsDelay(run: seq<Control>, readings: seq<Reading>, i: nat, n: nat)
    requires IsServoRun(run, readings) && i < n < |readings|
    requires run[i].state == SYNC_PHASE && forall k :: i < k <= n ==> run[k].state != SYNC_PHASE
    requires run[n].state == TRACK_PHASE && readings[n].tracking
    ensures ServoStep(run[i], readings[i]).1 == [AdjustPhase(run[i + 1].setpoint)]
    ensures ServoStep(run[n], readings[n]).1 == [AdjustPhase(run[n + 1].setpoint)]
    ensures ToInt32(run[n + 1].setpoint - readings[n].deltaMs) == ToInt32(run[i + 1].setpoint - readings[i].deltaMs)
    ensures var moved := run[i + 1].setpoint + (readings[n].deltaMs - readings[i].deltaMs);
            -0x8000_0000 <= moved < 0x8000_0000 ==> run[n + 1].setpoint == moved
  {
    hide ServoStep, ToInt32;
    PhaseUpdate(run[i], readings[i]);
    TrackingUpdate(run[n], readings[n]);
    SetpointTracksDelay(run, readings, i + 1, n + 1);
  }

  // ----- loss of lock -----

  /** Exactly when the timing output is on after an update: just found on target, or on before with the
      PLL locked and no return to SYNC_TAI. */
  lemma TimingOutputExactlyWhen(c: Control, r: Reading)
    requires -0x8000_0000 < r.hw.phase
    ensures ServoStep(c, r).0.timingOn <==>
            || (c.state == WAIT_OFFSET_STABLE && OnTarget(r.hw))
            || (c.timingOn && r.locked && c.state != SYNC_TAI)
  {
  }

  /** A restart is requested exactly when one was requested before the run, or the PLL was found out of
      lock; the request is never taken back. */
  lemma {:induction false} RestartExactlyWhen(run: seq<Control>, readings: seq<Reading>, n: nat)
    requires IsServoRun(run, readings) && n < |run|
    ensures run[n].doRestart <==> run[0].doRestart || exists k :: 0 <= k < n && !readings[k].locked
  {
    if n > 0 {
      RestartExactlyWhen(run, readings, n - 1);
      RestartStep(run[n - 1], readings[n - 1]);
    }
  }

  lemma RestartStep(c: Control, r: Reading)
    ensures ServoStep(c, r).0.doRestart <==> c.doRestart || !r.locked
  {
  }

  /** What SYNC_PHASE anchors the setpoint to. */
  lemma SyncPhaseAnchors(c: Control, r: Reading)
    requires c.state == SYNC_PHASE
    ensures Anchor(ServoStep(c, r).0) == ToInt32(r.hw.phase + r.hw.nsec * 1000 - r.deltaMs)
  {
    hide ToInt32;
    ToInt32Once(r.hw.phase + r.hw.nsec * 1000, r.deltaMs);
  }

  // ----- misses -----

  /** After ten misses the servo can never settle: even a check that succeeds is overridden, and
      leaves the timing output on in SYNC_TAI. Only `wr_servo_init` clears the count. */
  lemma MissesAreFinal(c: Control, r: Reading)
    requires MAX_MISSED <= c.missed
    ensures var d := ServoStep(c, r).0;
            && MAX_MISSED <= d.missed
            && (c.state == WAIT_OFFSET_STABLE ==> d.state == SYNC_TAI)
            && (d.state == TRACK_PHASE ==>
                  c.state == TRACK_PHASE || (c.state == WAIT_SYNC_IDLE && c.next == TRACK_PHASE))
  {
  }
}
