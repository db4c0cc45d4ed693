/** The White Rabbit servo (PTPWRd/dep/wr_servo.c:165-438): a six-state controller driven by one
    set of timestamps per update. */
module Servo {
  import opened CTypes
  import opened WrTime
  import opened LinkModel
  import WrFsm

  datatype ServoState = SYNC_NSEC | SYNC_TAI | SYNC_PHASE | TRACK_PHASE | WAIT_SYNC_IDLE | WAIT_OFFSET_STABLE

  const STABILITY_THRESHOLD: int := 60
  const MAX_MISSED: int := 10

  /** What the servo tells the hardware. */
  datatype Command = AdjustCounters(sec: int64, nsec: int32) | AdjustPhase(ps: int32)

  /** Control state; `timingOn` is the last value given to `ptpd_netif_enable_timing_output`. */
  datatype Control = Control(state: ServoState, next: ServoState, setpoint: int32, missed: nat,
                             deltaMs: int64, deltaMsPrev: int64, timingOn: bool, doRestart: bool)

  /** What one update sees: the hardwarized offset, the one-way delay, and three polls. */
  datatype Reading = Reading(hw: WrTimestamp, deltaMs: int64, locked: bool, busy: bool, tracking: bool)

  /** C's `abs`, whose argument is an `int` and which leaves the smallest one as it is. */
  function Abs32(x: int32): int32 {
    if x < 0 && x != -0x8000_0000 then -x else x
  }

  predicate WholeCyclesZero(t: WrTimestamp) {
    t.sec == 0 && t.nsec == 0
  }

  /** Effects common to all states. */
  function Observe(c: Control, r: Reading): Control {
    c.(deltaMs := r.deltaMs, timingOn := c.timingOn && r.locked, doRestart := c.doRestart || !r.locked)
  }

  function WaitFor(c: Control, next: ServoState): Control {
    c.(next := next, state := WAIT_SYNC_IDLE)
  }

  function OnSyncTai(c: Control, r: Reading): (Control, seq<Command>) {
    var off := c.(timingOn := false);
    if r.hw.sec != 0 then (WaitFor(off, SYNC_NSEC), [AdjustCounters(r.hw.sec, 0), AdjustPhase(0)])
    else (off.(state := SYNC_NSEC), [])
  }

  function OnSyncNsec(c: Control, r: Reading): (Control, seq<Command>) {
    if r.hw.nsec != 0 then (WaitFor(c, SYNC_NSEC), [AdjustCounters(0, r.hw.nsec)])
    else (c.(state := SYNC_PHASE), [])
  }

  function OnSyncPhase(c: Control, r: Reading): (Control, seq<Command>) {
    var sp := ToInt32(r.hw.phase + r.hw.nsec * 1000);
    (WaitFor(c.(setpoint := sp, deltaMsPrev := c.deltaMs), WAIT_OFFSET_STABLE), [AdjustPhase(sp)])
  }

  /** The check of the miss counter comes last and overrides what was decided before. */
  function OnWaitStable(c: Control, r: Reading): Control {
    var c1 := if !WholeCyclesZero(r.hw) then c.(state := SYNC_TAI)
              else if Abs32(ToInt32(Picos(r.hw))) < STABILITY_THRESHOLD then c.(timingOn := true, state := TRACK_PHASE)
              else c.(missed := c.missed + 1);
    if c1.missed >= MAX_MISSED then c1.(state := SYNC_TAI) else c1
  }

  /** With tracking enabled, the fallback to SYNC_TAI is overridden. */
  function OnTrackPhase(c: Control, r: Reading): (Control, seq<Command>) {
    if r.tracking then
      var sp := ToInt32(c.setpoint + (c.deltaMs - c.deltaMsPrev));
      (WaitFor(c.(setpoint := sp, deltaMsPrev := c.deltaMs), TRACK_PHASE), [AdjustPhase(sp)])
    else if !WholeCyclesZero(r.hw) then (c.(state := SYNC_TAI), [])
    else (c, [])
  }

  /** One update of the control state. */
  function ServoStep(c0: Control, r: Reading): (Control, seq<Command>) {
    var c := Observe(c0, r);
    match c.state
    case WAIT_SYNC_IDLE => (if r.busy then c else c.(state := c.next), [])
    case SYNC_TAI => OnSyncTai(c, r)
    case SYNC_NSEC => OnSyncNsec(c, r)
    case SYNC_PHASE => OnSyncPhase(c, r)
    case WAIT_OFFSET_STABLE => (OnWaitStable(c, r), [])
    case TRACK_PHASE => OnTrackPhase(c, r)
  }

  /** The fixed delay that `wr_servo_init` reads back from a scaled one. */
  function JoinDelta(d: WrFsm.FixedDelta): int32 {
    ToInt32(d.lsb / TWO16 + d.msb * TWO16)
  }

  /** A fixed delay survives the split into scaled picoseconds and the way back exactly when it
      is below 2^31 ps. */
  lemma DeltaSurvives(ps: uint64)
    ensures JoinDelta(WrFsm.SplitDelta(ps)) == ps <==> ps < 0x8000_0000
  {
    var lo, hi := ps % TWO16, (ps / TWO16) % TWO32;
    assert (ps * TWO16) % TWO32 == lo * TWO16 by {
      assert ps == (ps / TWO16) * TWO16 + lo;
      assert ps * TWO16 == (ps / TWO16) * TWO32 + lo * TWO16;
    }
  }

  /** The two halves are the delay in units of 2^-16 ps exactly when it is below 2^48 ps. */
  lemma DeltaIsScaled(ps: uint64)
    ensures var d := WrFsm.SplitDelta(ps);
            d.msb * TWO32 + d.lsb == ps * TWO16 <==> ps < 0x1_0000_0000_0000
  {
    var lo, hi := ps % TWO16, ps / TWO16;
    assert ps == hi * TWO16 + lo;
    DivUnique(ps * TWO16, TWO32, hi, lo * TWO16);
    if hi < TWO32 {
      assert hi % TWO32 == hi;
    }
  }

  /** No C type overflows on the way to the hardwarized offset. */
  ghost predicate UpdateFits(s: Stamps, d: Deltas, alpha: int32, period: int32, phAdjust: int32) {
    StampsFit(s)
    && var delay := DelayMs(Picos(Mu(s)), d, alpha, phAdjust);
       OffsetFits(s, delay) && HardwarizeFits(Offset(s, delay), period)
  }

  /** The control step that one update makes of four stamps. */
  ghost function Outcome(c: Control, s: Stamps, d: Deltas, alpha: int32, period: int32, phAdjust: int32,
                         locked: bool, busy: bool, tracking: bool): (Control, seq<Command>)
    requires UpdateFits(s, d, alpha, period, phAdjust)
  {
    var delay := DelayMs(Picos(Mu(s)), d, alpha, phAdjust);
    ServoStep(c, Reading(Hardwarize(Offset(s, delay), period), delay, locked, busy, tracking))
  }

  class WrServo {
    var state: ServoState
    var nextState: ServoState
    var curSetpoint: int32
    var missedIters: nat
    var deltaMs: int64
    var deltaMsPrev: int64
    var timingOutput: bool
    var doRestart: bool
    var deltas: Deltas
    var fiberFixAlpha: int32
    var clockPeriodPs: int32
    var stamps: Stamps
    var t2Correct: bool
    var t3Correct: bool
    var t1Correct: bool
    var t4Correct: bool
    var gotSync: bool

    ghost function Snap(): Control
      reads this
    {
      Control(state, nextState, curSetpoint, missedIters, deltaMs, deltaMsPrev, timingOutput, doRestart)
    }

    constructor ()
    {
      state, nextState, curSetpoint, missedIters := SYNC_TAI, SYNC_TAI, 0, 0;
      deltaMs, deltaMsPrev, timingOutput, doRestart := 0, 0, false, false;
      deltas, fiberFixAlpha, clockPeriodPs := Deltas(0, 0, 0, 0), 0, 8000;
      var z := WrTimestamp(0, 0, 0);
      stamps := Stamps(z, z, z, z);
      t1Correct, t2Correct, t3Correct, t4Correct, gotSync := false, false, false, false, false;
    }

    /** `wr_servo_init`; `calibration` is None when the calibration data cannot be read. */
    method Init(calibration: Option<(int32, int32)>, otherTx: WrFsm.FixedDelta, otherRx: WrFsm.FixedDelta,
                ownTx: WrFsm.FixedDelta, ownRx: WrFsm.FixedDelta) returns (ok: bool)
      modifies this`state, this`curSetpoint, this`missedIters, this`timingOutput, this`deltas, this`fiberFixAlpha,
               this`clockPeriodPs, this`gotSync
      ensures ok == calibration.Some?
      ensures !ok ==> Snap() == old(Snap()) && gotSync == old(gotSync)
      ensures ok ==>
                && Snap() == old(Snap()).(state := SYNC_TAI, setpoint := 0, missed := 0, timingOn := false)
                && deltas == Deltas(JoinDelta(otherTx), JoinDelta(otherRx), JoinDelta(ownTx), JoinDelta(ownRx))
                && fiberFixAlpha == calibration.value.0 && clockPeriodPs == calibration.value.1 && !gotSync
    {
      if calibration.None? {
        return false;
      }
      fiberFixAlpha, clockPeriodPs := calibration.value.0, calibration.value.1;
      timingOutput := false;
      state := SYNC_TAI;
      curSetpoint := 0;
      missedIters := 0;
      deltas := Deltas(JoinDelta(otherTx), JoinDelta(otherRx), JoinDelta(ownTx), JoinDelta(ownRx));
      gotSync := false;
      return true;
    }

    /** `wr_servo_got_sync`. */
    method GotSync(t1: WrTimestamp, t2: WrTimestamp, correct: bool)
      modifies this`stamps, this`t1Correct, this`t2Correct, this`gotSync
      ensures stamps == old(stamps).(t1 := t1, t2 := t2)
      ensures t1Correct && t2Correct == correct && gotSync
    {
      stamps := stamps.(t1 := t1);
      t1Correct := true;
      stamps := stamps.(t2 := t2);
      t2Correct := correct;
      gotSync := true;
    }

    /** `wr_servo_got_delay`; the phase of t4 comes in the correction field. */
    method GotDelay(delayReqTx: WrTimestamp, txCorrect: bool, sec: int64, nsec: int32, cf: int32)
      modifies this`stamps, this`t3Correct, this`t4Correct
      ensures stamps == old(stamps).(t3 := delayReqTx, t4 := WrTimestamp(sec, nsec, CfToPhase(cf)))
      ensures t3Correct == txCorrect && t4Correct
    {
      stamps := stamps.(t3 := delayReqTx);
      t3Correct := txCorrect;
      stamps := stamps.(t4 := WrTimestamp(sec, nsec, 0));
      t4Correct := true;
      stamps := stamps.(t4 := stamps.t4.(phase := TruncDiv(cf * 1000, 65536)));
    }

    ghost predicate Ready()
      reads this
    {
      gotSync && t1Correct && t2Correct && t3Correct && t4Correct
    }

    ghost predicate Fits(phAdjust: int32)
      reads this
    {
      UpdateFits(stamps, deltas, fiberFixAlpha, clockPeriodPs, phAdjust)
    }

    /** `wr_servo_update`. */
    method Update(locked: bool, busy: bool, tracking: bool, phAdjust: int32) returns (commands: seq<Command>)
      requires Ready() ==> Fits(phAdjust)
      modifies this`state, this`nextState, this`curSetpoint, this`missedIters, this`deltaMs, this`deltaMsPrev,
               this`timingOutput, this`doRestart, this`gotSync
      ensures !old(Ready()) ==> Snap() == old(Snap()) && gotSync == old(gotSync) && commands == []
      ensures old(Ready()) ==>
                && !gotSync
                && (Snap(), commands) == Outcome(old(Snap()), stamps, deltas, fiberFixAlpha, clockPeriodPs, phAdjust,
                                                 locked, busy, tracking)
    {
      hide DelayMs, Hardwarize, ServoStep, DiffTs, SumTs;
      commands := [];
      if !gotSync {
        return;
      }
      if !t1Correct || !t2Correct || !t3Correct || !t4Correct {
        return;
      }
      gotSync := false;
      var t41 := TsSub(stamps.t4, stamps.t1);
      var t32 := TsSub(stamps.t3, stamps.t2);
      var mu := TsSub(t41, t32);
      var delay := DelayMs(Picos(mu), deltas, fiberFixAlpha, phAdjust);
      var t12 := TsSub(stamps.t1, stamps.t2);
      var offset := TsAdd(t12, PicosToTs(delay));
      var hw := Hardwarize(offset, clockPeriodPs);
      commands := Steer(hw, delay, locked, busy, tracking);
    }

    /** The lock check and the switch of `wr_servo_update`. */
    method Steer(hw: WrTimestamp, delay: int64, locked: bool, busy: bool, tracking: bool)
      returns (commands: seq<Command>)
      modifies this`state, this`nextState, this`curSetpoint, this`missedIters, this`deltaMs, this`deltaMsPrev,
               this`timingOutput, this`doRestart
      ensures (Snap(), commands) == ServoStep(old(Snap()), Reading(hw, delay, locked, busy, tracking))
    {
      commands := [];
      deltaMs := delay;
      if !locked {
        timingOutput := false;
        doRestart := true;
      }
      match state {
        case WAIT_SYNC_IDLE =>
          if !busy {
            state := nextState;
          }
        case SYNC_TAI =>
          timingOutput := false;
          if hw.sec != 0 {
            commands := [AdjustCounters(hw.sec, 0), AdjustPhase(0)];
            nextState, state := SYNC_NSEC, WAIT_SYNC_IDLE;
          } else {
            state := SYNC_NSEC;
          }
        case SYNC_NSEC =>
          if hw.nsec != 0 {
            commands := [AdjustCounters(0, hw.nsec)];
            nextState, state := SYNC_NSEC, WAIT_SYNC_IDLE;
          } else {
            state := SYNC_PHASE;
          }
        case SYNC_PHASE =>
          curSetpoint := ToInt32(hw.phase + hw.nsec * 1000);
          commands := [AdjustPhase(curSetpoint)];
          nextState, state := WAIT_OFFSET_STABLE, WAIT_SYNC_IDLE;
          deltaMsPrev := deltaMs;
        case WAIT_OFFSET_STABLE =>
          if hw.sec != 0 || hw.nsec != 0 {
            state := SYNC_TAI;
          } else if Abs32(ToInt32(Picos(hw))) < STABILITY_THRESHOLD {
            timingOutput := true;
            state := TRACK_PHASE;
          } else {
            missedIters := missedIters + 1;
          }
          if missedIters >= MAX_MISSED {
            state := SYNC_TAI;
          }
        case TRACK_PHASE =>
          if hw.sec != 0 || hw.nsec != 0 {
            state := SYNC_TAI;
          }
          if tracking {
            curSetpoint := ToInt32(curSetpoint + (deltaMs - deltaMsPrev));
            commands := [AdjustPhase(curSetpoint)];
            deltaMsPrev := deltaMs;
            nextState, state := TRACK_PHASE, WAIT_SYNC_IDLE;
          }
      }
    }
  }

  /** A correction field in units of 2^-16 ns as a phase in picoseconds. */
  function CfToPhase(cf: int32): int32 {
    TruncDiv(cf * 1000, 65536)
  }
}
