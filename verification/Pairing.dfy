/** Timestamp pairing (PTPWRd/protocol.c:948-1257, 1690-1763; delay request-response, section 11.3
    of IEEE 1588-2008): the handlers of a master and a slave as functions on their fields. */
module Pairing {
  import opened CTypes
  import opened WrTime
  import opened LinkModel
  import Servo
  import Codec
  import Bmc
  import W = WrFsm

  const INT_MAX: uint32 := 0x7FFF_FFFF

  /** Seconds and nanoseconds as a message carries them. */
  datatype WireTime = WireTime(sec: uint32, nsec: uint32)

  datatype FollowUp = FollowUp(seqId: uint16, origin: WireTime)
  datatype DelayResp = DelayResp(seqId: uint16, receipt: WireTime, cf: int32)

  function OnWire(t: WrTimestamp): WireTime {
    WireTime(t.sec % TWO32, t.nsec % TWO32)
  }

  /** `toInternalTime` with the given phase; from 2038 on the result is what memory held before. */
  function FromWire(w: WireTime, phase: int32, junk: WrTimestamp): WrTimestamp {
    if w.sec < INT_MAX then WrTimestamp(w.sec, ToInt32(w.nsec), phase) else junk.(phase := phase)
  }

  /** A stamp as the 32-bit time members of a port keep it. */
  function Kept(t: WrTimestamp): WrTimestamp {
    t.(sec := ToInt32(t.sec))
  }

  // ---------- slave ----------

  /** The part of the servo that the handlers write. */
  datatype Measure = Measure(stamps: Stamps, ok1: bool, ok2: bool, ok3: bool, ok4: bool, gotSync: bool)

  predicate Ready(m: Measure) {
    m.gotSync && m.ok1 && m.ok2 && m.ok3 && m.ok4
  }

  datatype Slave = Slave(syncRx: WrTimestamp, syncRxOk: bool, waiting: bool, recvSeq: uint16,
                         sentReq: uint16, reqTx: WrTimestamp, reqTxOk: bool, m: Measure)

  /** `handleSync` on a Sync of the current parent. */
  function HearSync(s: Slave, seqId: uint16, twoStep: bool, rx: WrTimestamp, ok: bool): Slave {
    var r := s.(syncRx := Kept(rx), syncRxOk := ok);
    if twoStep then r.(waiting := true, recvSeq := seqId) else r.(waiting := false)
  }

  /** `issueDelayReq`; the transmission stamp is stored whether or not the message was sent. */
  function Request(s: Slave, sent: bool, tx: WrTimestamp, ok: bool): Slave {
    s.(reqTx := tx, reqTxOk := ok, sentReq := if sent then (s.sentReq + 1) % TWO16 else s.sentReq)
  }

  predicate AcceptsFollowUp(s: Slave, f: FollowUp) {
    s.waiting && s.recvSeq == f.seqId
  }

  /** `handleFollowUp`: a matching one completes t1 and t2 and triggers a request. */
  function HearFollowUp(s: Slave, f: FollowUp, junk: WrTimestamp, sent: bool, tx: WrTimestamp, ok: bool): Slave {
    if !AcceptsFollowUp(s, f) then s
    else
      var st := s.m.stamps.(t1 := FromWire(f.origin, 0, junk), t2 := s.syncRx);
      var m := s.m.(stamps := st, ok1 := true, ok2 := s.syncRxOk, gotSync := true);
      Request(s.(waiting := false, m := m), sent, tx, ok)
  }

  /** The difference is an `int`, so a counter that wrapped to 0 matches no response. */
  predicate AcceptsResp(s: Slave, d: DelayResp) {
    s.sentReq as int - 1 == d.seqId
  }

  /** `wr_servo_got_delay` with what a response carries. */
  function Measured(s: Slave, d: DelayResp, junk: WrTimestamp): Measure {
    var t4 := FromWire(d.receipt, Servo.CfToPhase(d.cf), junk);
    s.m.(stamps := s.m.stamps.(t3 := s.reqTx, t4 := t4), ok3 := s.reqTxOk, ok4 := true)
  }

  /** `handleDelayResp`; an update that finds everything ready consumes the Sync half. */
  function HearDelayResp(s: Slave, d: DelayResp, junk: WrTimestamp): Slave {
    if !AcceptsResp(s, d) then s
    else
      var m := Measured(s, d, junk);
      s.(m := m.(gotSync := m.gotSync && !Ready(m)))
  }

  /** The four stamps that `wr_servo_update` computes with on this response, if it does. */
  function Used(s: Slave, d: DelayResp, junk: WrTimestamp): Option<Stamps> {
    if AcceptsResp(s, d) && Ready(Measured(s, d, junk)) then Some(Measured(s, d, junk).stamps) else None
  }

  /** `toState(PTP_SLAVE)`: no Follow_Up is awaited, and a servo that could be initialised has no Sync. */
  function EnterSlave(s: Slave, servoOk: bool): Slave {
    s.(waiting := false, m := s.m.(gotSync := s.m.gotSync && !servoOk))
  }

  // ---------- master ----------

  datatype Master = Master(sentSync: uint16, syncTx: WrTimestamp, syncTxOk: bool)

  /** `issueSync`. */
  function SyncSent(m: Master, sent: bool, tx: WrTimestamp, ok: bool): Master {
    Master(if sent then (m.sentSync + 1) % TWO16 else m.sentSync, tx, ok)
  }

  /** `issueFollowup`: the counter has already moved past the Sync that is meant. */
  function FollowUpOf(m: Master): FollowUp {
    FollowUp((m.sentSync - 1) % TWO16, OnWire(m.syncTx))
  }

  /** The answer to a request: its sequence number, when it came, and the phase in the correction field. */
  function RespTo(seqId: uint16, rx: WrTimestamp): DelayResp {
    DelayResp(seqId, OnWire(rx), Codec.PhaseToCf(rx.phase))
  }

  // ---------- the objects ----------

  ghost function MeasureOf(servo: Servo.WrServo): Measure
    reads servo
  {
    Measure(servo.stamps, servo.t1Correct, servo.t2Correct, servo.t3Correct, servo.t4Correct, servo.gotSync)
  }

  /** What `wr_servo_update` makes of four stamps. */
  ghost function Computed(servo: Servo.WrServo, s: Stamps, locked: bool, busy: bool, tracking: bool, phAdjust: int32):
    (Servo.Control, seq<Servo.Command>)
    requires Servo.UpdateFits(s, servo.deltas, servo.fiberFixAlpha, servo.clockPeriodPs, phAdjust)
    reads servo
  {
    Servo.Outcome(servo.Snap(), s, servo.deltas, servo.fiberFixAlpha, servo.clockPeriodPs, phAdjust,
                  locked, busy, tracking)
  }

  class SlavePort {
    const servo: Servo.WrServo
    const identity: Bmc.PortIdentity
    var portState: W.PtpState
    var wrMode: W.WrMode
    var parent: Bmc.PortIdentity
    var syncReceiveTime: WrTimestamp
    var syncReceiveOk: bool
    var waitingForFollow: bool
    var recvSyncSequenceId: uint16
    var sentDelayReqSequenceId: uint16
    var delayReqTxTs: WrTimestamp
    var delayReqTxOk: bool

    ghost function Snap(): Slave
      reads this, servo
    {
      Slave(syncReceiveTime, syncReceiveOk, waitingForFollow, recvSyncSequenceId, sentDelayReqSequenceId,
            delayReqTxTs, delayReqTxOk, MeasureOf(servo))
    }

    /** The port listens to event messages of its parent, and this is one. */
    predicate Heeds(source: Bmc.PortIdentity)
      reads this
    {
      && (portState == W.SLAVE || (portState == W.UNCALIBRATED && wrMode.NonWr?))
      && source != identity && source == parent
    }

    /** A response to this port from its parent. */
    predicate HeedsResp(source: Bmc.PortIdentity, requesting: Bmc.PortIdentity)
      reads this
    {
      portState == W.SLAVE && requesting == identity && source == parent
    }

    constructor (servo: Servo.WrServo, identity: Bmc.PortIdentity)
      ensures this.servo == servo && this.identity == identity
      ensures Snap().sentReq == 0 && !Snap().waiting && !Snap().reqTxOk
    {
      this.servo, this.identity := servo, identity;
      portState, wrMode, parent := W.INITIALIZING, W.NonWr, identity;
      syncReceiveTime, syncReceiveOk, waitingForFollow, recvSyncSequenceId := WrTimestamp(0, 0, 0), false, false, 0;
      sentDelayReqSequenceId, delayReqTxTs, delayReqTxOk := 0, WrTimestamp(0, 0, 0), false;
    }

    method HandleSync(source: Bmc.PortIdentity, seqId: uint16, twoStep: bool, rx: WrTimestamp, ok: bool)
      modifies this`syncReceiveTime, this`syncReceiveOk, this`waitingForFollow, this`recvSyncSequenceId
      ensures Snap() == if old(portState == W.SLAVE || (portState == W.UNCALIBRATED && wrMode.NonWr?))
                           && old(parent) == source != identity
                        then HearSync(old(Snap()), seqId, twoStep, rx, ok) else old(Snap())
    {
      if !Heeds(source) {
        return;
      }
      syncReceiveTime, syncReceiveOk := rx.(sec := ToInt32(rx.sec)), ok;
      if twoStep {
        waitingForFollow := true;
        recvSyncSequenceId := seqId;
      } else {
        waitingForFollow := false;
      }
    }

    method BecomeSlave(calibration: Option<(int32, int32)>, otherTx: W.FixedDelta, otherRx: W.FixedDelta,
                       ownTx: W.FixedDelta, ownRx: W.FixedDelta)
      modifies this`portState, this`waitingForFollow, servo
      ensures portState == W.SLAVE && Snap() == EnterSlave(old(Snap()), calibration.Some?)
    {
      var _ := servo.Init(calibration, otherTx, otherRx, ownTx, ownRx);
      waitingForFollow := false;
      portState := W.SLAVE;
    }

    method IssueDelayReq(sent: bool, tx: WrTimestamp, ok: bool) returns (seqId: uint16)
      modifies this`delayReqTxTs, this`delayReqTxOk, this`sentDelayReqSequenceId
      ensures Snap() == Request(old(Snap()), sent, tx, ok) && seqId == old(sentDelayReqSequenceId)
    {
      seqId := sentDelayReqSequenceId;
      delayReqTxTs, delayReqTxOk := tx, ok;
      if sent {
        sentDelayReqSequenceId := (sentDelayReqSequenceId + 1) % TWO16;
      }
    }

    method HandleFollowUp(source: Bmc.PortIdentity, f: FollowUp, junk: WrTimestamp,
                          sent: bool, tx: WrTimestamp, ok: bool)
      modifies this`waitingForFollow, this`delayReqTxTs, this`delayReqTxOk, this`sentDelayReqSequenceId, servo
      ensures Snap() == if old(portState == W.SLAVE || (portState == W.UNCALIBRATED && wrMode.NonWr?))
                           && old(parent) == source != identity
                        then HearFollowUp(old(Snap()), f, junk, sent, tx, ok) else old(Snap())
    {
      if Heeds(source) && waitingForFollow && recvSyncSequenceId == f.seqId {
        waitingForFollow := false;
        servo.GotSync(FromWire(f.origin, 0, junk), syncReceiveTime, syncReceiveOk);
        var _ := IssueDelayReq(sent, tx, ok);
      }
    }

    /** The accepted part of `handleDelayResp`. */
    method TakeDelayResp(d: DelayResp, junk: WrTimestamp, locked: bool, busy: bool, tracking: bool, phAdjust: int32)
      returns (commands: seq<Servo.Command>)
      requires var m := Measured(Snap(), d, junk);
               Ready(m) ==> Servo.UpdateFits(m.stamps, servo.deltas, servo.fiberFixAlpha, servo.clockPeriodPs, phAdjust)
      modifies servo
      ensures var m := Measured(old(Snap()), d, junk);
              && MeasureOf(servo) == m.(gotSync := m.gotSync && !Ready(m))
              && (servo.Snap(), commands) ==
                 if Ready(m) then old(Computed(servo, m.stamps, locked, busy, tracking, phAdjust))
                 else (old(servo.Snap()), [])
    {
      hide Servo.UpdateFits, Servo.Outcome, Servo.ServoStep;
      var t4 := FromWire(d.receipt, 0, junk);
      servo.GotDelay(delayReqTxTs, delayReqTxOk, t4.sec, t4.nsec, d.cf);
      commands := servo.Update(locked, busy, tracking, phAdjust);
    }

    /** `handleDelayResp`: the servo steps on exactly the stamps of `Used`. */
    method HandleDelayResp(source: Bmc.PortIdentity, requesting: Bmc.PortIdentity, d: DelayResp, junk: WrTimestamp,
                           locked: bool, busy: bool, tracking: bool, phAdjust: int32)
      returns (commands: seq<Servo.Command>)
      requires var used := if HeedsResp(source, requesting) then Used(Snap(), d, junk) else None;
               used.Some? ==>
                 Servo.UpdateFits(used.value, servo.deltas, servo.fiberFixAlpha, servo.clockPeriodPs, phAdjust)
      modifies servo
      ensures Snap() == if portState == W.SLAVE && requesting == identity && source == parent
                        then HearDelayResp(old(Snap()), d, junk) else old(Snap())
      ensures var used := if HeedsResp(source, requesting) then Used(old(Snap()), d, junk) else None;
              (servo.Snap(), commands) ==
              if used.Some? then old(Computed(servo, used.value, locked, busy, tracking, phAdjust))
              else (old(servo.Snap()), [])
    {
      hide Servo.UpdateFits, Servo.Outcome, Servo.ServoStep;
      commands := [];
      if HeedsResp(source, requesting) && sentDelayReqSequenceId as int - 1 == d.seqId {
        commands := TakeDelayResp(d, junk, locked, busy, tracking, phAdjust);
      }
    }
  }

  class MasterPort {
    var sentSyncSequenceId: uint16
    var synchTxTs: WrTimestamp
    var synchTxOk: bool

    ghost function Snap(): Master
      reads this
    {
      Master(sentSyncSequenceId, synchTxTs, synchTxOk)
    }

    method IssueSync(sent: bool, tx: WrTimestamp, ok: bool) returns (seqId: uint16)
      modifies this
      ensures Snap() == SyncSent(old(Snap()), sent, tx, ok) && seqId == old(sentSyncSequenceId)
    {
      seqId := sentSyncSequenceId;
      synchTxTs, synchTxOk := tx, ok;
      if sent {
        sentSyncSequenceId := (sentSyncSequenceId + 1) % TWO16;
      }
    }

    /** The expiry of the Sync timer: a Follow_Up goes out only with a correct stamp. */
    method SyncTimer(sent: bool, tx: WrTimestamp, ok: bool) returns (seqId: uint16, followUp: Option<FollowUp>)
      modifies this
      ensures Snap() == SyncSent(old(Snap()), sent, tx, ok) && seqId == old(sentSyncSequenceId)
      ensures followUp == if ok then Some(FollowUpOf(Snap())) else None
    {
      seqId := IssueSync(sent, tx, ok);
      followUp := None;
      if synchTxOk {
        followUp := Some(FollowUp((sentSyncSequenceId - 1) % TWO16, OnWire(synchTxTs)));
      }
    }
  }
}
