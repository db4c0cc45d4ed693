/** Causality of the WR handshake on a point-to-point link that may lose, duplicate, delay and
    reorder messages but never forges one (PTPWRd/wr_protocol.c:282-597). */
module WrChain {
  import opened CTypes
  import opened WrFsm
  import opened WrCoupling

  /** What has happened at one node so far: the message kinds that reached it, whether it ever
      entered WR_LINK_ON, and whether it ever passed S_LOCK. */
  datatype History = History(got: set<MsgId>, linkOn: bool, passedLock: bool)

  ghost predicate Has(outbox: seq<WrMsg>, id: MsgId) {
    exists m :: m in outbox && IdOf(m) == id
  }

  lemma HasAppend(outbox: seq<WrMsg>, m: WrMsg)
    ensures forall id :: Has(outbox + [m], id) <==> Has(outbox, id) || IdOf(m) == id
  {
    assert m in outbox + [m];
    forall id | Has(outbox, id)
      ensures Has(outbox + [m], id)
    {
      var x :| x in outbox && IdOf(x) == id;
      assert x in outbox + [m];
    }
  }

  /** What is known at a node from its state: the messages that must have reached it, and what
      its own messages imply. */
  ghost predicate StateExplained(p: Port, h: History, master: bool) {
    && (p.fsm.msgId != NullTlv ==> p.fsm.msgId in h.got)
    && (p.fsm.wrState == M_LOCK ==> SlavePresentId in h.got)
    && (p.fsm.wrState in {S_LOCK, LOCKED} ==> LockId in h.got)
    && (p.fsm.wrState == LOCKED ==> h.passedLock)
    && (p.fsm.wrState == CALIBRATION ==> (if master then LockedId else CalibratedId) in h.got)
    && (p.fsm.wrState == RESP_CALIB_REQ && 2 <= p.fsm.sub ==> CalibratedId in h.got)
    && (p.fsm.wrState == WR_LINK_ON ==> h.linkOn)
  }

  ghost predicate SendsExplained(outbox: seq<WrMsg>, h: History, master: bool) {
    && (h.linkOn ==> (if master then CalibratedId else WrModeOnId) in h.got)
    && (h.passedLock ==> LockId in h.got)
    && (Has(outbox, WrModeOnId) ==> master && h.linkOn)
    && (Has(outbox, CalibratedId) ==> (if master then LockedId else CalibratedId) in h.got)
    && (Has(outbox, LockedId) ==> !master && h.passedLock)
    && (Has(outbox, LockId) ==> master && SlavePresentId in h.got)
    && (Has(outbox, SlavePresentId) ==> !master)
  }

  /** A node whose WR FSM only ever plays one role. The PTP state may be any that goes with it. */
  predicate RoleShape(p: Port, master: bool) {
    if master then
      && p.fsm.portState != UNCALIBRATED
      && p.fsm.wrMode != WrSlave
      && (p.fsm.wrState != IDLE ==> p.fsm.wrMode == WrMaster && MasterPath(p.fsm.wrState)
                                    && p.fsm.portState in {MASTER, FAULTY})
    else
      && p.fsm.wrMode != WrMaster
      && p.fsm.msgId != SlavePresentId
      && (p.fsm.wrState != IDLE ==> p.fsm.wrMode == WrSlave && SlavePath(p.fsm.wrState)
                                    && p.fsm.portState == UNCALIBRATED)
  }

  /** The state decision makes the node enter WRS_PRESENT, that is, start a session as WR slave. */
  predicate EntersPresent(p: Port, env: Env)
    requires WellFormed(p)
  {
    p.fsm.wrState != PRESENT && Decide(p, env).fsm.wrState == PRESENT
  }

  /** The message received is SLAVE_PRESENT. */
  predicate HearsSlavePresent(rx: Rx) {
    rx.RxSignaling? && !rx.fromSelf && rx.msg == Some(SlavePresentMsg)
  }

  /** A node keeps its WR role: the master node never starts a session as slave, and the slave node
      is never asked to be master. */
  predicate KeepsRole(p: Port, env: Env, master: bool)
    requires WellFormed(p)
  {
    MayHear(env.rx, master) && (master ==> !EntersPresent(p, env))
  }

  predicate MayHear(rx: Rx, master: bool) {
    master || !HearsSlavePresent(rx)
  }

  ghost predicate Explained(p: Port, h: History, master: bool) {
    StateExplained(p, h, master) && SendsExplained(p.outbox, h, master)
  }

  ghost predicate NodeInv(p: Port, h: History, master: bool) {
    WellFormed(p) && RoleShape(p, master) && Explained(p, h, master)
  }

  function Hear(h: History, rx: Rx): History {
    if rx.RxSignaling? && !rx.fromSelf && rx.msg.Some? then h.(got := h.got + {IdOf(rx.msg.value)}) else h
  }

  /** The WR FSM runs in this step. */
  predicate RunsWrFsm(d: Port) {
    || (d.fsm.portState == UNCALIBRATED && d.fsm.wrMode == WrSlave)
    || (d.fsm.portState == MASTER && d.fsm.wrMode == WrMaster && d.fsm.wrState != IDLE)
  }

  /** History after the actions of the WR FSM took the port from `d` to `a`. */
  function Note(h: History, d: Port, a: Port): History {
    h.(linkOn := h.linkOn || a.fsm.wrState == WR_LINK_ON,
       passedLock := h.passedLock || (d.fsm.wrState == S_LOCK && a.fsm.wrState == LOCKED))
  }

  /** History after one step. */
  function Advance(h: History, p: Port, env: Env): History
    requires WellFormed(p)
  {
    var d := Decide(p, env);
    var heard := Hear(h, env.rx);
    if RunsWrFsm(d) then Note(heard, d, WrActions(d, env)) else heard
  }

  /** What must be known before a node may be in a main state. */
  predicate MayEnter(s: WrState, h: History, master: bool) {
    match s
    case IDLE => true
    case PRESENT => !master
    case S_LOCK => !master && LockId in h.got
    case LOCKED => !master && h.passedLock && LockId in h.got
    case M_LOCK => master && SlavePresentId in h.got
    case CALIBRATION => (if master then LockedId else CalibratedId) in h.got
    case CALIBRATED => true
    case RESP_CALIB_REQ => true
    case WR_LINK_ON => h.linkOn
  }

  /** The message sent on entering a main state, if any. */
  function EntryMsg(p: Port, s: WrState): Option<WrMsg> {
    match s
    case PRESENT => Some(SlavePresentMsg)
    case LOCKED => Some(LockedMsg)
    case M_LOCK => Some(LockMsg)
    case CALIBRATION => Some(CalibrateMsgOf(p))
    case WR_LINK_ON => if p.fsm.wrMode == WrMaster then Some(WrModeOnMsg) else None
    case _ => None
  }

  lemma SendKeeps(outbox: seq<WrMsg>, m: WrMsg, h: History, master: bool)
    requires SendsExplained(outbox, h, master)
    requires match IdOf(m)
             case SlavePresentId => !master
             case LockId => master && SlavePresentId in h.got
             case LockedId => !master && h.passedLock
             case CalibratedId => (if master then LockedId else CalibratedId) in h.got
             case WrModeOnId => master && h.linkOn
             case _ => true
    ensures SendsExplained(outbox + [m], h, master)
  {
    HasAppend(outbox, m);
  }

  /** Entering a state sends at most its entry message and keeps the mailbox. */
  lemma EntryFrame(p: Port, s: WrState, hw: Hw)
    requires WellFormed(p) && (s == S_LOCK ==> p.fsm.wrState in {PRESENT, S_LOCK})
    ensures var e := EnterWrState(p, s, hw);
            && (e.fsm.wrState == s || (s == S_LOCK && e.fsm.wrState == PRESENT))
            && (s == RESP_CALIB_REQ ==> e.fsm.sub <= 1)
            && e.fsm.msgId == p.fsm.msgId
            && (e.outbox == p.outbox || (EntryMsg(p, s).Some? && e.outbox == p.outbox + [EntryMsg(p, s).value]))
  {
  }

  lemma EnterExplained(p: Port, s: WrState, hw: Hw, h: History, master: bool)
    requires WellFormed(p) && Explained(p, h, master) && MayEnter(s, h, master)
    requires s == WR_LINK_ON ==> p.fsm.wrMode == (if master then WrMaster else WrSlave)
    requires s == S_LOCK ==> p.fsm.wrState in {PRESENT, S_LOCK}
    ensures Explained(EnterWrState(p, s, hw), h, master)
  {
    EntryFrame(p, s, hw);
    if EntryMsg(p, s).Some? {
      SendKeeps(p.outbox, EntryMsg(p, s).value, h, master);
    }
  }

  lemma MoveExplained(p: Port, s: WrState, hw: Hw, now: uint64, h: History, master: bool)
    requires WellFormed(p) && Explained(p, h, master) && MayEnter(s, h, master)
    requires s == WR_LINK_ON ==> p.fsm.wrState != IDLE && p.fsm.wrMode == (if master then WrMaster else WrSlave)
    requires s == S_LOCK ==> p.fsm.wrState in {PRESENT, S_LOCK}
    ensures Explained(ToWrState(p, s, hw, now), h, master)
  {
    var left := if p.fsm.wrState == IDLE then ReInitWrData(p, hw) else p;
    assert Explained(left, h, master);
    EnterExplained(left, s, hw, h, master);
  }

  lemma PresentIsEntered(p: Port, hw: Hw, now: uint64)
    requires WellFormed(p)
    ensures ToWrState(p, PRESENT, hw, now).fsm.wrState == PRESENT
  {
  }

  lemma IdleExplained(p: Port, h: History, master: bool, s: PtpState, hw: Hw, now: uint64)
    requires WellFormed(p) && Explained(p, h, master)
    requires master && s == UNCALIBRATED && p.fsm.wrState == IDLE ==> ToState(p, s, hw, now).fsm.wrState != PRESENT
    ensures Explained(ToState(p, s, hw, now), h, master)
  {
    hide SendsExplained, ToWrState;
    if p.fsm.wrState == IDLE {
      var left := LeavePtpState(p);
      assert Explained(left, h, master);
      if s == UNCALIBRATED {
        if WrSlaveCandidate(left) && !(left.parent.wrModeOn && left.fsm.wrModeOn) {
          assert ToState(p, s, hw, now) == ToWrState(left, PRESENT, hw, now).InPtp(UNCALIBRATED);
          PresentIsEntered(left, hw, now);
          MoveExplained(left, PRESENT, hw, now, h, master);
        }
      } else {
        assert ToState(p, s, hw, now) in {left, left.InPtp(s)};
      }
    }
  }

  lemma HearExplained(p: Port, h: History, rx: Rx, master: bool)
    requires Explained(p, h, master)
    ensures Explained(p, Hear(h, rx), master)
  {
  }

  lemma HandleExplained(p: Port, env: Env, h: History, master: bool)
    requires WellFormed(p) && Explained(p, h, master) && MayHear(env.rx, master)
    requires !master ==> p.fsm.msgId != SlavePresentId
    ensures Explained(Handle(p, env), Hear(h, env.rx), master)
  {
    hide SendsExplained, ToWrState;
    var h' := Hear(h, env.rx);
    HearExplained(p, h, env.rx, master);
    if env.rx.RxSignaling? && !env.rx.fromSelf {
      var q := if env.rx.msg.Some? then Accept(p, env.rx.msg.value) else p;
      assert Explained(q, h', master);
      if AnswersSlavePresent(q) {
        MoveExplained(q.(fsm := q.fsm.(wrMode := WrMaster)), M_LOCK, env.signalHw, env.now, h', master);
      }
    }
  }

  lemma DecideExplained(p: Port, env: Env, h: History, master: bool)
    requires NodeInv(p, h, master) && KeepsRole(p, env, master)
    ensures Explained(Decide(p, env), h, master)
  {
    if p.fsm.portState in {LISTENING, PASSIVE, SLAVE, MASTER} && env.decision.Some? && p.fsm.wrState == IDLE {
      var d := env.decision.value;
      var q := p.(fsm := p.fsm.(role := d.role), parent := d.parent);
      if d.state != p.fsm.portState {
        if d.state == SLAVE {
          IdleExplained(q.(fsm := q.fsm.(wrMode := WrSlave, wrModeOn := false)), h, master, UNCALIBRATED,
                        env.signalHw, env.now);
        } else {
          IdleExplained(q, h, master, d.state, env.signalHw, env.now);
        }
      } else if q.fsm.portState == SLAVE {
        IdleExplained(q, h, master, UNCALIBRATED, env.signalHw, env.now);
      }
    }
  }

  /** Entering a PTP state with an idle WR FSM. */
  lemma ToStateShape(p: Port, s: PtpState, hw: Hw, now: uint64, master: bool)
    requires WellFormed(p) && p.fsm.wrState == IDLE && p.fsm.wrMode != (if master then WrSlave else WrMaster)
    requires !master ==> p.fsm.msgId != SlavePresentId
    requires master ==> p.fsm.portState != UNCALIBRATED
    ensures var q := ToState(p, s, hw, now); RoleShape(q, master) && q.cfg == p.cfg
  {
  }

  /** Becoming WR slave by a decision: the one way to enter WRS_PRESENT. */
  lemma ToSlaveShape(p: Port, hw: Hw, now: uint64, master: bool)
    requires WellFormed(p) && p.fsm.wrState == IDLE && p.fsm.wrMode == WrSlave && !p.fsm.wrModeOn
    requires !master ==> p.fsm.msgId != SlavePresentId
    requires master ==> ToState(p, UNCALIBRATED, hw, now).fsm.wrState != PRESENT
    ensures var q := ToState(p, UNCALIBRATED, hw, now); RoleShape(q, master) && q.cfg == p.cfg
  {
  }

  lemma DecideShape(p: Port, env: Env, master: bool)
    requires WellFormed(p) && RoleShape(p, master) && KeepsRole(p, env, master)
    ensures RoleShape(Decide(p, env), master)
    ensures Decide(p, env).cfg == p.cfg
  {
    hide ToState;
    if p.fsm.portState in {LISTENING, PASSIVE, SLAVE, MASTER} && env.decision.Some? && p.fsm.wrState == IDLE {
      var d := env.decision.value;
      var q := p.(fsm := p.fsm.(role := d.role), parent := d.parent);
      if d.state != p.fsm.portState {
        if d.state == SLAVE {
          ToSlaveShape(q.(fsm := q.fsm.(wrMode := WrSlave, wrModeOn := false)), env.signalHw, env.now, master);
        } else {
          ToStateShape(q, d.state, env.signalHw, env.now, master);
        }
      } else {
        ToStateShape(q, UNCALIBRATED, env.signalHw, env.now, master);
      }
    }
  }

  /** The actions of the WR FSM keep every explanation, given the history they add to. */
  lemma ActionsExplained(p: Port, env: Env, h: History, master: bool)
    requires NodeInv(p, h, master) && p.fsm.wrState != IDLE && MayHear(env.rx, master)
    ensures var a := WrActions(p, env);
            Explained(a, Note(Hear(h, env.rx), p, a), master)
  {
    match p.fsm.wrState {
      case PRESENT => PresentExplained(p, env, h, master);
      case S_LOCK => LockExplained(p, env, h, master);
      case M_LOCK => AwaitExplained(p, env, h, master);
      case LOCKED => AwaitExplained(p, env, h, master);
      case CALIBRATION => CalibrationExplained(p, env, h, master);
      case CALIBRATED => CalibratedExplained(p, env, h, master);
      case RESP_CALIB_REQ => RespExplained(p, env, h, master);
      case WR_LINK_ON => LinkOnExplained(p, env, h, master);
    }
  }

  lemma HandleInRole(p: Port, env: Env, h: History, master: bool)
    requires NodeInv(p, h, master) && p.fsm.wrState != IDLE && MayHear(env.rx, master)
    ensures var q := Handle(p, env);
            && Explained(q, Hear(h, env.rx), master)
            && q.fsm.wrMode == p.fsm.wrMode
            && q.fsm.wrState in {p.fsm.wrState, M_LOCK}
            && (q.fsm.wrState != p.fsm.wrState ==> q.fsm.msgId == SlavePresentId && master)
            && (q.fsm.wrState == p.fsm.wrState != M_LOCK ==> q.fsm.sub == p.fsm.sub)
  {
    hide SendsExplained, TimeoutManage;
    HandleExplained(p, env, h, master);
    assert ToFaulty(p) == p;
  }

  lemma PresentExplained(p: Port, env: Env, h: History, master: bool)
    requires NodeInv(p, h, master) && p.fsm.wrState == PRESENT && MayHear(env.rx, master)
    ensures var a := DoPresent(p, env); Explained(a, Note(Hear(h, env.rx), p, a), master)
  {
    HandleInRole(p, env, h, master);
    var q := Handle(p, env);
    if q.fsm.msgId == LockId {
      MoveExplained(q, S_LOCK, env.enterHw, env.now, Hear(h, env.rx), master);
      EntryFrame(q, S_LOCK, env.enterHw);
    }
  }

  lemma LockExplained(p: Port, env: Env, h: History, master: bool)
    requires NodeInv(p, h, master) && p.fsm.wrState == S_LOCK
    ensures var a := DoSLock(p, env); Explained(a, Note(Hear(h, env.rx), p, a), master)
  {
    var h' := Hear(h, env.rx);
    var q := p.At(S_LOCK, LockProgress(p.fsm.sub, env.doHw));
    assert Explained(q, h', master);
    var n := h'.(passedLock := true);
    assert Explained(q, n, master);
    MoveExplained(q, LOCKED, env.enterHw, env.now, n, master);
    EntryFrame(q, LOCKED, env.enterHw);
  }

  lemma AwaitExplained(p: Port, env: Env, h: History, master: bool)
    requires NodeInv(p, h, master) && p.fsm.wrState in {M_LOCK, LOCKED} && MayHear(env.rx, master)
    ensures var a := WrActions(p, env); Explained(a, Note(Hear(h, env.rx), p, a), master)
  {
    HandleInRole(p, env, h, master);
    var q := Handle(p, env);
    var next := if p.fsm.wrState == M_LOCK then CALIBRATION else RESP_CALIB_REQ;
    if q.fsm.msgId == (if p.fsm.wrState == M_LOCK then LockedId else CalibrateId) {
      MoveExplained(q, next, env.enterHw, env.now, Hear(h, env.rx), master);
      EntryFrame(q, next, env.enterHw);
    }
  }

  lemma CalibrationExplained(p: Port, env: Env, h: History, master: bool)
    requires NodeInv(p, h, master) && p.fsm.wrState == CALIBRATION
    ensures var a := DoCalibration(p, env); Explained(a, Note(Hear(h, env.rx), p, a), master)
  {
    var h' := Hear(h, env.rx);
    var k := CalProgress(p.fsm.sub, env.doHw);
    var q := p.At(CALIBRATION, k).(cal := Measured(p.cal, p.fsm.sub, k, env.doHw));
    assert Explained(q, h', master);
    if k == 8 {
      SendKeeps(q.outbox, CalibratedMsgOf(q), h', master);
      var i := Issue(q, CalibratedMsgOf(q), env.doHw.sendOk);
      assert Explained(i, h', master);
      MoveExplained(i, CALIBRATED, env.enterHw, env.now, h', master);
      EntryFrame(i, CALIBRATED, env.enterHw);
    }
  }

  lemma CalibratedExplained(p: Port, env: Env, h: History, master: bool)
    requires NodeInv(p, h, master) && p.fsm.wrState == CALIBRATED && MayHear(env.rx, master)
    ensures var a := DoCalibrated(p, env); Explained(a, Note(Hear(h, env.rx), p, a), master)
  {
    HandleInRole(p, env, h, master);
    var h' := Hear(h, env.rx);
    var q := Handle(p, env);
    if q.fsm.msgId == CalibrateId && q.fsm.wrMode == WrMaster {
      MoveExplained(q, RESP_CALIB_REQ, env.enterHw, env.now, h', master);
      EntryFrame(q, RESP_CALIB_REQ, env.enterHw);
    } else if q.fsm.msgId == WrModeOnId && q.fsm.wrMode == WrSlave {
      EnterLinkOn(q, env, h', master);
    }
  }

  /** Entering WR_LINK_ON once its cause is known. */
  lemma EnterLinkOn(q: Port, env: Env, h: History, master: bool)
    requires WellFormed(q) && Explained(q, h, master) && q.fsm.wrState != IDLE
    requires q.fsm.wrMode == (if master then WrMaster else WrSlave)
    requires (if master then CalibratedId else WrModeOnId) in h.got
    ensures var a := ToWrState(q, WR_LINK_ON, env.enterHw, env.now);
            a.fsm.wrState == WR_LINK_ON && Explained(a, h.(linkOn := true), master)
  {
    var n := h.(linkOn := true);
    assert Explained(q, n, master);
    MoveExplained(q, WR_LINK_ON, env.enterHw, env.now, n, master);
    EntryFrame(q, WR_LINK_ON, env.enterHw);
  }

  lemma RespFinishExplained(p: Port, env: Env, h: History, master: bool)
    requires WellFormed(p) && p.fsm.wrState == RESP_CALIB_REQ && 2 <= p.fsm.sub && Explained(p, h, master)
    requires p.fsm.wrMode == (if master then WrMaster else WrSlave)
    ensures var a := RespFinish(p, env);
            && a.fsm.wrState in {RESP_CALIB_REQ, CALIBRATION, WR_LINK_ON}
            && Explained(a, h.(linkOn := h.linkOn || a.fsm.wrState == WR_LINK_ON), master)
  {
    var q := p.At(RESP_CALIB_REQ, 3);
    assert Explained(q, h, master);
    if master {
      EnterLinkOn(q, env, h, master);
    } else {
      MoveExplained(q, CALIBRATION, env.enterHw, env.now, h, master);
      EntryFrame(q, CALIBRATION, env.enterHw);
    }
  }

  lemma RespAwaitExplained(p: Port, env: Env, h: History, master: bool)
    requires NodeInv(p, h, master) && p.fsm.wrState == RESP_CALIB_REQ && p.fsm.sub == 1 && MayHear(env.rx, master)
    ensures var a := RespAwait(p, env); Explained(a, Note(Hear(h, env.rx), p, a), master)
  {
    HandleInRole(p, env, h, master);
    var q := Handle(p, env);
    if q.fsm.msgId == CalibratedId {
      RespFinishExplained(q.At(RESP_CALIB_REQ, if q.cal.otherSendPattern == 1 then 2 else 3), env,
                          Hear(h, env.rx), master);
    }
  }

  lemma RespExplained(p: Port, env: Env, h: History, master: bool)
    requires NodeInv(p, h, master) && p.fsm.wrState == RESP_CALIB_REQ && MayHear(env.rx, master)
    ensures var a := DoRespCalibReq(p, env); Explained(a, Note(Hear(h, env.rx), p, a), master)
  {
    if p.fsm.sub <= 1 {
      RespAwaitExplained(p.At(RESP_CALIB_REQ, 1), env, h, master);
      assert p.fsm.sub == 1 ==> p.At(RESP_CALIB_REQ, 1) == p;
      HearExplained(p, h, env.rx, master);
    } else {
      HearExplained(p, h, env.rx, master);
      RespFinishExplained(p, env, Hear(h, env.rx), master);
    }
  }

  lemma LinkOnExplained(p: Port, env: Env, h: History, master: bool)
    requires NodeInv(p, h, master) && p.fsm.wrState == WR_LINK_ON
    ensures var a := DoLinkOn(p, env); Explained(a, Note(Hear(h, env.rx), p, a), master)
  {
    var h' := Hear(h, env.rx);
    HearExplained(p, h, env.rx, master);
    MoveExplained(p, IDLE, env.enterHw, env.now, h', master);
    var q := ToWrState(p, IDLE, env.enterHw, env.now);
    IdleExplained(q, h', master, SLAVE, env.retryHw, env.now);
    IdleExplained(q, h', master, MASTER, env.retryHw, env.now);
  }

  /** Repeating a state repeats a message that was already explained; giving up sends nothing. */
  lemma TimeoutExplained(p: Port, env: Env, h: History, master: bool)
    requires WellFormed(p) && Explained(p, h, master)
    requires p.fsm.wrState != IDLE ==> RoleShape(p, master)
    ensures Explained(WrTimeout(p, env), h, master)
  {
    if TimedOut(p, env.now) {
      var r := PolledPort(p, env.now);
      assert Explained(r, h, master);
      MoveExplained(r, p.fsm.wrState, env.retryHw, env.now, h, master);
      AbandonExplained(r, env, h, master);
    }
  }

  lemma AbandonExplained(p: Port, env: Env, h: History, master: bool)
    requires WellFormed(p) && Explained(p, h, master)
    ensures Explained(Abandon(p, env), h, master)
  {
    var off := p.(fsm := p.fsm.(wrModeOn := false));
    MoveExplained(off, IDLE, env.retryHw, env.now, h, master);
    var idle := ToWrState(off, IDLE, env.retryHw, env.now);
    var next := if idle.cfg.disableFallback then DISABLED else if p.fsm.wrMode == WrMaster then MASTER else SLAVE;
    IdleExplained(idle, h, master, next, env.retryHw, env.now);
    assert Explained(InitWrData(ToState(idle, next, env.retryHw, env.now), env.retryHw), h, master);
  }

  /** A transition of a running WR FSM changes nothing but the WR state. */
  lemma MoveFrame(p: Port, s: WrState, hw: Hw, now: uint64)
    requires WellFormed(p) && p.fsm.wrState != IDLE
    ensures var q := ToWrState(p, s, hw, now);
            && q.fsm.wrState in {s, p.fsm.wrState} && q.cfg == p.cfg
            && q.fsm.portState == p.fsm.portState && q.fsm.wrMode == p.fsm.wrMode && q.fsm.msgId == p.fsm.msgId
            && (s != S_LOCK ==> q.fsm.wrState == s)
  {
  }

  /** An idle master that answers SLAVE_PRESENT. */
  lemma LockFrame(p: Port, hw: Hw, now: uint64)
    requires WellFormed(p) && p.fsm.wrState == IDLE && p.fsm.portState == MASTER && p.fsm.wrMode == WrMaster
    ensures var q := ToWrState(p, M_LOCK, hw, now);
            && q.fsm.wrState == M_LOCK && q.cfg == p.cfg
            && q.fsm.portState in {MASTER, FAULTY} && q.fsm.wrMode == WrMaster
  {
    var e := Issue(ReInitWrData(p, hw), LockMsg, hw.sendOk);
    assert e.fsm.portState in {MASTER, FAULTY} && e.fsm.wrMode == WrMaster;
  }

  lemma HandleShape(p: Port, env: Env, master: bool)
    requires WellFormed(p) && RoleShape(p, master) && MayHear(env.rx, master)
    ensures var h := Handle(p, env);
            && RoleShape(h, master) && h.cfg == p.cfg
            && (p.fsm.wrState != IDLE ==> h.fsm.portState == p.fsm.portState)
            && (h.fsm.wrState == p.fsm.wrState || (h.fsm.wrState == M_LOCK && p.fsm.portState == MASTER))
  {
    hide EnterWrState, TimeoutManage;
    if env.rx.RxSignaling? && !env.rx.fromSelf {
      var q := if env.rx.msg.Some? then Accept(p, env.rx.msg.value) else p;
      assert RoleShape(q, master) && q.cfg == p.cfg && q.fsm.wrState == p.fsm.wrState;
      if AnswersSlavePresent(q) {
        var r := q.(fsm := q.fsm.(wrMode := WrMaster));
        if r.fsm.wrState == IDLE {
          LockFrame(r, env.signalHw, env.now);
        } else {
          MoveFrame(r, M_LOCK, env.signalHw, env.now);
        }
      }
    }
  }

  /** Running the WR FSM keeps the node in its role. */
  lemma WrShape(p: Port, env: Env, master: bool)
    requires WellFormed(p) && RoleShape(p, master) && p.fsm.wrState != IDLE && MayHear(env.rx, master)
    ensures var a := WrActions(p, env); RoleShape(a, master) && a.cfg == p.cfg
  {
    hide Handle, ToWrState;
    HandleShape(p, env, master);
    var h := Handle(p, env);
    match p.fsm.wrState {
      case RESP_CALIB_REQ => RespShape(p, env, master);
      case CALIBRATION =>
        var k := CalProgress(p.fsm.sub, env.doHw);
        var q := p.At(CALIBRATION, k).(cal := Measured(p.cal, p.fsm.sub, k, env.doHw));
        MoveFrame(Issue(q, CalibratedMsgOf(q), env.doHw.sendOk), CALIBRATED, env.enterHw, env.now);
      case S_LOCK => MoveFrame(p.At(S_LOCK, 2), LOCKED, env.enterHw, env.now);
      case PRESENT => MoveFrame(h, S_LOCK, env.enterHw, env.now);
      case M_LOCK => MoveFrame(h, CALIBRATION, env.enterHw, env.now);
      case LOCKED => MoveFrame(h, RESP_CALIB_REQ, env.enterHw, env.now);
      case CALIBRATED =>
        MoveFrame(h, RESP_CALIB_REQ, env.enterHw, env.now);
        MoveFrame(h, WR_LINK_ON, env.enterHw, env.now);
      case WR_LINK_ON => LinkOnShape(p, env, master);
    }
  }

  lemma LinkOnShape(p: Port, env: Env, master: bool)
    requires WellFormed(p) && RoleShape(p, master) && p.fsm.wrState == WR_LINK_ON
    ensures var a := DoLinkOn(p, env); RoleShape(a, master) && a.cfg == p.cfg
  {
  }

  lemma RespShape(p: Port, env: Env, master: bool)
    requires WellFormed(p) && RoleShape(p, master) && p.fsm.wrState == RESP_CALIB_REQ && MayHear(env.rx, master)
    ensures var a := DoRespCalibReq(p, env); RoleShape(a, master) && a.cfg == p.cfg
  {
    if p.fsm.sub <= 1 {
      var q := p.At(RESP_CALIB_REQ, 1);
      assert p.fsm.sub == 1 ==> q == p;
      HandleShape(q, env, master);
      var h := Handle(q, env);
      if h.fsm.msgId == CalibratedId {
        RespFinishShape(h.At(RESP_CALIB_REQ, if h.cal.otherSendPattern == 1 then 2 else 3), env, master);
      }
    } else {
      RespFinishShape(p, env, master);
    }
  }

  lemma RespFinishShape(p: Port, env: Env, master: bool)
    requires WellFormed(p) && RoleShape(p, master) && p.fsm.wrState == RESP_CALIB_REQ && 2 <= p.fsm.sub
    ensures var a := RespFinish(p, env); RoleShape(a, master) && a.cfg == p.cfg
  {
    var r := p.At(RESP_CALIB_REQ, 3);
    MoveFrame(r, WR_LINK_ON, env.enterHw, env.now);
    MoveFrame(r, CALIBRATION, env.enterHw, env.now);
  }

  lemma TimeoutShape(p: Port, env: Env, master: bool)
    requires WellFormed(p) && RoleShape(p, master)
    ensures var q := WrTimeout(p, env); RoleShape(q, master) && q.cfg == p.cfg
  {
    hide ToWrState, Abandon, RetryBudget;
    if TimedOut(p, env.now) {
      var r := PolledPort(p, env.now);
      MoveFrame(r, p.fsm.wrState, env.retryHw, env.now);
      AbandonShape(r, env, master);
    }
  }

  lemma AbandonShape(p: Port, env: Env, master: bool)
    requires WellFormed(p) && RoleShape(p, master) && p.fsm.wrState != IDLE
    ensures var q := Abandon(p, env); RoleShape(q, master) && q.cfg == p.cfg
  {
    hide ToWrState;
    MoveFrame(p.(fsm := p.fsm.(wrModeOn := false)), IDLE, env.retryHw, env.now);
  }

  lemma ActShape(d: Port, env: Env, master: bool)
    requires WellFormed(d) && RoleShape(d, master) && MayHear(env.rx, master)
    ensures var q := Act(d, env); RoleShape(q, master) && q.cfg == d.cfg
  {
    hide Handle, WrTimeout, DoListening;
    if RunsWrFsm(d) {
      if d.fsm.wrState != IDLE {
        WrShape(d, env, master);
      }
      TimeoutShape(WrActions(d, env), env, master);
    } else {
      HandleShape(d, env, master);
      if d.fsm.portState in {LISTENING, PASSIVE, SLAVE} {
        ListeningShape(d, env, master);
      }
    }
  }

  lemma ListeningShape(d: Port, env: Env, master: bool)
    requires WellFormed(d) && RoleShape(d, master) && MayHear(env.rx, master)
    requires d.fsm.portState in {LISTENING, PASSIVE, SLAVE}
    ensures var q := DoListening(d, env); RoleShape(q, master) && q.cfg == d.cfg
  {
    hide Handle;
    HandleShape(d, env, master);
  }

  /** One step of one node keeps its invariant, whatever it hears. */
  lemma NodeStep(p: Port, env: Env, h: History, master: bool)
    requires NodeInv(p, h, master) && KeepsRole(p, env, master)
    ensures NodeInv(DoState(p, env), Advance(h, p, env), master)
  {
    hide Act, Decide, WrActions, Explained, RoleShape;
    DecideShape(p, env, master);
    DecideExplained(p, env, h, master);
    var d := Decide(p, env);
    ActShape(d, env, master);
    if RunsWrFsm(d) {
      RunningStep(d, env, h, master);
    } else {
      QuietStep(d, env, h, master);
    }
  }

  lemma IdleActs(d: Port, env: Env)
    requires WellFormed(d) && d.fsm.wrState == IDLE
    ensures WrActions(d, env) == d
  {
  }

  lemma RunningStep(d: Port, env: Env, h: History, master: bool)
    requires NodeInv(d, h, master) && RunsWrFsm(d) && MayHear(env.rx, master)
    ensures Explained(Act(d, env), Note(Hear(h, env.rx), d, WrActions(d, env)), master)
  {
    hide WrActions, WrTimeout, ToState, Handle, SendsExplained;
    var a := WrActions(d, env);
    if d.fsm.wrState == IDLE {
      IdleActs(d, env);
    }
    var n := Note(Hear(h, env.rx), d, a);
    HearExplained(d, h, env.rx, master);
    if d.fsm.wrState != IDLE {
      WrShape(d, env, master);
      ActionsExplained(d, env, h, master);
    }
    TimeoutExplained(a, env, n, master);
    assert Act(d, env) == ClearMsg(WrTimeout(a, env));
  }

  lemma QuietStep(d: Port, env: Env, h: History, master: bool)
    requires NodeInv(d, h, master) && !RunsWrFsm(d) && MayHear(env.rx, master)
    ensures Explained(Act(d, env), Hear(h, env.rx), master)
  {
    hide Handle, ToState, AnnounceTimeout, SendsExplained;
    var h' := Hear(h, env.rx);
    HearExplained(d, h, env.rx, master);
    HandleExplained(d, env, h, master);
    var r := Handle(d, env);
    match d.fsm.portState {
      case FAULTY => IdleExplained(d, h', master, INITIALIZING, env.retryHw, env.now);
      case UNCALIBRATED => IdleExplained(d, h', master, SLAVE, env.retryHw, env.now);
      case LISTENING =>
        IdleExplained(BecomeMaster(d), h', master, MASTER, env.retryHw, env.now);
        ListeningExplained(r, env, h', master);
      case PASSIVE => ListeningExplained(r, env, h', master);
      case SLAVE => ListeningExplained(r, env, h', master);
      case MASTER =>
        var f := if env.sendFault then ToFaulty(r) else r;
        assert Explained(f, h', master);
        IdleExplained(f, h', master, LISTENING, env.retryHw, env.now);
      case _ =>
    }
  }

  lemma ListeningExplained(r: Port, env: Env, h: History, master: bool)
    requires WellFormed(r) && Explained(r, h, master)
    ensures var t := if env.announceExpired then AnnounceTimeout(r, env) else r;
            Explained(t, h, master) && Explained(ToFaulty(t), h, master)
  {
    var reset := r.(fsm := r.fsm.(wrMode := NonWr, wrModeOn := false));
    assert Explained(BecomeMaster(reset), h, master);
    IdleExplained(BecomeMaster(reset), h, master, MASTER, env.retryHw, env.now);
    IdleExplained(reset, h, master, LISTENING, env.retryHw, env.now);
  }
}
