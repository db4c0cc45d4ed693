/** One WR link setup on a lossless FIFO link, without timer expiry (PTPWRd/wr_protocol.c:613-932):
    it never gets stuck, and it ends in agreement. */
module WrAgreement {
  import opened CTypes
  import opened WrFsm
  import opened WrChain

  // ----- one node, one quiet step -----

  /** The step receives the head of the inbox, or nothing that concerns WR; no fault occurs, no
      timer expires and everything that is sent goes out. */
  ghost predicate Quiet(p: Port, env: Env, inbox: seq<WrMsg>) {
    && WellFormed(p)
    && env.decision.None? && !env.announceExpired && !env.sendFault
    && env.doHw.sendOk && env.enterHw.sendOk && env.signalHw.sendOk
    && (env.rx in {RxNone, RxOther(false)} || (inbox != [] && env.rx == RxSignaling(Some(inbox[0]), false)))
    && !TimedOut(WrActions(p, env), env.now)
  }

  /** The step calls `handle`, so that it takes the received message off the inbox. */
  predicate CallsHandle(p: Port, env: Env) {
    match p.fsm.wrState
    case S_LOCK => false
    case CALIBRATION => false
    case WR_LINK_ON => false
    case RESP_CALIB_REQ => p.fsm.sub == 1 || (p.fsm.sub == 0 && env.doHw.patternEnable)
    case IDLE => p.fsm.portState in {LISTENING, PASSIVE, SLAVE, MASTER, DISABLED}
    case _ => true
  }

  /** A running session reads the network only when it calls `handle`. */
  lemma OnlyHandleReads(p: Port, env: Env, rx: Rx)
    requires WellFormed(p) && RunsWrFsm(p) && p.fsm.wrState != IDLE && !CallsHandle(p, env)
    ensures WrActions(p, env.(rx := rx)) == WrActions(p, env)
  {
  }

  function Hears(p: Port, env: Env): Option<WrMsg> {
    if CallsHandle(p, env) && env.rx.RxSignaling? then env.rx.msg else None
  }

  /** The mailbox of a running session is empty between steps, but for an answered SLAVE_PRESENT. */
  ghost predicate NodeReady(p: Port) {
    && WellFormed(p)
    && p.fsm.msgId in {NullTlv, SlavePresentId}
    && (p.fsm.msgId == SlavePresentId ==> p.fsm.wrState == M_LOCK)
  }

  /** What a session never changes about its node. */
  ghost predicate SameNode(p: Port, q: Port) {
    && q.cfg == p.cfg && q.fsm.portState == p.fsm.portState
    && q.fsm.wrMode == p.fsm.wrMode && q.fsm.role == p.fsm.role
  }

  ghost predicate SameOwn(p: Port, q: Port) {
    q.cal.deltaTx == p.cal.deltaTx && q.cal.deltaRx == p.cal.deltaRx
  }

  ghost predicate SameOther(p: Port, q: Port) {
    q.cal.otherDeltaTx == p.cal.otherDeltaTx && q.cal.otherDeltaRx == p.cal.otherDeltaRx
  }

  ghost predicate Running(p: Port) {
    NodeReady(p) && RunsWrFsm(p) && p.fsm.wrState != IDLE
  }

  lemma QuietDoState(p: Port, env: Env, inbox: seq<WrMsg>)
    requires Running(p) && Quiet(p, env, inbox)
    ensures DoState(p, env) == ClearMsg(WrActions(p, env))
  {
    assert Decide(p, env) == p;
  }

  lemma HandleNothing(p: Port, env: Env)
    requires WellFormed(p) && env.rx in {RxNone, RxOther(false)}
    ensures Handle(p, env) == p
  {
  }

  lemma HandleMsg(p: Port, env: Env, m: WrMsg)
    requires WellFormed(p) && env.rx == RxSignaling(Some(m), false) && m != SlavePresentMsg
    ensures Handle(p, env) == Accept(p, m)
  {
  }

  /** Entering a state while a session runs. */
  lemma EnterInSession(p: Port, s: WrState, hw: Hw, now: uint64)
    requires WellFormed(p) && p.fsm.wrState != IDLE && p.fsm.wrMode != NonWr
    requires hw.sendOk && (s == S_LOCK ==> p.fsm.role != NonSlave)
    ensures var q := ToWrState(p, s, hw, now);
            && q.fsm.wrState == s && SameNode(p, q) && q.cal == p.cal && q.fsm.msgId == p.fsm.msgId
            && (s == RESP_CALIB_REQ ==> q.fsm.sub <= 1) && (s == CALIBRATION ==> q.fsm.sub <= 2)
            && q.outbox == p.outbox + (if EntryMsg(p, s).Some? then [EntryMsg(p, s).value] else [])
            && q.fsm.wrModeOn == (p.fsm.wrModeOn || s == WR_LINK_ON)
  {
  }

  lemma PresentStep(p: Port, env: Env, inbox: seq<WrMsg>)
    requires Running(p) && Quiet(p, env, inbox) && p.fsm.wrState == PRESENT && p.fsm.role != NonSlave
    requires Hears(p, env) in {None, Some(LockMsg)}
    ensures var q := DoState(p, env);
            && NodeReady(q) && SameNode(p, q) && q.outbox == p.outbox
            && q.fsm.wrState == (if Hears(p, env).Some? then S_LOCK else PRESENT)
  {
    hide DoState, Handle, ToWrState, TimedOut;
    QuietDoState(p, env, inbox);
    if Hears(p, env).Some? {
      HandleMsg(p, env, LockMsg);
      EnterInSession(Accept(p, LockMsg), S_LOCK, env.enterHw, env.now);
    } else {
      HandleNothing(p, env);
    }
  }

  lemma LockStep(p: Port, env: Env, inbox: seq<WrMsg>)
    requires Running(p) && Quiet(p, env, inbox) && p.fsm.wrState == S_LOCK && p.fsm.role != NonSlave
    ensures var q := DoState(p, env);
            && NodeReady(q) && SameNode(p, q)
            && ((q.fsm.wrState == S_LOCK && q.outbox == p.outbox && p.fsm.sub <= q.fsm.sub)
               || (q.fsm.wrState == LOCKED && q.outbox == p.outbox + [LockedMsg]))
    ensures env.doHw.lockEnable && env.doHw.lockReady && env.doHw.lockDisable ==> DoState(p, env).fsm.wrState == LOCKED
  {
    hide DoState, Handle, ToWrState, TimedOut;
    QuietDoState(p, env, inbox);
    var q := p.At(S_LOCK, LockProgress(p.fsm.sub, env.doHw));
    EnterInSession(q, LOCKED, env.enterHw, env.now);
    if env.doHw.lockEnable && env.doHw.lockReady {
      assert LockProgress(1, env.doHw) == 2;
    }
  }

  lemma MLockStep(p: Port, env: Env, inbox: seq<WrMsg>)
    requires Running(p) && Quiet(p, env, inbox) && p.fsm.wrState == M_LOCK
    requires Hears(p, env) in {None, Some(LockedMsg)}
    ensures var q := DoState(p, env);
            && NodeReady(q) && SameNode(p, q)
            && (if Hears(p, env).Some? then
                  q.fsm.wrState == CALIBRATION && q.fsm.sub <= 2 && q.outbox == p.outbox + [CalibrateMsgOf(p)]
                else q.fsm.wrState == M_LOCK && q.outbox == p.outbox)
  {
    hide DoState, Handle, ToWrState, TimedOut;
    QuietDoState(p, env, inbox);
    if Hears(p, env).Some? {
      HandleMsg(p, env, LockedMsg);
      EnterInSession(Accept(p, LockedMsg), CALIBRATION, env.enterHw, env.now);
    } else {
      HandleNothing(p, env);
    }
  }

  lemma LockedStep(p: Port, env: Env, inbox: seq<WrMsg>)
    requires Running(p) && Quiet(p, env, inbox) && p.fsm.wrState == LOCKED
    requires Hears(p, env).Some? ==> Hears(p, env).value.CalibrateMsg?
    ensures var q := DoState(p, env);
            && NodeReady(q) && SameNode(p, q) && q.outbox == p.outbox
            && (if Hears(p, env).Some? then q.fsm.wrState == RESP_CALIB_REQ && q.fsm.sub <= 1
                else q.fsm.wrState == LOCKED)
  {
    hide DoState, Handle, ToWrState, TimedOut;
    QuietDoState(p, env, inbox);
    if Hears(p, env).Some? {
      var m := Hears(p, env).value;
      HandleMsg(p, env, m);
      EnterInSession(Accept(p, m), RESP_CALIB_REQ, env.enterHw, env.now);
    } else {
      HandleNothing(p, env);
    }
  }

  predicate CalWilling(hw: Hw) {
    && hw.patternEnable && hw.txEnable && hw.txDelta.Some? && hw.txDisable && hw.patternDisable
    && hw.rxEnable && hw.rxDelta.Some? && hw.rxDisable
  }

  lemma {:induction false} WillingCalibrates(k: nat, hw: Hw)
    requires k <= 8 && CalWilling(hw)
    ensures CalProgress(k, hw) == 8
    decreases 8 - k
  {
    if k < 8 {
      WillingCalibrates(k + 1, hw);
    }
  }

  lemma CalibrationStep(p: Port, env: Env, inbox: seq<WrMsg>)
    requires Running(p) && Quiet(p, env, inbox) && p.fsm.wrState == CALIBRATION
    ensures var q := DoState(p, env);
            && NodeReady(q) && SameNode(p, q) && SameOther(p, q)
            && ((q.fsm.wrState == CALIBRATION && q.outbox == p.outbox && p.fsm.sub <= q.fsm.sub)
               || (q.fsm.wrState == CALIBRATED && q.outbox == p.outbox + [CalibratedMsgOf(q)]))
    ensures CalWilling(env.doHw) ==> DoState(p, env).fsm.wrState == CALIBRATED
  {
    hide DoState, Handle, ToWrState, TimedOut;
    QuietDoState(p, env, inbox);
    var k := CalProgress(p.fsm.sub, env.doHw);
    var q := p.At(CALIBRATION, k).(cal := Measured(p.cal, p.fsm.sub, k, env.doHw));
    var i := Issue(q, CalibratedMsgOf(q), true);
    EnterInSession(i, CALIBRATED, env.enterHw, env.now);
    if CalWilling(env.doHw) {
      WillingCalibrates(p.fsm.sub, env.doHw);
    }
  }

  lemma CalibratedStep(p: Port, env: Env, inbox: seq<WrMsg>)
    requires Running(p) && Quiet(p, env, inbox) && p.fsm.wrState == CALIBRATED
    requires Hears(p, env).Some? ==>
               if p.fsm.wrMode == WrMaster then Hears(p, env).value.CalibrateMsg? else Hears(p, env).value.WrModeOnMsg?
    ensures var q := DoState(p, env);
            && NodeReady(q) && SameNode(p, q) && SameOwn(p, q) && SameOther(p, q) && q.outbox == p.outbox
            && (if Hears(p, env).None? then q.fsm.wrState == CALIBRATED
                else if p.fsm.wrMode == WrMaster then q.fsm.wrState == RESP_CALIB_REQ && q.fsm.sub <= 1
                else q.fsm.wrState == WR_LINK_ON && q.fsm.wrModeOn)
  {
    hide DoState, Handle, ToWrState, TimedOut;
    QuietDoState(p, env, inbox);
    if Hears(p, env).Some? {
      var m := Hears(p, env).value;
      HandleMsg(p, env, m);
      EnterInSession(Accept(p, m), RESP_CALIB_REQ, env.enterHw, env.now);
      EnterInSession(Accept(p, m), WR_LINK_ON, env.enterHw, env.now);
    } else {
      HandleNothing(p, env);
    }
  }

  /** The state that follows RESP_CALIB_REQ in a node's role. */
  function AfterResp(p: Port): WrState {
    if p.fsm.wrMode == WrMaster then WR_LINK_ON else CALIBRATION
  }

  ghost predicate LeftResp(p: Port, q: Port) {
    && q.fsm.wrState == AfterResp(p) && q.fsm.sub <= 2
    && q.outbox == p.outbox + [if p.fsm.wrMode == WrMaster then WrModeOnMsg else CalibrateMsgOf(p)]
    && (p.fsm.wrMode == WrMaster ==> q.fsm.wrModeOn)
  }

  lemma RespFinishStep(p: Port, env: Env)
    requires WellFormed(p) && p.fsm.wrState == RESP_CALIB_REQ && 2 <= p.fsm.sub && env.enterHw.sendOk
    requires p.fsm.wrMode != NonWr
    ensures var q := RespFinish(p, env);
            && WellFormed(q) && SameNode(p, q) && q.cal == p.cal
            && (LeftResp(p, q) || (q == p && q.fsm.sub == 2))
    ensures env.doHw.patternDisable ==> LeftResp(p, RespFinish(p, env))
  {
    EnterInSession(p.At(RESP_CALIB_REQ, 3), AfterResp(p), env.enterHw, env.now);
  }

  /** Substates 0 and 1: wait for CALIBRATED. */
  lemma RespAwaitStep(p: Port, env: Env, inbox: seq<WrMsg>)
    requires Running(p) && Quiet(p, env, inbox) && p.fsm.wrState == RESP_CALIB_REQ && p.fsm.sub <= 1
    requires Hears(p, env).Some? ==> Hears(p, env).value.CalibratedMsg?
    ensures var q := DoState(p, env);
            && NodeReady(q) && SameNode(p, q) && SameOwn(p, q)
            && (match Hears(p, env)
                case None => q.fsm.wrState == RESP_CALIB_REQ && p.fsm.sub <= q.fsm.sub <= 1 && q.outbox == p.outbox
                case Some(m) =>
                  && q.cal.otherDeltaTx == m.deltaTx && q.cal.otherDeltaRx == m.deltaRx
                  && (LeftResp(p, q) || (q.fsm.wrState == RESP_CALIB_REQ && q.fsm.sub == 2 && q.outbox == p.outbox)))
  {
    hide DoState, Handle, ToWrState, TimedOut;
    QuietDoState(p, env, inbox);
    var p1 := p.At(RESP_CALIB_REQ, 1);
    assert p.fsm.sub == 1 ==> p1 == p;
    if Hears(p, env).Some? {
      var m := Hears(p, env).value;
      HandleMsg(p1, env, m);
      var h := Accept(p1, m);
      RespFinishStep(h.At(RESP_CALIB_REQ, if h.cal.otherSendPattern == 1 then 2 else 3), env);
    } else if CallsHandle(p, env) {
      HandleNothing(p1, env);
    }
  }

  /** Substates 2 and 3: leave. */
  lemma RespLeaveStep(p: Port, env: Env, inbox: seq<WrMsg>)
    requires Running(p) && Quiet(p, env, inbox) && p.fsm.wrState == RESP_CALIB_REQ && 2 <= p.fsm.sub
    ensures var q := DoState(p, env);
            && NodeReady(q) && SameNode(p, q) && SameOwn(p, q) && SameOther(p, q)
            && (LeftResp(p, q)
                || (q.fsm.wrState == RESP_CALIB_REQ && 2 <= q.fsm.sub == p.fsm.sub && q.outbox == p.outbox))
    ensures env.doHw.patternDisable ==> LeftResp(p, DoState(p, env))
  {
    hide DoState, Handle, ToWrState, TimedOut;
    QuietDoState(p, env, inbox);
    RespFinishStep(p, env);
  }

  lemma LinkOnStep(p: Port, env: Env, inbox: seq<WrMsg>)
    requires Running(p) && Quiet(p, env, inbox) && p.fsm.wrState == WR_LINK_ON
    ensures var q := DoState(p, env);
            && WellFormed(q) && q.fsm.wrState == IDLE && q.cfg == p.cfg && q.outbox == p.outbox
            && q.fsm.portState == (if p.fsm.wrMode == WrMaster then MASTER else SLAVE)
            && q.fsm.wrModeOn == p.fsm.wrModeOn && q.cal == p.cal
  {
    QuietDoState(p, env, inbox);
    var i := ToWrState(p, IDLE, env.enterHw, env.now);
    assert i.fsm.wrState == IDLE && i.cal == p.cal && i.outbox == p.outbox && i.fsm.wrModeOn == p.fsm.wrModeOn;
  }
}
