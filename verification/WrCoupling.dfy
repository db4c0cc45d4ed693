/** How the WR FSM and the PTP port FSM stay in step (PTPWRd/protocol.c:214-367, 476-710). */
module WrCoupling {
  import opened CTypes
  import opened WrFsm

  predicate SlavePath(s: WrState) {
    s in {PRESENT, S_LOCK, LOCKED, RESP_CALIB_REQ, CALIBRATION, CALIBRATED, WR_LINK_ON}
  }

  predicate MasterPath(s: WrState) {
    s in {M_LOCK, CALIBRATION, CALIBRATED, RESP_CALIB_REQ, WR_LINK_ON}
  }

  /** A WR slave session is running. */
  predicate SlaveSession(p: Port) {
    p.fsm.portState == UNCALIBRATED && p.fsm.wrMode == WrSlave && p.fsm.role != NonSlave && SlavePath(p.fsm.wrState)
  }

  /** A WR master session is running. */
  predicate MasterSession(p: Port) {
    p.fsm.portState == MASTER && p.fsm.wrMode == WrMaster && MasterPath(p.fsm.wrState)
  }

  /** The port is idle in WR terms and not left in UNCALIBRATED, or one of the two sessions runs. */
  predicate Coupled(p: Port) {
    if p.fsm.wrState == IDLE then p.fsm.portState != UNCALIBRATED else SlaveSession(p) || MasterSession(p)
  }

  /** What the best master clock algorithm guarantees (StateDecision.DecisionIsGood). */
  predicate GoodDecision(env: Env) {
    env.decision.Some? ==>
      && env.decision.value.state in {LISTENING, MASTER, PASSIVE, SLAVE}
      && (env.decision.value.state == SLAVE ==> env.decision.value.role != NonSlave)
  }

  /** The next message makes this port answer SLAVE_PRESENT. */
  predicate WillAnswer(p: Port, rx: Rx) {
    && rx.RxSignaling?
    && !rx.fromSelf
    && AnswersSlavePresent(if rx.msg.Some? then Accept(p, rx.msg.value) else p)
  }

  /** A PTP master with an idle WR FSM is about to answer SLAVE_PRESENT, but the LOCK message
      cannot be sent. */
  predicate LosesLock(p: Port, env: Env)
    requires WellFormed(p)
  {
    var d := Decide(p, env);
    d.fsm.portState == MASTER && d.fsm.wrState == IDLE && WillAnswer(d, env.rx) && !env.signalHw.sendOk
  }

  lemma TransitionToMain(p: Port, s: WrState, hw: Hw, now: uint64)
    requires WellFormed(p) && p.fsm.wrState != IDLE && (s == S_LOCK ==> p.fsm.role != NonSlave)
    ensures var q := ToWrState(p, s, hw, now);
            && q.fsm.wrState == s
            && q.fsm.portState == p.fsm.portState && q.fsm.wrMode == p.fsm.wrMode && q.fsm.role == p.fsm.role
            && q.cfg == p.cfg
  {
  }

  lemma DecideKeepsCoupling(p: Port, env: Env)
    requires WellFormed(p) && Coupled(p) && GoodDecision(env)
    ensures Coupled(Decide(p, env))
  {
  }

  lemma HandleKeepsMsgId(p: Port, hw: Hw, now: uint64)
    requires WellFormed(p) && p.fsm.wrState != IDLE
    ensures ToWrState(p, M_LOCK, hw, now).fsm.msgId == p.fsm.msgId
  {
  }

  lemma HandleInSession(p: Port, env: Env)
    requires WellFormed(p) && p.fsm.wrState != IDLE && Coupled(p)
    ensures var q := Handle(p, env);
            && Coupled(q) && q.fsm.wrState != IDLE && q.fsm.portState == p.fsm.portState
            && (SlaveSession(p) ==> q.fsm.wrState == p.fsm.wrState && SlaveSession(q))
            && (q.fsm.wrState == p.fsm.wrState
                || (q.fsm.wrState == M_LOCK && q.fsm.msgId == SlavePresentId && MasterSession(q)))
  {
    hide ToWrState;
    assert ToFaulty(p) == p;
    if env.rx.RxSignaling? && !env.rx.fromSelf {
      var q := if env.rx.msg.Some? then Accept(p, env.rx.msg.value) else p;
      assert q.fsm == p.fsm.(msgId := q.fsm.msgId);
      if AnswersSlavePresent(q) {
        TransitionToMain(q.(fsm := q.fsm.(wrMode := WrMaster)), M_LOCK, env.signalHw, env.now);
        HandleKeepsMsgId(q.(fsm := q.fsm.(wrMode := WrMaster)), env.signalHw, env.now);
      }
    }
  }

  /** A transition along the path of the running session. */
  lemma MoveKeepsCoupling(p: Port, s: WrState, hw: Hw, now: uint64)
    requires WellFormed(p) && p.fsm.wrState != IDLE && Coupled(p)
    requires if SlaveSession(p) then SlavePath(s) else MasterPath(s)
    ensures Coupled(ToWrState(p, s, hw, now))
  {
    hide ToWrState;
    TransitionToMain(p, s, hw, now);
  }

  lemma ActionsKeepCoupling(p: Port, env: Env)
    requires WellFormed(p) && p.fsm.wrState != IDLE && Coupled(p)
    ensures Coupled(WrActions(p, env))
  {
    match p.fsm.wrState {
      case RESP_CALIB_REQ => RespKeepsCoupling(p, env);
      case S_LOCK => LockKeepsCoupling(p, env);
      case CALIBRATION => CalibrationKeepsCoupling(p, env);
      case WR_LINK_ON => LinkOnKeepsCoupling(p, env);
      case _ => WaitKeepsCoupling(p, env);
    }
  }

  lemma LockKeepsCoupling(p: Port, env: Env)
    requires WellFormed(p) && p.fsm.wrState == S_LOCK && Coupled(p)
    ensures Coupled(DoSLock(p, env))
  {
    hide ToWrState;
    MoveKeepsCoupling(p.At(S_LOCK, LockProgress(p.fsm.sub, env.doHw)), LOCKED, env.enterHw, env.now);
  }

  lemma CalibrationKeepsCoupling(p: Port, env: Env)
    requires WellFormed(p) && p.fsm.wrState == CALIBRATION && Coupled(p)
    ensures Coupled(DoCalibration(p, env))
  {
    hide ToWrState;
    var k := CalProgress(p.fsm.sub, env.doHw);
    var q := p.At(CALIBRATION, k).(cal := Measured(p.cal, p.fsm.sub, k, env.doHw));
    MoveKeepsCoupling(Issue(q, CalibratedMsgOf(q), env.doHw.sendOk), CALIBRATED, env.enterHw, env.now);
  }

  lemma LinkOnKeepsCoupling(p: Port, env: Env)
    requires WellFormed(p) && p.fsm.wrState == WR_LINK_ON && Coupled(p)
    ensures Coupled(DoLinkOn(p, env))
  {
    assert ToWrState(p, IDLE, env.enterHw, env.now).fsm.wrMode == p.fsm.wrMode;
  }

  /** The states that wait for a message. */
  lemma WaitKeepsCoupling(p: Port, env: Env)
    requires WellFormed(p) && Coupled(p) && p.fsm.wrState in {PRESENT, M_LOCK, LOCKED, CALIBRATED}
    ensures Coupled(WrActions(p, env))
  {
    hide Handle, ToWrState;
    HandleInSession(p, env);
    var q := Handle(p, env);
    match p.fsm.wrState {
      case PRESENT => MoveKeepsCoupling(q, S_LOCK, env.enterHw, env.now);
      case M_LOCK => MoveKeepsCoupling(q, CALIBRATION, env.enterHw, env.now);
      case LOCKED => MoveKeepsCoupling(q, RESP_CALIB_REQ, env.enterHw, env.now);
      case CALIBRATED =>
        MoveKeepsCoupling(q, RESP_CALIB_REQ, env.enterHw, env.now);
        MoveKeepsCoupling(q, WR_LINK_ON, env.enterHw, env.now);
    }
  }

  lemma RespDoneKeepsCoupling(p: Port, env: Env)
    requires WellFormed(p) && p.fsm.wrState == RESP_CALIB_REQ && Coupled(p)
    ensures Coupled(RespDone(p, env))
  {
    hide ToWrState;
    MoveKeepsCoupling(p, if p.fsm.wrMode == WrMaster then WR_LINK_ON else CALIBRATION, env.enterHw, env.now);
  }

  lemma RespAwaitKeepsCoupling(p: Port, env: Env)
    requires WellFormed(p) && p.fsm.wrState == RESP_CALIB_REQ && Coupled(p)
    ensures Coupled(RespAwait(p, env))
  {
    hide Handle, RespDone;
    HandleInSession(p, env);
    var q := Handle(p, env);
    if q.fsm.msgId == CalibratedId {
      RespDoneKeepsCoupling(q.At(RESP_CALIB_REQ, 3), env);
    }
  }

  lemma RespKeepsCoupling(p: Port, env: Env)
    requires WellFormed(p) && p.fsm.wrState == RESP_CALIB_REQ && Coupled(p)
    ensures Coupled(DoRespCalibReq(p, env))
  {
    hide RespAwait, RespDone;
    RespAwaitKeepsCoupling(p.At(RESP_CALIB_REQ, 1), env);
    RespAwaitKeepsCoupling(p, env);
    RespDoneKeepsCoupling(p.At(RESP_CALIB_REQ, 3), env);
  }

  lemma AbandonKeepsCoupling(p: Port, env: Env)
    requires WellFormed(p)
    ensures Coupled(Abandon(p, env))
  {
    hide EnterWrState, TimeoutManage;
    var idle := ToWrState(p.(fsm := p.fsm.(wrModeOn := false)), IDLE, env.retryHw, env.now);
    assert idle.fsm.wrState == IDLE by {
      EntersIdle(p.(fsm := p.fsm.(wrModeOn := false)), env.retryHw, env.now);
    }
  }

  lemma EntersIdle(p: Port, hw: Hw, now: uint64)
    requires WellFormed(p)
    ensures ToWrState(p, IDLE, hw, now).fsm.wrState == IDLE
  {
  }

  lemma TimeoutKeepsCoupling(p: Port, env: Env)
    requires WellFormed(p) && Coupled(p)
    ensures Coupled(WrTimeout(p, env))
  {
    hide ToWrState, Abandon, RetryBudget;
    if TimedOut(p, env.now) {
      var polled := PolledPort(p, env.now);
      TransitionToMain(polled, p.fsm.wrState, env.retryHw, env.now);
      AbandonKeepsCoupling(polled, env);
    }
  }

  lemma WrStepKeepsCoupling(p: Port, env: Env)
    requires WellFormed(p) && p.fsm.wrState != IDLE && Coupled(p)
    ensures Coupled(DoWrState(p, env))
  {
    ActionsKeepCoupling(p, env);
    TimeoutKeepsCoupling(WrActions(p, env), env);
  }

  /** A running session takes its turn in the WR FSM alone, and its mailbox is emptied. */
  lemma CoupledTurn(p: Port, env: Env)
    requires WellFormed(p) && Coupled(p) && p.fsm.wrState != IDLE
    ensures DoState(p, env) == ClearMsg(WrTimeout(WrActions(p, env), env))
  {
    hide WrActions, WrTimeout;
  }

  /** Main result: one `doState` keeps the coupling exactly when it does not lose a LOCK message
      on leaving WRS_IDLE. */
  lemma DoStateKeepsCoupling(p: Port, env: Env)
    requires WellFormed(p) && Coupled(p) && GoodDecision(env)
    ensures Coupled(DoState(p, env)) <==> !LosesLock(p, env)
  {
    DecideKeepsCoupling(p, env);
    ActKeepsCoupling(Decide(p, env), env);
  }

  lemma ActKeepsCoupling(d: Port, env: Env)
    requires WellFormed(d) && Coupled(d)
    ensures Coupled(Act(d, env)) <==>
            !(d.fsm.portState == MASTER && d.fsm.wrState == IDLE && WillAnswer(d, env.rx) && !env.signalHw.sendOk)
  {
    if d.fsm.wrState != IDLE {
      WrStepKeepsCoupling(d, env);
    } else if d.fsm.portState == MASTER {
      MasterIdleStep(d, env);
    } else {
      IdleStep(d, env);
    }
  }

  lemma IdleStep(d: Port, env: Env)
    requires WellFormed(d) && Coupled(d) && d.fsm.wrState == IDLE && d.fsm.portState != MASTER
    ensures Coupled(Act(d, env)) && Act(d, env).fsm.wrState == IDLE
  {
    hide Handle;
    IdleHandle(d, env);
    assert AnnounceTimeout(Handle(d, env), env).fsm.wrState == IDLE;
  }

  lemma IdleHandle(d: Port, env: Env)
    requires WellFormed(d) && d.fsm.wrState == IDLE && d.fsm.portState != MASTER
    ensures var h := Handle(d, env); h.fsm.wrState == IDLE && h.fsm.portState in {d.fsm.portState, FAULTY}
  {
  }

  lemma MasterIdleStep(d: Port, env: Env)
    requires WellFormed(d) && d.fsm.wrState == IDLE && d.fsm.portState == MASTER
    ensures Coupled(DoMaster(d, env)) <==> !(WillAnswer(d, env.rx) && !env.signalHw.sendOk)
  {
    var h := Handle(d, env);
    if WillAnswer(d, env.rx) {
      assert h.fsm.wrState == M_LOCK;
      assert DoMaster(d, env) == h;
    } else {
      assert h.fsm.wrState == IDLE && h.fsm.portState in {MASTER, FAULTY};
    }
  }

  /** A port that lost its LOCK message is FAULTY with a running WR FSM, and stays exactly as it
      is through every later `doState`: neither FSM can move the other. */
  lemma LostLockIsStuck(p: Port, env: Env, later: Env)
    requires WellFormed(p) && Coupled(p) && GoodDecision(env) && LosesLock(p, env)
    ensures var q := DoState(p, env);
            q.fsm.portState == FAULTY && q.fsm.wrState == M_LOCK && DoState(q, later) == q
  {
    DecideKeepsCoupling(p, env);
    var d := Decide(p, env);
    assert DoMaster(d, env) == Handle(d, env);
  }

  /** Only re-initialisation gets a port out of that; it couples the FSMs from any state. */
  lemma DoInitCouples(p: Port, cfg: Config, env: Env)
    requires WellFormed(p)
    ensures var q := DoInit(p, cfg, env);
            && Coupled(q) && q.fsm.wrState == IDLE && q.fsm.portState == LISTENING
            && q.fsm.wrMode == NonWr && q.fsm.role == NonSlave
  {
  }

  /** A port takes a turn of its main loop, or is initialised again. */
  datatype PortEvent = DoStateEvent(env: Env) | DoInitEvent(cfg: Config, env: Env)

  function AfterEvent(p: Port, e: PortEvent): (q: Port)
    requires WellFormed(p)
    ensures WellFormed(q)
  {
    match e
    case DoStateEvent(env) => DoState(p, env)
    case DoInitEvent(cfg, env) => DoInit(p, cfg, env)
  }

  ghost predicate IsRun(ports: seq<Port>, events: seq<PortEvent>) {
    && |ports| == |events| + 1
    && WellFormed(ports[0])
    && forall i :: 0 <= i < |events| ==> WellFormed(ports[i]) && ports[i + 1] == AfterEvent(ports[i], events[i])
  }

  /** Safety over whole runs, from `doInit` or from any coupled state. */
  lemma {:induction false} RunStaysCoupled(ports: seq<Port>, events: seq<PortEvent>, n: nat)
    requires IsRun(ports, events) && n < |ports| && Coupled(ports[0])
    requires forall i :: 0 <= i < |events| && events[i].DoStateEvent? ==>
               GoodDecision(events[i].env) && !LosesLock(ports[i], events[i].env)
    ensures Coupled(ports[n])
  {
    hide DoState, DoInit, Coupled, LosesLock, GoodDecision;
    if n > 0 {
      RunStaysCoupled(ports, events, n - 1);
      assert ports[n] == AfterEvent(ports[n - 1], events[n - 1]);
      match events[n - 1]
      case DoStateEvent(env) => DoStateKeepsCoupling(ports[n - 1], env);
      case DoInitEvent(cfg, env) => DoInitCouples(ports[n - 1], cfg, env);
    }
  }
}
