/** WR mode and the PTP events around it (PTPWRd/protocol.c:214-427, 431-471, 476-710): a port is in WR
    mode only after its own link setup, and no longer than it keeps its role. */
module WrModes {
  import opened CTypes
  import opened WrFsm
  import opened WrCoupling

  // ----- WR mode has a cause -----

  /** WR mode is on only in a WR role, and off during a link setup until WR_LINK_ON. */
  predicate ModeSafe(p: Port) {
    && (p.fsm.wrModeOn ==> p.fsm.wrMode != NonWr && p.fsm.wrState in {IDLE, WR_LINK_ON})
    && (p.fsm.wrState == WR_LINK_ON ==> p.fsm.wrModeOn)
  }

  /** The main state before WR_LINK_ON in the role of the port. */
  predicate LastButOne(p: Port) {
    || (p.fsm.wrMode == WrMaster && p.fsm.wrState == RESP_CALIB_REQ)
    || (p.fsm.wrMode == WrSlave && p.fsm.wrState == CALIBRATED)
  }

  /** From `p` to `q` WR mode stays on in the same role, or is switched on by entering WR_LINK_ON. */
  predicate ModeStep(p: Port, q: Port) {
    && ModeSafe(q)
    && (q.fsm.wrModeOn ==> && q.fsm.wrMode == p.fsm.wrMode
                           && (p.fsm.wrModeOn || (LastButOne(p) && q.fsm.wrState == WR_LINK_ON)))
  }

  lemma ModeMoves(p: Port, s: WrState, hw: Hw, now: uint64)
    requires WellFormed(p) && ModeSafe(p) && (s == S_LOCK ==> p.fsm.role != NonSlave && p.fsm.wrState != IDLE)
    requires s == WR_LINK_ON ==> LastButOne(p) || p.fsm.wrState == WR_LINK_ON
    requires p.fsm.wrState == WR_LINK_ON ==> s in {IDLE, WR_LINK_ON}
    ensures ModeStep(p, ToWrState(p, s, hw, now))
  {
    hide TimeoutManage;
  }

  lemma HandleModes(p: Port, env: Env)
    requires WellFormed(p) && Coupled(p) && ModeSafe(p) && p.fsm.wrState != WR_LINK_ON
    ensures var q := Handle(p, env);
            && ModeSafe(q) && (q.fsm.wrModeOn ==> p.fsm.wrModeOn && q.fsm.wrMode == p.fsm.wrMode)
            && (p.fsm.wrState != IDLE ==> q.fsm.wrMode == p.fsm.wrMode && q.fsm.role == p.fsm.role
                                          && q.fsm.wrState in {p.fsm.wrState, M_LOCK} && q.fsm.wrState != IDLE)
            && (p.fsm.wrState == IDLE ==> q.fsm.wrState in {IDLE, M_LOCK})
  {
    hide ToWrState, Accept;
    assert p.fsm.wrState != IDLE ==> ToFaulty(p) == p;
    if env.rx.RxSignaling? && !env.rx.fromSelf {
      var q := if env.rx.msg.Some? then Accept(p, env.rx.msg.value) else p;
      assert q.fsm == p.fsm.(msgId := q.fsm.msgId) && WellFormed(q) by {
        if env.rx.msg.Some? { AcceptFrame(p, env.rx.msg.value); }
      }
      if AnswersSlavePresent(q) {
        AnswerModes(q.(fsm := q.fsm.(wrMode := WrMaster)), env.signalHw, env.now);
      }
    }
  }

  lemma AcceptFrame(p: Port, m: WrMsg)
    requires WellFormed(p)
    ensures var q := Accept(p, m); WellFormed(q) && q.fsm == p.fsm.(msgId := IdOf(m))
  {
  }

  lemma AnswerModes(p: Port, hw: Hw, now: uint64)
    requires WellFormed(p) && (p.fsm.wrState != IDLE ==> !p.fsm.wrModeOn)
    ensures var q := ToWrState(p, M_LOCK, hw, now);
            !q.fsm.wrModeOn && q.fsm.wrState == M_LOCK && q.fsm.role == p.fsm.role
            && (p.fsm.wrState != IDLE ==> q.fsm.wrMode == p.fsm.wrMode)
  {
    hide TimeoutManage;
  }

  lemma ActionModes(p: Port, env: Env)
    requires WellFormed(p) && Coupled(p) && ModeSafe(p) && p.fsm.wrState != IDLE
    ensures ModeStep(p, WrActions(p, env))
  {
    hide Handle, ToWrState;
    if p.fsm.wrState != WR_LINK_ON {
      HandleModes(p, env);
      HandleInSession(p, env);
    }
    var h := Handle(p, env);
    match p.fsm.wrState
    case PRESENT => ModeMoves(h, S_LOCK, env.enterHw, env.now);
    case S_LOCK => ModeMoves(p.At(S_LOCK, LockProgress(p.fsm.sub, env.doHw)), LOCKED, env.enterHw, env.now);
    case M_LOCK => ModeMoves(h, CALIBRATION, env.enterHw, env.now);
    case LOCKED => ModeMoves(h, RESP_CALIB_REQ, env.enterHw, env.now);
    case CALIBRATION =>
      var k := CalProgress(p.fsm.sub, env.doHw);
      var q := p.At(CALIBRATION, k).(cal := Measured(p.cal, p.fsm.sub, k, env.doHw));
      ModeMoves(Issue(q, CalibratedMsgOf(q), env.doHw.sendOk), CALIBRATED, env.enterHw, env.now);
    case CALIBRATED =>
      ModeMoves(h, RESP_CALIB_REQ, env.enterHw, env.now);
      if LastButOne(h) { ModeMoves(h, WR_LINK_ON, env.enterHw, env.now); }
    case RESP_CALIB_REQ => RespModes(p, env);
    case WR_LINK_ON => LinkOnModes(p, env);
  }

  lemma RespModes(p: Port, env: Env)
    requires WellFormed(p) && Coupled(p) && ModeSafe(p) && p.fsm.wrState == RESP_CALIB_REQ
    ensures ModeStep(p, DoRespCalibReq(p, env))
  {
    hide Handle, ToWrState;
    HandleModes(p, env);
    HandleModes(p.At(RESP_CALIB_REQ, 1), env);
    assert p.fsm.sub == 1 ==> p.At(RESP_CALIB_REQ, 1) == p;
    var h := if p.fsm.sub <= 1 then Handle(p.At(RESP_CALIB_REQ, 1), env) else p;
    var q := h.At(RESP_CALIB_REQ, 3);
    if q.fsm.wrMode == WrMaster { ModeMoves(q, WR_LINK_ON, env.enterHw, env.now); }
    ModeMoves(q, CALIBRATION, env.enterHw, env.now);
  }

  lemma LinkOnModes(p: Port, env: Env)
    requires WellFormed(p) && Coupled(p) && ModeSafe(p) && p.fsm.wrState == WR_LINK_ON
    ensures ModeStep(p, DoLinkOn(p, env))
  {
    hide TimeoutManage;
  }

  lemma TimerModes(p: Port, env: Env)
    requires WellFormed(p) && Coupled(p) && ModeSafe(p)
    ensures var q := WrTimeout(p, env);
            ModeSafe(q) && (q.fsm.wrModeOn ==> p.fsm.wrModeOn && q.fsm.wrMode == p.fsm.wrMode)
            && (q.fsm.wrState == p.fsm.wrState || !q.fsm.wrModeOn)
  {
    hide ToWrState, Abandon, RetryBudget;
    if TimedOut(p, env.now) {
      var r := PolledPort(p, env.now);
      RepeatModes(r, env.retryHw, env.now);
      AbandonModes(r, env);
    }
  }

  lemma RepeatModes(p: Port, hw: Hw, now: uint64)
    requires WellFormed(p) && Coupled(p) && ModeSafe(p) && p.fsm.wrState != IDLE
    ensures var q := ToWrState(p, p.fsm.wrState, hw, now);
            ModeSafe(q) && q.fsm.wrMode == p.fsm.wrMode && q.fsm.wrState == p.fsm.wrState
            && q.fsm.wrModeOn == p.fsm.wrModeOn
  {
    hide TimeoutManage;
  }

  lemma AbandonModes(p: Port, env: Env)
    requires WellFormed(p)
    ensures var q := Abandon(p, env); !q.fsm.wrModeOn && q.fsm.wrState == IDLE
  {
    hide TimeoutManage;
  }

  /** A turn of a running session. */
  lemma SessionModes(p: Port, env: Env)
    requires WellFormed(p) && Coupled(p) && ModeSafe(p) && p.fsm.wrState != IDLE
    ensures ModeStep(p, DoWrState(p, env))
  {
    hide WrActions, WrTimeout;
    ActionModes(p, env);
    ActionsKeepCoupling(p, env);
    TimerModes(WrActions(p, env), env);
  }

  /** Entering a PTP state never switches WR mode on, and leaving SLAVE switches it off. */
  lemma ToStateModes(p: Port, s: PtpState, hw: Hw, now: uint64)
    requires WellFormed(p) && ModeSafe(p) && p.fsm.wrState == IDLE
    requires s == UNCALIBRATED ==> !p.fsm.wrModeOn || p.fsm.portState == SLAVE
    ensures var q := ToState(p, s, hw, now);
            && ModeSafe(q) && (q.fsm.wrModeOn ==> p.fsm.wrModeOn && q.fsm.wrMode == p.fsm.wrMode)
            && q.fsm.wrState in {IDLE, PRESENT}
            && (p.fsm.portState == SLAVE ==> !q.fsm.wrModeOn && q.fsm.wrMode == NonWr)
            && (s != UNCALIBRATED ==> q.fsm.wrState == IDLE)
  {
    hide TimeoutManage;
  }

  lemma DecideModes(p: Port, env: Env)
    requires WellFormed(p) && ModeSafe(p) && p.fsm.wrState == IDLE && GoodDecision(env)
    ensures var q := Decide(p, env);
            && ModeSafe(q) && (q.fsm.wrModeOn ==> p.fsm.wrModeOn && q.fsm.wrMode == p.fsm.wrMode)
            && q.fsm.wrState in {IDLE, PRESENT}
  {
    hide ToState;
    if env.decision.Some? {
      var d := env.decision.value;
      var q := p.(fsm := p.fsm.(role := d.role), parent := d.parent);
      ToStateModes(q.(fsm := q.fsm.(wrMode := WrSlave, wrModeOn := false)), UNCALIBRATED, env.signalHw, env.now);
      ToStateModes(q, d.state, env.signalHw, env.now);
      if p.fsm.portState == SLAVE { ToStateModes(q, UNCALIBRATED, env.signalHw, env.now); }
    }
  }

  lemma ListenModes(d: Port, env: Env)
    requires WellFormed(d) && Coupled(d) && ModeSafe(d) && d.fsm.wrState == IDLE
    ensures var q := DoListening(d, env);
            ModeSafe(q) && (q.fsm.wrModeOn ==> d.fsm.wrModeOn && q.fsm.wrMode == d.fsm.wrMode)
  {
    hide Handle, ToState;
    HandleModes(d, env);
    var h := Handle(d, env);
    if h.fsm.wrState == IDLE {
      var reset := h.(fsm := h.fsm.(wrMode := NonWr, wrModeOn := false));
      ToStateModes(BecomeMaster(reset), MASTER, env.retryHw, env.now);
      ToStateModes(reset, LISTENING, env.retryHw, env.now);
    } else {
      RunningRefuses(h, env);
      RunningRefuses(AnnounceTimeout(h, env), env);
    }
  }

  lemma MasterModes(d: Port, env: Env)
    requires WellFormed(d) && Coupled(d) && ModeSafe(d) && d.fsm.wrState == IDLE
    ensures var q := DoMaster(d, env);
            ModeSafe(q) && (q.fsm.wrModeOn ==> d.fsm.wrModeOn && q.fsm.wrMode == d.fsm.wrMode)
  {
    hide Handle, ToState;
    HandleModes(d, env);
    var h := Handle(d, env);
    if h.fsm.wrState == IDLE {
      ToStateModes(if env.sendFault then ToFaulty(h) else h, LISTENING, env.retryHw, env.now);
    } else {
      RunningRefuses(h, env);
    }
  }

  lemma IdleModes(d: Port, env: Env)
    requires WellFormed(d) && Coupled(d) && ModeSafe(d) && d.fsm.wrState == IDLE
    ensures var q := Act(d, env);
            ModeSafe(q) && (q.fsm.wrModeOn ==> d.fsm.wrModeOn && q.fsm.wrMode == d.fsm.wrMode)
  {
    hide Handle, ToState, DoListening, DoMaster;
    HandleModes(d, env);
    ListenModes(d, env);
    MasterModes(d, env);
    ToStateModes(d, INITIALIZING, env.retryHw, env.now);
    ToStateModes(BecomeMaster(d), MASTER, env.retryHw, env.now);
  }

  /** A running WR FSM refuses other PTP states; an announce timeout ends WR mode nevertheless. */
  lemma RunningRefuses(h: Port, env: Env)
    requires WellFormed(h) && h.fsm.wrState != IDLE
    ensures ToFaulty(h) == h && ToState(h, LISTENING, env.retryHw, env.now) == h
    ensures !AnnounceTimeout(h, env).fsm.wrModeOn && AnnounceTimeout(h, env).fsm.wrState == h.fsm.wrState
  {
  }

  /** Main result for one turn: WR mode stays on only in the same role, and is switched on only by the
      step from the main state before WR_LINK_ON. */
  lemma TurnModes(p: Port, env: Env)
    requires WellFormed(p) && Coupled(p) && ModeSafe(p) && GoodDecision(env) && !LosesLock(p, env)
    ensures ModeStep(p, DoState(p, env))
  {
    hide WrActions, WrTimeout, Act, Decide, DoWrState, Coupled, LosesLock;
    if p.fsm.wrState != IDLE {
      RunningTurn(p, env);
      SessionModes(p, env);
    } else {
      DecideModes(p, env);
      DecideKeepsCoupling(p, env);
      var d := Decide(p, env);
      if d.fsm.wrState == IDLE {
        IdleModes(d, env);
      } else {
        PresentTurn(d, env);
        SessionModes(d, env);
      }
    }
  }

  lemma RunningTurn(p: Port, env: Env)
    requires WellFormed(p) && Coupled(p) && p.fsm.wrState != IDLE
    ensures DoState(p, env) == ClearMsg(DoWrState(p, env))
  {
    hide WrActions, WrTimeout;
    CoupledTurn(p, env);
  }

  lemma PresentTurn(d: Port, env: Env)
    requires WellFormed(d) && Coupled(d) && d.fsm.wrState != IDLE
    ensures Act(d, env) == ClearMsg(DoWrState(d, env))
  {
    hide WrActions, WrTimeout;
  }

  /** Main result for runs: whenever a port that started outside of WR mode is in WR mode, it has entered
      WR_LINK_ON from the last state of a link setup of its own, and has been in WR mode in that role ever
      since. */
  lemma {:induction false} ModeOnHasCause(ports: seq<Port>, events: seq<PortEvent>, n: nat) returns (i: nat)
    requires IsRun(ports, events) && n < |ports| && Coupled(ports[0]) && ModeSafe(ports[0]) && !ports[0].fsm.wrModeOn
    requires forall i :: 0 <= i < |events| && events[i].DoStateEvent? ==>
               GoodDecision(events[i].env) && !LosesLock(ports[i], events[i].env)
    ensures ModeSafe(ports[n])
    ensures ports[n].fsm.wrModeOn ==>
              && i < n && LastButOne(ports[i]) && ports[i + 1].fsm.wrState == WR_LINK_ON
              && forall k :: i < k <= n ==> ports[k].fsm.wrModeOn && ports[k].fsm.wrMode == ports[i].fsm.wrMode
    decreases n
  {
    hide DoState, DoInit, Coupled, LosesLock, ModeSafe, LastButOne;
    i := 0;
    if n > 0 {
      i := ModeOnHasCause(ports, events, n - 1);
      RunStaysCoupled(ports, events, n - 1);
      assert ports[n] == AfterEvent(ports[n - 1], events[n - 1]);
      match events[n - 1] {
        case DoStateEvent(env) =>
          TurnModes(ports[n - 1], env);
          if ports[n].fsm.wrModeOn && !ports[n - 1].fsm.wrModeOn {
            i := n - 1;
          }
        case DoInitEvent(cfg, env) =>
          InitModes(ports[n - 1], cfg, env);
      }
    }
  }

  lemma InitModes(p: Port, cfg: Config, env: Env)
    requires WellFormed(p)
    ensures var q := DoInit(p, cfg, env); ModeSafe(q) && !q.fsm.wrModeOn
  {
  }
}
