/** A WR link setup on a lossless FIFO link can always go on: in every joint state before completion
    there is a step that takes it forward (PTPWRd/wr_protocol.c:160-231, 282-597). */
module WrProgress {
  import opened CTypes
  import opened Timer
  import opened WrFsm
  import opened WrCoupling
  import opened WrAgreement
  import opened WrFifoLink

  /** Hardware that does what it is asked. */
  const EAGER := Hw(true, true, true, true, true, true, Some(0), true, true, Some(0), true, 0, 0, true)

  /** A step at `now` in which all hardware calls succeed and the head of the inbox is delivered. */
  function EagerEnv(inbox: seq<WrMsg>, now: uint64): Env {
    Env(None, true, if inbox == [] then RxNone else RxSignaling(Some(inbox[0]), false), now, false, false,
        EAGER, EAGER, EAGER, EAGER)
  }

  /** A timer started now with this timeout is not expired at once. */
  predicate Lasts(t: int32, now: uint64) {
    !IsExpired(IntervalTimer(now, t), now)
  }

  /** The timeouts of a node, and those that it or a received CALIBRATE would set, last. */
  ghost predicate TimeoutsLast(p: Port, inbox: seq<WrMsg>, now: uint64)
    requires WellFormed(p)
  {
    && (forall i :: 0 <= i < WR_TIMERS ==> Lasts(p.clock.timeouts[i], now))
    && Lasts(CalTimeout(p.cfg.calPeriod, p.cfg), now)
    && Lasts(CalTimeout(p.cal.otherPeriod, p.cfg), now)
    && (inbox != [] && inbox[0].CalibrateMsg? ==> Lasts(CalTimeout(inbox[0].period, p.cfg), now))
  }

  /** Timeouts that are not negative last unless the clock is about to wrap; a period from 2^31 on
      is a negative timeout. */
  lemma OrdinaryTimeoutLasts(t: int32, now: uint64)
    requires 0 <= t && now + t < TWO64
    ensures Lasts(t, now)
  {
  }

  /** So do all timeouts of a node whose timeouts are not negative and that sees no such period. */
  lemma OrdinaryTimeoutsLast(p: Port, inbox: seq<WrMsg>, now: uint64)
    requires WellFormed(p) && now + 0x8000_0000 <= TWO64
    requires 0 <= p.cfg.wrStateTimeout && forall i :: 0 <= i < WR_TIMERS ==> 0 <= p.clock.timeouts[i]
    requires p.cfg.calPeriod < 0x8000_0000 && p.cal.otherPeriod < 0x8000_0000
    requires inbox != [] && inbox[0].CalibrateMsg? ==> inbox[0].period < 0x8000_0000
    ensures TimeoutsLast(p, inbox, now)
  {
    hide Lasts;
    forall t: int32 | 0 <= t ensures Lasts(t, now) { OrdinaryTimeoutLasts(t, now); }
  }

  /** At the origin of time every timeout lasts. */
  lemma LastsAtZero(t: int32)
    ensures Lasts(t, 0)
  {
  }

  /** Entering a main state in a running session starts its timer. */
  lemma EntryLasts(p: Port, s: WrState, hw: Hw, now: uint64)
    requires WellFormed(p) && p.fsm.wrState != IDLE && s != IDLE && (s == S_LOCK ==> p.fsm.role != NonSlave)
    requires forall i :: 0 <= i < WR_TIMERS ==> Lasts(p.clock.timeouts[i], now)
    requires s == CALIBRATION ==> Lasts(CalTimeout(p.cfg.calPeriod, p.cfg), now)
    requires s == RESP_CALIB_REQ ==> Lasts(CalTimeout(p.cal.otherPeriod, p.cfg), now)
    ensures !TimedOut(ToWrState(p, s, hw, now), now)
  {
    TransitionToMain(p, s, hw, now);
  }

  // ---------- one eager step of each state ----------

  lemma EagerWaits(p: Port, inbox: seq<WrMsg>, now: uint64)
    requires Running(p) && TimeoutsLast(p, inbox, now) && inbox != []
    requires match p.fsm.wrState
             case PRESENT => inbox[0] == LockMsg && p.fsm.role != NonSlave
             case M_LOCK => inbox[0] == LockedMsg
             case LOCKED => inbox[0].CalibrateMsg?
             case CALIBRATED => if p.fsm.wrMode == WrMaster then inbox[0].CalibrateMsg? else inbox[0] == WrModeOnMsg
             case _ => false
    ensures !TimedOut(WrActions(p, EagerEnv(inbox, now)), now)
  {
    hide Handle, ToWrState, Lasts, CalTimeout;
    var env, m := EagerEnv(inbox, now), inbox[0];
    HandleMsg(p, env, m);
    var a := Accept(p, m);
    match p.fsm.wrState
    case PRESENT => EntryLasts(a, S_LOCK, env.enterHw, now);
    case M_LOCK => EntryLasts(a, CALIBRATION, env.enterHw, now);
    case LOCKED => EntryLasts(a, RESP_CALIB_REQ, env.enterHw, now);
    case CALIBRATED =>
      if p.fsm.wrMode == WrMaster {
        EntryLasts(a, RESP_CALIB_REQ, env.enterHw, now);
      } else {
        EntryLasts(a, WR_LINK_ON, env.enterHw, now);
      }
  }

  lemma EagerLocks(p: Port, inbox: seq<WrMsg>, now: uint64)
    requires Running(p) && TimeoutsLast(p, inbox, now) && p.fsm.wrState == S_LOCK && p.fsm.role != NonSlave
    ensures !TimedOut(WrActions(p, EagerEnv(inbox, now)), now)
  {
    hide ToWrState, Lasts, CalTimeout;
    assert LockProgress(2, EAGER) == 2 && LockProgress(1, EAGER) == 2;
    EntryLasts(p.At(S_LOCK, 2), LOCKED, EAGER, now);
  }

  lemma EagerCalibrates(p: Port, inbox: seq<WrMsg>, now: uint64)
    requires Running(p) && TimeoutsLast(p, inbox, now) && p.fsm.wrState == CALIBRATION
    ensures !TimedOut(WrActions(p, EagerEnv(inbox, now)), now)
  {
    hide ToWrState, Lasts, CalTimeout;
    WillingCalibrates(p.fsm.sub, EAGER);
    var q := p.At(CALIBRATION, 8).(cal := Measured(p.cal, p.fsm.sub, 8, EAGER));
    EntryLasts(Issue(q, CalibratedMsgOf(q), true), CALIBRATED, EAGER, now);
  }

  lemma EagerFinishes(p: Port, env: Env)
    requires WellFormed(p) && p.fsm.wrState == RESP_CALIB_REQ && 2 <= p.fsm.sub && p.fsm.wrMode != NonWr
    requires env.doHw == EAGER && env.enterHw == EAGER && TimeoutsLast(p, [], env.now)
    ensures !TimedOut(RespFinish(p, env), env.now)
  {
    hide ToWrState, Lasts, CalTimeout;
    var q := p.At(RESP_CALIB_REQ, 3);
    EntryLasts(q, AfterResp(p), EAGER, env.now);
  }

  lemma EagerResponds(p: Port, inbox: seq<WrMsg>, now: uint64)
    requires Running(p) && TimeoutsLast(p, inbox, now) && p.fsm.wrState == RESP_CALIB_REQ
    requires p.fsm.sub <= 1 ==> inbox != [] && inbox[0].CalibratedMsg?
    ensures !TimedOut(WrActions(p, EagerEnv(inbox, now)), now)
  {
    hide Handle, RespFinish, Lasts, CalTimeout;
    var env := EagerEnv(inbox, now);
    if p.fsm.sub <= 1 {
      var p1 := p.At(RESP_CALIB_REQ, 1);
      assert p.fsm.sub == 1 ==> p1 == p;
      HandleMsg(p1, env, inbox[0]);
      var h := Accept(p1, inbox[0]);
      EagerFinishes(h.At(RESP_CALIB_REQ, if h.cal.otherSendPattern == 1 then 2 else 3), env);
    } else {
      EagerFinishes(p, env);
    }
  }

  lemma EagerLinksUp(p: Port, inbox: seq<WrMsg>, now: uint64)
    requires Running(p) && p.fsm.wrState == WR_LINK_ON
    ensures !TimedOut(WrActions(p, EagerEnv(inbox, now)), now)
  {
    var q := ToWrState(p, IDLE, EAGER, now);
    assert q.fsm.wrState == IDLE && q.fsm.wrMode == p.fsm.wrMode;
  }

  // ---------- the link ----------

  /** The node whose turn it is. */
  predicate SlaveMoves(j: Joint) {
    Phase(j) in {1, 2, 4, 5, 7, 8, 9, 10, 14, 15}
  }

  ghost predicate JointTimeoutsLast(j: Joint, now: uint64)
    requires Inv(j)
  {
    TimeoutsLast(j.slave, j.toSlave, now) && TimeoutsLast(j.master, j.toMaster, now)
  }

  lemma SlaveEager(j: Joint, now: uint64)
    requires Inv(j) && SlaveMoves(j) && JointTimeoutsLast(j, now)
    ensures !TimedOut(WrActions(j.slave, EagerEnv(j.toSlave, now)), now)
  {
    hide WrActions, TimedOut, TimeoutsLast;
    match j.slave.fsm.wrState
    case S_LOCK => EagerLocks(j.slave, j.toSlave, now);
    case CALIBRATION => EagerCalibrates(j.slave, j.toSlave, now);
    case RESP_CALIB_REQ => EagerResponds(j.slave, j.toSlave, now);
    case WR_LINK_ON => EagerLinksUp(j.slave, j.toSlave, now);
    case _ => EagerWaits(j.slave, j.toSlave, now);
  }

  lemma MasterEager(j: Joint, now: uint64)
    requires Inv(j) && !SlaveMoves(j) && Phase(j) < DONE && JointTimeoutsLast(j, now)
    ensures !TimedOut(WrActions(j.master, EagerEnv(j.toMaster, now)), now)
  {
    hide TimeoutsLast;
    match j.master.fsm.wrState
    case IDLE =>
    case CALIBRATION => EagerCalibrates(j.master, j.toMaster, now);
    case RESP_CALIB_REQ => EagerResponds(j.master, j.toMaster, now);
    case _ => EagerWaits(j.master, j.toMaster, now);
  }

  /** The willing turn of a joint state. */
  function EagerTurn(j: Joint, now: uint64): Turn {
    if SlaveMoves(j) then SlaveTurn(EagerEnv(j.toSlave, now)) else MasterTurn(EagerEnv(j.toMaster, now))
  }

  /** Main result: before completion no joint state is stuck. At any time at which the timeouts last,
      the node whose turn it is has a step that the link allows and that takes the handshake on. */
  lemma NeverStuck(j: Joint, now: uint64)
    requires Inv(j) && Phase(j) < DONE && JointTimeoutsLast(j, now)
    ensures var t := EagerTurn(j, now);
            Allowed(j, t) && Willing(j, t) && Inv(Next(j, t)) && Phase(j) < Phase(Next(j, t))
  {
    hide WrActions, DoState, TimedOut, TimeoutsLast;
    if SlaveMoves(j) {
      SlaveEager(j, now);
    } else {
      MasterEager(j, now);
    }
    TurnAdvances(j, EagerTurn(j, now));
  }

  // ---------- the premises last too ----------

  /** Every timeout that the port has or may set from its own members lasts. */
  ghost predicate PortLasts(p: Port, now: uint64) {
    && WellFormed(p)
    && (forall i :: 0 <= i < WR_TIMERS ==> Lasts(p.clock.timeouts[i], now))
    && (forall i :: 0 <= i < WR_TIMERS ==> Lasts(DefaultTimeouts(p.cfg)[i], now))
    && Lasts(CalTimeout(p.cfg.calPeriod, p.cfg), now)
    && Lasts(CalTimeout(p.cal.otherPeriod, p.cfg), now)
  }

  predicate MsgLasts(m: WrMsg, cfg: Config, now: uint64) {
    m.CalibrateMsg? ==> Lasts(CalTimeout(m.period, cfg), now)
  }

  ghost predicate InboxLasts(ms: seq<WrMsg>, cfg: Config, now: uint64) {
    forall i :: 0 <= i < |ms| ==> MsgLasts(ms[i], cfg, now)
  }

  /** Both ports, the messages in flight, and the period of either node under the configuration of
      the other. */
  ghost predicate SetupLasts(j: Joint, now: uint64) {
    && PortLasts(j.slave, now) && PortLasts(j.master, now)
    && InboxLasts(j.toSlave, j.slave.cfg, now) && InboxLasts(j.toMaster, j.master.cfg, now)
    && Lasts(CalTimeout(j.slave.cfg.calPeriod, j.master.cfg), now)
    && Lasts(CalTimeout(j.master.cfg.calPeriod, j.slave.cfg), now)
  }

  /** A step that keeps `PortLasts` keeps the configuration too. */
  ghost predicate StillLasts(p: Port, q: Port, now: uint64) {
    PortLasts(q, now) && q.cfg == p.cfg
  }

  lemma EnterLasts(p: Port, s: WrState, hw: Hw, now: uint64)
    requires PortLasts(p, now)
    ensures StillLasts(p, EnterWrState(p, s, hw), now)
  {
    hide Lasts, CalTimeout;
  }

  lemma ReInitLasts(p: Port, hw: Hw, now: uint64)
    requires PortLasts(p, now)
    ensures StillLasts(p, ReInitWrData(p, hw), now)
  {
    hide Lasts;
    assert CalTimeout(0, p.cfg) == DefaultTimeouts(p.cfg)[3];
  }

  lemma MoveLasts(p: Port, s: WrState, hw: Hw, t: uint64, now: uint64)
    requires PortLasts(p, now)
    ensures StillLasts(p, ToWrState(p, s, hw, t), now)
  {
    hide Lasts, CalTimeout, EnterWrState, ReInitWrData;
    ReInitLasts(p, hw, now);
    EnterLasts(if p.fsm.wrState == IDLE then ReInitWrData(p, hw) else p, s, hw, now);
  }

  /** What is received lasts. */
  predicate RxLasts(rx: Rx, cfg: Config, now: uint64) {
    rx.RxSignaling? && rx.msg.Some? ==> MsgLasts(rx.msg.value, cfg, now)
  }

  lemma HandleLasts(p: Port, env: Env, now: uint64)
    requires PortLasts(p, now) && RxLasts(env.rx, p.cfg, now)
    ensures StillLasts(p, Handle(p, env), now)
  {
    hide Lasts, CalTimeout, ToWrState;
    if env.rx.RxSignaling? && !env.rx.fromSelf {
      var q := if env.rx.msg.Some? then Accept(p, env.rx.msg.value) else p;
      assert StillLasts(p, q, now);
      MoveLasts(q.(fsm := q.fsm.(wrMode := WrMaster)), M_LOCK, env.signalHw, env.now, now);
    }
  }

  lemma RespFinishLasts(p: Port, env: Env, now: uint64)
    requires PortLasts(p, now) && p.fsm.wrState == RESP_CALIB_REQ && 2 <= p.fsm.sub
    ensures StillLasts(p, RespFinish(p, env), now)
  {
    hide Lasts, CalTimeout, ToWrState;
    var q := p.At(RESP_CALIB_REQ, 3);
    MoveLasts(q, WR_LINK_ON, env.enterHw, env.now, now);
    MoveLasts(q, CALIBRATION, env.enterHw, env.now, now);
    MoveLasts(q, IDLE, env.enterHw, env.now, now);
  }

  lemma RespLasts(p: Port, env: Env, now: uint64)
    requires PortLasts(p, now) && p.fsm.wrState == RESP_CALIB_REQ && RxLasts(env.rx, p.cfg, now)
    ensures StillLasts(p, DoRespCalibReq(p, env), now)
  {
    hide Lasts, CalTimeout, Handle, RespFinish, ToWrState;
    if 2 <= p.fsm.sub {
      RespFinishLasts(p, env, now);
    } else {
      var p1 := p.At(RESP_CALIB_REQ, 1);
      assert p.fsm.sub == 1 ==> p1 == p;
      HandleLasts(p1, env, now);
      var h := Handle(p1, env);
      if h.fsm.msgId == CalibratedId {
        RespFinishLasts(h.At(RESP_CALIB_REQ, if h.cal.otherSendPattern == 1 then 2 else 3), env, now);
      }
    }
  }

  lemma LinkOnLasts(p: Port, env: Env, now: uint64)
    requires PortLasts(p, now)
    ensures StillLasts(p, DoLinkOn(p, env), now)
  {
    hide Lasts, CalTimeout, ToWrState, LeavePtpState;
    MoveLasts(p, IDLE, env.enterHw, env.now, now);
    LeaveFrame(ToWrState(p, IDLE, env.enterHw, env.now));
  }

  lemma LeaveFrame(p: Port)
    ensures var q := LeavePtpState(p);
            && q.cfg == p.cfg && q.cal == p.cal && q.clock == p.clock
            && q.fsm.wrState == p.fsm.wrState && q.fsm.sub == p.fsm.sub
  {
  }

  lemma ActionsLast(p: Port, env: Env, now: uint64)
    requires PortLasts(p, now) && RxLasts(env.rx, p.cfg, now)
    ensures StillLasts(p, WrActions(p, env), now)
  {
    hide Lasts, CalTimeout, Handle, ToWrState, DoRespCalibReq, DoLinkOn;
    HandleLasts(p, env, now);
    var h := Handle(p, env);
    match p.fsm.wrState
    case IDLE =>
    case PRESENT => MoveLasts(h, S_LOCK, env.enterHw, env.now, now);
    case M_LOCK => MoveLasts(h, CALIBRATION, env.enterHw, env.now, now);
    case LOCKED => MoveLasts(h, RESP_CALIB_REQ, env.enterHw, env.now, now);
    case CALIBRATED =>
      MoveLasts(h, RESP_CALIB_REQ, env.enterHw, env.now, now);
      MoveLasts(h, WR_LINK_ON, env.enterHw, env.now, now);
    case S_LOCK => MoveLasts(p.At(S_LOCK, LockProgress(p.fsm.sub, env.doHw)), LOCKED, env.enterHw, env.now, now);
    case CALIBRATION =>
      var k := CalProgress(p.fsm.sub, env.doHw);
      var q := p.At(CALIBRATION, k).(cal := Measured(p.cal, p.fsm.sub, k, env.doHw));
      MoveLasts(Issue(q, CalibratedMsgOf(q), env.doHw.sendOk), CALIBRATED, env.enterHw, env.now, now);
    case RESP_CALIB_REQ => RespLasts(p, env, now);
    case WR_LINK_ON => LinkOnLasts(p, env, now);
  }

  /** Every CALIBRATE that a node sends carries its own period. */
  ghost predicate OwnPeriods(p: Port, q: Port) {
    forall i :: 0 <= i < |News(p, q)| && News(p, q)[i].CalibrateMsg? ==> News(p, q)[i].period == p.cfg.calPeriod
  }

  lemma SlaveNews(j: Joint, now: uint64)
    requires Inv(j) && SlaveMoves(j) && Quiet(j.slave, EagerEnv(j.toSlave, now), j.toSlave)
    ensures OwnPeriods(j.slave, DoState(j.slave, EagerEnv(j.toSlave, now)))
  {
    hide DoState, WrActions, TimedOut;
    var p, env, inbox := j.slave, EagerEnv(j.toSlave, now), j.toSlave;
    match p.fsm.wrState
    case PRESENT => PresentStep(p, env, inbox);
    case S_LOCK => LockStep(p, env, inbox);
    case LOCKED => LockedStep(p, env, inbox);
    case CALIBRATION => CalibrationStep(p, env, inbox);
    case CALIBRATED => CalibratedStep(p, env, inbox);
    case WR_LINK_ON => LinkOnStep(p, env, inbox);
    case RESP_CALIB_REQ => if p.fsm.sub <= 1 { RespAwaitStep(p, env, inbox); } else { RespLeaveStep(p, env, inbox); }
  }

  lemma MasterNews(j: Joint, now: uint64)
    requires Inv(j) && !SlaveMoves(j) && Phase(j) < DONE && Quiet(j.master, EagerEnv(j.toMaster, now), j.toMaster)
    ensures OwnPeriods(j.master, DoState(j.master, EagerEnv(j.toMaster, now)))
  {
    hide DoState, WrActions, TimedOut;
    var p, env, inbox := j.master, EagerEnv(j.toMaster, now), j.toMaster;
    match p.fsm.wrState
    case IDLE => AnswerStep(p, env);
    case M_LOCK => MLockStep(p, env, inbox);
    case CALIBRATION => CalibrationStep(p, env, inbox);
    case CALIBRATED => CalibratedStep(p, env, inbox);
    case RESP_CALIB_REQ => if p.fsm.sub <= 1 { RespAwaitStep(p, env, inbox); } else { RespLeaveStep(p, env, inbox); }
  }

  lemma InboxGrows(ms: seq<WrMsg>, p: Port, q: Port, cfg: Config, now: uint64)
    requires InboxLasts(ms, cfg, now) && OwnPeriods(p, q) && Lasts(CalTimeout(p.cfg.calPeriod, cfg), now)
    ensures InboxLasts(ms + News(p, q), cfg, now)
  {
    hide News, Lasts, CalTimeout;
  }

  /** The joint premises give those of one step. */
  lemma SetupGivesStep(j: Joint, now: uint64)
    requires Inv(j) && SetupLasts(j, now)
    ensures JointTimeoutsLast(j, now)
    ensures RxLasts(EagerEnv(j.toSlave, now).rx, j.slave.cfg, now)
    ensures RxLasts(EagerEnv(j.toMaster, now).rx, j.master.cfg, now)
  {
    hide Lasts, CalTimeout, Inv;
  }

  lemma SlaveStepLasts(j: Joint, now: uint64)
    requires Inv(j) && SlaveMoves(j) && SetupLasts(j, now)
    requires Quiet(j.slave, EagerEnv(j.toSlave, now), j.toSlave)
    ensures StillLasts(j.slave, DoState(j.slave, EagerEnv(j.toSlave, now)), now)
  {
    hide WrActions, DoState, TimedOut, Lasts, CalTimeout;
    var env := EagerEnv(j.toSlave, now);
    SetupGivesStep(j, now);
    QuietDoState(j.slave, env, j.toSlave);
    ActionsLast(j.slave, env, now);
  }

  lemma MasterStepLasts(j: Joint, now: uint64)
    requires Inv(j) && !SlaveMoves(j) && Phase(j) < DONE && SetupLasts(j, now)
    requires Quiet(j.master, EagerEnv(j.toMaster, now), j.toMaster)
    ensures StillLasts(j.master, DoState(j.master, EagerEnv(j.toMaster, now)), now)
  {
    hide WrActions, DoState, TimedOut, Lasts, CalTimeout;
    var env := EagerEnv(j.toMaster, now);
    SetupGivesStep(j, now);
    if j.master.fsm.wrState == IDLE {
      HandleLasts(j.master, env, now);
      AnswerIsHandle(j.master, env);
    } else {
      QuietDoState(j.master, env, j.toMaster);
      ActionsLast(j.master, env, now);
    }
  }

  lemma AnswerIsHandle(p: Port, env: Env)
    requires MasterOk(p) && p.fsm.wrState == IDLE && env.decision.None? && !env.sendFault
    ensures DoState(p, env) == Handle(p, env)
  {
    hide ToWrState;
    var h := Handle(p, env);
    assert h.cfg == p.cfg by {
      HandleCfg(p, env);
    }
  }

  lemma HandleCfg(p: Port, env: Env)
    requires WellFormed(p)
    ensures Handle(p, env).cfg == p.cfg
  {
  }

  /** An eager turn keeps every premise of the next one. */
  lemma EagerKeepsLasts(j: Joint, now: uint64)
    requires Inv(j) && Phase(j) < DONE && SetupLasts(j, now) && Allowed(j, EagerTurn(j, now))
    ensures SetupLasts(Next(j, EagerTurn(j, now)), now)
  {
    hide WrActions, DoState, TimedOut, Lasts, CalTimeout, Inv, PortLasts, OwnPeriods, News;
    var t := EagerTurn(j, now);
    if SlaveMoves(j) {
      SlaveNews(j, now);
      SlaveStepLasts(j, now);
      InboxGrows(j.toMaster, j.slave, DoState(j.slave, t.env), j.master.cfg, now);
    } else {
      MasterNews(j, now);
      MasterStepLasts(j, now);
      InboxGrows(j.toSlave, j.master, DoState(j.master, t.env), j.slave.cfg, now);
    }
  }

  lemma DoneMeansAgreed(j: Joint)
    requires Inv(j) && Phase(j) == DONE
    ensures Agreed(j)
  {
  }

  /** Main result for runs: from every joint state of a setup, at every time at which its timeouts
      last, the setup can be completed in agreement, in as many turns as phases are left, all of
      them at that time. */
  lemma {:induction false} CanFinishAt(j: Joint, now: uint64) returns (run: seq<Joint>, turns: seq<Turn>)
    requires Inv(j) && SetupLasts(j, now)
    ensures |run| == |turns| + 1 && run[0] == j && |turns| <= DONE - Phase(j)
    ensures forall i :: 0 <= i < |turns| ==>
              turns[i].env.now == now && Allowed(run[i], turns[i]) && run[i + 1] == Next(run[i], turns[i])
    ensures Inv(run[|turns|]) && Phase(run[|turns|]) == DONE && Agreed(run[|turns|])
    decreases DONE - Phase(j)
  {
    hide WrActions, DoState, TimedOut, Next, Allowed, Inv, Phase, Agreed, JointTimeoutsLast, Willing, SetupLasts;
    if Phase(j) == DONE {
      DoneMeansAgreed(j);
      run, turns := [j], [];
    } else {
      SetupGivesStep(j, now);
      NeverStuck(j, now);
      EagerKeepsLasts(j, now);
      var t := EagerTurn(j, now);
      var run', turns' := CanFinishAt(Next(j, t), now);
      run, turns := [j] + run', [t] + turns';
    }
  }

  /** For example with timeouts that are not negative and periods below 2^31, at any time that is not
      about to wrap. */
  lemma OrdinarySetupLasts(j: Joint, now: uint64)
    requires WellFormed(j.slave) && WellFormed(j.master) && now + 0x8000_0000 <= TWO64
    requires forall p :: p in {j.slave, j.master} ==>
               && 0 <= p.cfg.wrStateTimeout && (forall i :: 0 <= i < WR_TIMERS ==> 0 <= p.clock.timeouts[i])
               && p.cfg.calPeriod < 0x8000_0000 && p.cal.otherPeriod < 0x8000_0000
    requires forall m :: m in j.toSlave + j.toMaster && m.CalibrateMsg? ==> m.period < 0x8000_0000
    ensures SetupLasts(j, now)
  {
    hide Lasts;
    forall t: int32 | 0 <= t ensures Lasts(t, now) { OrdinaryTimeoutLasts(t, now); }
    assert j.slave in {j.slave, j.master} && j.master in {j.slave, j.master};
    assert forall i :: 0 <= i < |j.toSlave| ==> j.toSlave[i] in j.toSlave + j.toMaster;
    assert forall i :: 0 <= i < |j.toMaster| ==> j.toMaster[i] in j.toSlave + j.toMaster;
  }

  /** At the origin of time no premise on the timeouts is needed. */
  lemma CanFinish(j: Joint) returns (run: seq<Joint>, turns: seq<Turn>)
    requires Inv(j)
    ensures |run| == |turns| + 1 && run[0] == j && |turns| <= DONE - Phase(j)
    ensures forall i :: 0 <= i < |turns| ==> Allowed(run[i], turns[i]) && run[i + 1] == Next(run[i], turns[i])
    ensures Inv(run[|turns|]) && Phase(run[|turns|]) == DONE && Agreed(run[|turns|])
  {
    hide Lasts, CalTimeout, Next, Allowed, Phase, Agreed;
    forall t: int32 ensures Lasts(t, 0) { LastsAtZero(t); }
    run, turns := CanFinishAt(j, 0);
  }

  // ---------- what is not read ----------

  /** A message that a step does not read is as if it had not come: the link may deliver it again. */
  lemma UnheardIsUnread(p: Port, env: Env, inbox: seq<WrMsg>)
    requires Running(p) && Quiet(p, env, inbox) && !CallsHandle(p, env)
    ensures Quiet(p, env.(rx := RxNone), inbox) && DoState(p, env) == DoState(p, env.(rx := RxNone))
    ensures Rest(p, env, inbox) == inbox
  {
    hide WrActions, DoState, TimedOut;
    OnlyHandleReads(p, env, RxNone);
    QuietDoState(p, env, inbox);
    QuietDoState(p, env.(rx := RxNone), inbox);
  }
}
