/** Every WR slave session ends (PTPWRd/wr_protocol.c:160-231): whatever arrives, main states
    only move forward, the timer of the current one is armed, and each expiry uses up part of a
    finite allowance. */
module WrTermination {
  import opened CTypes
  import opened Timer
  import opened WrFsm
  import opened WrCoupling

  const LAST_STAGE: nat := 6

  /** Position of a main state on the slave's path. */
  function Stage(s: WrState): (k: nat)
    requires SlavePath(s)
    ensures k <= LAST_STAGE
  {
    match s
    case PRESENT => 0
    case S_LOCK => 1
    case LOCKED => 2
    case RESP_CALIB_REQ => 3
    case CALIBRATION => 4
    case CALIBRATED => 5
    case WR_LINK_ON => 6
  }

  /** Largest retry budget of a stage; in RESP_CALIB_REQ the other node dictates it. */
  function Cap(k: nat, cfg: Config): uint8 {
    if k == Stage(RESP_CALIB_REQ) then 255
    else if k == Stage(CALIBRATION) && 0 < cfg.calRetry then cfg.calRetry
    else cfg.wrStateRetry
  }

  /** Expiries allowed in the stages after `k`. */
  function Later(k: nat, cfg: Config): nat
    requires k <= LAST_STAGE
    decreases LAST_STAGE - k
  {
    if k == LAST_STAGE then 0 else Cap(k + 1, cfg) + 1 + Later(k + 1, cfg)
  }

  lemma {:induction false} LaterDrops(k: nat, k': nat, cfg: Config)
    requires k < k' <= LAST_STAGE
    ensures Later(k', cfg) + Cap(k', cfg) + 1 <= Later(k, cfg)
    decreases k'
  {
    if k + 1 < k' {
      LaterDrops(k, k' - 1, cfg);
      assert Later(k' - 1, cfg) == Cap(k', cfg) + 1 + Later(k', cfg);
    }
  }

  predicate TimeoutsSet(ts: seq<int32>) {
    |ts| == WR_TIMERS && forall i :: 0 <= i < WR_TIMERS ==> ts[i] != 0
  }

  /** A running slave session, configured with a non-zero state timeout. */
  ghost predicate Session(p: Port) {
    && WellFormed(p)
    && SlaveSession(p)
    && p.cfg.wrStateTimeout != 0
    && TimeoutsSet(p.clock.timeouts)
    && Armed(p.clock.timers[TimerIndex(p.fsm.wrState)])
    && p.clock.stateCnt <= Cap(Stage(p.fsm.wrState), p.cfg)
  }

  /** Expiries the session can still survive, plus one. */
  ghost function Allowance(p: Port): (m: nat)
    requires Session(p)
    ensures 0 < m
  {
    Later(Stage(p.fsm.wrState), p.cfg) + Cap(Stage(p.fsm.wrState), p.cfg) - p.clock.stateCnt + 1
  }

  /** The step finds the timer of the main state it ends its actions in expired. */
  predicate Expires(p: Port, env: Env)
    requires WellFormed(p)
  {
    TimedOut(WrActions(p, env), env.now)
  }

  /** Entering a state touches the clock only through a non-zero timeout. */
  lemma EnterKeeps(p: Port, s: WrState, hw: Hw)
    requires Session(p) && SlavePath(s)
    ensures var e := EnterWrState(p, s, hw);
            && e.fsm.wrState == s && SlaveSession(e) && e.cfg == p.cfg
            && e.clock == p.clock.(timeouts := e.clock.timeouts) && TimeoutsSet(e.clock.timeouts)
  {
  }

  lemma ClockMoves(c: WrClock, entering: WrState, exiting: WrState, now: uint64)
    requires |c.timers| == WR_TIMERS && TimeoutsSet(c.timeouts) && entering != IDLE
    ensures var d := TimeoutManage(c, entering, exiting, now);
            && |d.timers| == WR_TIMERS && d.timeouts == c.timeouts && Armed(d.timers[TimerIndex(entering)])
            && (entering != exiting ==> d.stateCnt == 0)
  {
  }

  /** Entering a later stage keeps the session and uses up allowance. */
  lemma ForwardMove(p: Port, s: WrState, hw: Hw, now: uint64)
    requires Session(p) && SlavePath(s) && Stage(p.fsm.wrState) < Stage(s)
    ensures var q := ToWrState(p, s, hw, now);
            Session(q) && q.fsm.wrState == s && q.cfg == p.cfg && Allowance(q) < Allowance(p)
  {
    hide EnterWrState, TimeoutManage, Later, Cap;
    LaterDrops(Stage(p.fsm.wrState), Stage(s), p.cfg);
    EnterKeeps(p, s, hw);
    var e := EnterWrState(p, s, hw);
    ClockMoves(e.clock, s, p.fsm.wrState, now);
  }

  lemma SameSession(p: Port, q: Port)
    requires Session(p) && SlaveSession(q) && WellFormed(q)
    requires q.clock == p.clock && q.cfg == p.cfg && q.fsm.wrState == p.fsm.wrState
    ensures Session(q) && Allowance(q) == Allowance(p)
  {
  }

  /** A message may change what is known of the other node, nothing that matters here. */
  lemma HandleKeepsSession(p: Port, env: Env)
    requires Session(p)
    ensures var q := Handle(p, env); Session(q) && Allowance(q) == Allowance(p) && q.fsm == p.fsm.(msgId := q.fsm.msgId)
    ensures Handle(p, env).cfg == p.cfg && Handle(p, env).clock == p.clock
  {
    hide Later, Cap;
    HandleInSession(p, env);
    assert ToFaulty(p) == p;
  }

  /** The actions of a step keep the session, or end it in WRS_IDLE. */
  lemma ActionsAdvance(p: Port, env: Env)
    requires Session(p)
    ensures var q := WrActions(p, env);
            && WellFormed(q)
            && (q.fsm.wrState == IDLE || (Session(q) && Allowance(q) <= Allowance(p) && q.cfg == p.cfg
                                          && Stage(p.fsm.wrState) <= Stage(q.fsm.wrState)))
  {
    match p.fsm.wrState {
      case S_LOCK => LockAdvances(p, env);
      case CALIBRATION => CalibrationAdvances(p, env);
      case RESP_CALIB_REQ => RespAdvances(p, env);
      case WR_LINK_ON =>
      case _ => MessageAdvances(p, env);
    }
  }

  lemma LockAdvances(p: Port, env: Env)
    requires Session(p) && p.fsm.wrState == S_LOCK
    ensures var q := DoSLock(p, env);
            Session(q) && Allowance(q) <= Allowance(p) && q.cfg == p.cfg && Stage(S_LOCK) <= Stage(q.fsm.wrState)
  {
    var q := p.At(S_LOCK, LockProgress(p.fsm.sub, env.doHw));
    SameSession(p, q);
    ForwardMove(q, LOCKED, env.enterHw, env.now);
  }

  lemma CalibrationAdvances(p: Port, env: Env)
    requires Session(p) && p.fsm.wrState == CALIBRATION
    ensures var q := DoCalibration(p, env);
            Session(q) && Allowance(q) <= Allowance(p) && q.cfg == p.cfg && Stage(CALIBRATION) <= Stage(q.fsm.wrState)
  {
    var k := CalProgress(p.fsm.sub, env.doHw);
    var q := p.At(CALIBRATION, k).(cal := Measured(p.cal, p.fsm.sub, k, env.doHw));
    SameSession(p, q);
    var i := Issue(q, CalibratedMsgOf(q), env.doHw.sendOk);
    SameSession(q, i);
    ForwardMove(i, CALIBRATED, env.enterHw, env.now);
    var r := ToWrState(i, CALIBRATED, env.enterHw, env.now);
    SameSession(r, r.(cal := r.cal.(calibrated := true)));
  }

  lemma RespAdvances(p: Port, env: Env)
    requires Session(p) && p.fsm.wrState == RESP_CALIB_REQ
    ensures var q := DoRespCalibReq(p, env);
            && Session(q) && Allowance(q) <= Allowance(p) && q.cfg == p.cfg
            && Stage(RESP_CALIB_REQ) <= Stage(q.fsm.wrState)
  {
    if p.fsm.sub <= 1 {
      SameSession(p, p.At(RESP_CALIB_REQ, 1));
      AwaitAdvances(p.At(RESP_CALIB_REQ, 1), env);
      assert p.fsm.sub == 1 ==> p.At(RESP_CALIB_REQ, 1) == p;
    } else {
      FinishAdvances(p, env);
    }
  }

  lemma AwaitAdvances(p: Port, env: Env)
    requires Session(p) && p.fsm.wrState == RESP_CALIB_REQ
    ensures var q := RespAwait(p, env);
            && Session(q) && Allowance(q) <= Allowance(p) && q.cfg == p.cfg
            && Stage(RESP_CALIB_REQ) <= Stage(q.fsm.wrState)
  {
    HandleKeepsSession(p, env);
    var h := Handle(p, env);
    var k := if h.cal.otherSendPattern == 1 then 2 else 3;
    SameSession(h, h.At(RESP_CALIB_REQ, k));
    FinishAdvances(h.At(RESP_CALIB_REQ, k), env);
  }

  lemma FinishAdvances(p: Port, env: Env)
    requires Session(p) && p.fsm.wrState == RESP_CALIB_REQ && 2 <= p.fsm.sub
    ensures var q := RespFinish(p, env);
            && Session(q) && Allowance(q) <= Allowance(p) && q.cfg == p.cfg
            && Stage(RESP_CALIB_REQ) <= Stage(q.fsm.wrState)
  {
    var r := p.At(RESP_CALIB_REQ, 3);
    SameSession(p, r);
    ForwardMove(r, CALIBRATION, env.enterHw, env.now);
  }

  lemma MessageAdvances(p: Port, env: Env)
    requires Session(p) && p.fsm.wrState in {PRESENT, LOCKED, CALIBRATED}
    ensures var q := WrActions(p, env);
            && Session(q) && Allowance(q) <= Allowance(p) && q.cfg == p.cfg
            && Stage(p.fsm.wrState) <= Stage(q.fsm.wrState)
  {
    HandleKeepsSession(p, env);
    var h := Handle(p, env);
    match p.fsm.wrState {
      case PRESENT => ForwardMove(h, S_LOCK, env.enterHw, env.now);
      case LOCKED => ForwardMove(h, RESP_CALIB_REQ, env.enterHw, env.now);
      case CALIBRATED => ForwardMove(h, WR_LINK_ON, env.enterHw, env.now);
    }
  }

  /** Repeating the current state re-arms its timer and counts the repetition. */
  lemma RepeatState(p: Port, hw: Hw, now: uint64)
    requires Session(p) && p.clock.stateCnt < RetryBudget(p)
    ensures var q := ToWrState(p, p.fsm.wrState, hw, now);
            && Session(q) && q.fsm.wrState == p.fsm.wrState && q.cfg == p.cfg
            && Allowance(q) == Allowance(p) - 1
  {
    hide EnterWrState, Later;
    assert p.clock.stateCnt < Cap(Stage(p.fsm.wrState), p.cfg);
    EnterKeeps(p, p.fsm.wrState, hw);
    var e := EnterWrState(p, p.fsm.wrState, hw);
    ClockMoves(e.clock, p.fsm.wrState, p.fsm.wrState, now);
  }

  lemma TimeoutUsesAllowance(p: Port, env: Env)
    requires Session(p) && TimedOut(p, env.now)
    ensures var q := WrTimeout(p, env);
            q.fsm.wrState == IDLE || (Session(q) && Allowance(q) < Allowance(p) && q.fsm.wrState == p.fsm.wrState)
  {
    var r := PolledPort(p, env.now);
    assert Session(r) && Allowance(r) == Allowance(p);
    if p.clock.stateCnt < RetryBudget(p) {
      RepeatState(r, env.retryHw, env.now);
    }
  }

  /** Main result for one step: the session ends, or it goes on with its timer armed in the same
      or a later main state, and with less allowance if a timer expired. */
  lemma SessionStep(p: Port, env: Env)
    requires Session(p)
    ensures var q := DoState(p, env);
            || q.fsm.wrState == IDLE
            || (&& Session(q)
                && Stage(p.fsm.wrState) <= Stage(q.fsm.wrState)
                && Allowance(q) <= Allowance(p)
                && (Expires(p, env) ==> Allowance(q) < Allowance(p)))
  {
    hide WrActions, ToWrState, Abandon, Later, Cap;
    SessionTurn(p, env);
    ActionsAdvance(p, env);
    var a := WrActions(p, env);
    if a.fsm.wrState != IDLE {
      if TimedOut(a, env.now) {
        TimeoutUsesAllowance(a, env);
      }
      var t := WrTimeout(a, env);
      if t.fsm.wrState != IDLE {
        SameSession(t, ClearMsg(t));
      }
    }
  }

  lemma SessionTurn(p: Port, env: Env)
    requires WellFormed(p) && SlaveSession(p)
    ensures DoState(p, env) == ClearMsg(WrTimeout(WrActions(p, env), env))
  {
    hide WrActions, WrTimeout;
  }

  /** A port about to start a session as WR slave. */
  ghost predicate Starts(p: Port) {
    && WellFormed(p) && p.fsm.wrState == IDLE && p.fsm.role != NonSlave
    && WrSlaveCandidate(LeavePtpState(p)) && !(p.parent.wrModeOn && p.fsm.wrModeOn)
  }

  /** Leaving WRS_IDLE for WRS_PRESENT starts a slave session with its timer armed; with a state
      timeout that is not zero all its timers will be armed, and its allowance is full. */
  lemma SessionStarts(p: Port, hw: Hw, now: uint64)
    requires Starts(p)
    ensures var q := ToState(p, UNCALIBRATED, hw, now);
            && SlaveSession(q) && q.fsm.wrState == PRESENT && q.fsm.msgId == p.fsm.msgId
            && q.clock.timeouts == DefaultTimeouts(p.cfg) && q.cfg == p.cfg
            && q.clock.timers[TimerIndex(PRESENT)] == IntervalTimer(now, 1000)
            && (Session(q) <==> p.cfg.wrStateTimeout != 0)
            && (p.cfg.wrStateTimeout != 0 ==>
                  Allowance(q) == 5 * (p.cfg.wrStateRetry + 1) + (Cap(Stage(CALIBRATION), p.cfg) + 1) + 256)
  {
    hide Later;
    FullAllowance(p.cfg);
  }

  lemma FullAllowance(cfg: Config)
    ensures Later(0, cfg) == 4 * (cfg.wrStateRetry + 1) + (Cap(Stage(CALIBRATION), cfg) + 1) + 256
  {
    assert Later(5, cfg) == Cap(6, cfg) + 1;
    assert Later(3, cfg) == Cap(4, cfg) + 1 + Later(4, cfg);
    assert Later(1, cfg) == Cap(2, cfg) + 1 + Later(2, cfg);
  }

  /** Turns that find a timer expired. */
  function CountExpiries(ports: seq<Port>, events: seq<PortEvent>): nat
    requires |ports| == |events| + 1
    requires forall i :: 0 <= i < |events| ==> WellFormed(ports[i])
    decreases |events|
  {
    if |events| == 0 then 0
    else
      var n := |events| - 1;
      CountExpiries(ports[..n + 1], events[..n])
      + (if events[n].DoStateEvent? && Expires(ports[n], events[n].env) then 1 else 0)
  }

  /** Main result for runs: while a session lasts, expiries and allowance balance, so a run with
      as many expiries as the session's first allowance has left the session. */
  lemma {:induction false} SessionsEnd(ports: seq<Port>, events: seq<PortEvent>)
    requires IsRun(ports, events) && Session(ports[0])
    requires forall i :: 0 <= i < |ports| ==> ports[i].fsm.wrState != IDLE
    ensures Session(ports[|events|])
    ensures CountExpiries(ports, events) + Allowance(ports[|events|]) <= Allowance(ports[0])
    ensures CountExpiries(ports, events) < Allowance(ports[0])
    decreases |events|
  {
    if |events| > 0 {
      var n := |events| - 1;
      assert IsRun(ports[..n + 1], events[..n]);
      SessionsEnd(ports[..n + 1], events[..n]);
      assert ports[n + 1] == AfterEvent(ports[n], events[n]);
      match events[n]
      case DoStateEvent(env) => SessionStep(ports[n], env);
      case DoInitEvent(cfg, env) => DoInitCouples(ports[n], cfg, env);
    }
  }

  // ---------- sessions that never end ----------

  /** A running session that nothing but a signaling message can ever move: whatever time passes,
      whatever the hardware reports and whatever else is received, a turn changes nothing at all. */
  ghost predicate Stalls(p: Port) {
    && WellFormed(p) && p.fsm.wrState != IDLE
    && forall env: Env :: !env.rx.RxSignaling? ==> DoState(p, env) == p
  }

  /** LOCK is heard in WRS_PRESENT, in time. */
  predicate HearsLock(env: Env) {
    env.rx == RxSignaling(Some(LockMsg), false) && env.now + 10000 < TWO64
  }

  /** The PLL locks. */
  predicate Locks(env: Env) {
    env.doHw.lockEnable && env.doHw.lockReady && env.doHw.lockDisable
  }

  lemma EntryClock(p: Port, s: WrState, hw: Hw, now: uint64)
    requires WellFormed(p) && p.fsm.wrState != IDLE && p.fsm.role != NonSlave && s in {S_LOCK, LOCKED}
    ensures var q := ToWrState(p, s, hw, now);
            && q.clock.timeouts == p.clock.timeouts
            && q.clock.timers[TimerIndex(s)] == IntervalTimer(now, p.clock.timeouts[TimerIndex(s)])
  {
  }

  lemma HearLock(p: Port, env: Env)
    requires WellFormed(p) && SlaveSession(p) && p.fsm.wrState == PRESENT && p.clock.timeouts == DefaultTimeouts(p.cfg)
    requires HearsLock(env)
    ensures var q := DoState(p, env);
            && SlaveSession(q) && q.fsm.wrState == S_LOCK && q.fsm.msgId == NullTlv && q.cfg == p.cfg
            && q.clock.timeouts == p.clock.timeouts
  {
    hide ToWrState, Abandon;
    var h := Accept(p, LockMsg);
    assert Handle(p, env) == h;
    TransitionToMain(h, S_LOCK, env.enterHw, env.now);
    EntryClock(h, S_LOCK, env.enterHw, env.now);
    assert Decide(p, env) == p && !TimedOut(WrActions(p, env), env.now);
  }

  lemma TransitionKeepsMail(p: Port, s: WrState, hw: Hw, now: uint64)
    requires WellFormed(p) && p.fsm.wrState != IDLE
    ensures ToWrState(p, s, hw, now).fsm.msgId == p.fsm.msgId
  {
  }

  lemma Lock(p: Port, env: Env)
    requires WellFormed(p) && SlaveSession(p) && p.fsm.wrState == S_LOCK && p.fsm.msgId == NullTlv && Locks(env)
    requires p.clock.timeouts[TimerIndex(LOCKED)] == 0
    ensures var q := DoState(p, env);
            && SlaveSession(q) && q.fsm.wrState == LOCKED && q.fsm.msgId == NullTlv
            && !Armed(q.clock.timers[TimerIndex(LOCKED)])
  {
    hide ToWrState, Abandon;
    assert LockProgress(1, env.doHw) == 2;
    TransitionToMain(p.At(S_LOCK, 2), LOCKED, env.enterHw, env.now);
    EntryClock(p.At(S_LOCK, 2), LOCKED, env.enterHw, env.now);
    TransitionKeepsMail(p.At(S_LOCK, 2), LOCKED, env.enterHw, env.now);
    assert Decide(p, env) == p && !TimedOut(WrActions(p, env), env.now);
  }

  lemma UnarmedLockedStalls(p: Port)
    requires WellFormed(p) && SlaveSession(p) && p.fsm.wrState == LOCKED && p.fsm.msgId == NullTlv
    requires !Armed(p.clock.timers[TimerIndex(LOCKED)])
    ensures Stalls(p)
  {
    forall env: Env | !env.rx.RxSignaling?
      ensures DoState(p, env) == p
    {
      UnarmedStep(p, env);
    }
  }

  lemma UnarmedStep(p: Port, env: Env)
    requires WellFormed(p) && SlaveSession(p) && p.fsm.wrState == LOCKED && p.fsm.msgId == NullTlv
    requires !Armed(p.clock.timers[TimerIndex(LOCKED)]) && !env.rx.RxSignaling?
    ensures DoState(p, env) == p && !Expires(p, env)
  {
    assert Decide(p, env) == p && WrActions(p, env) == p;
  }

  /** The failing half: with a zero state timeout every session that hears its LOCK and locks its PLL
      stalls in WRS_LOCKED, with no timer running. */
  lemma ZeroTimeoutStalls(p: Port, hw: Hw, now: uint64, hear: Env, lock: Env)
    requires Starts(p) && p.cfg.wrStateTimeout == 0 && HearsLock(hear) && Locks(lock)
    ensures var q := DoState(DoState(ToState(p, UNCALIBRATED, hw, now), hear), lock);
            Stalls(q) && q.fsm.wrState == LOCKED && q.fsm.portState == UNCALIBRATED
  {
    hide DoState, Stalls;
    SessionStarts(p, hw, now);
    var q := ToState(p, UNCALIBRATED, hw, now);
    HearLock(q, hear);
    Lock(DoState(q, hear), lock);
    UnarmedLockedStalls(DoState(DoState(q, hear), lock));
  }

  /** Hardware that does nothing, nothing received. */
  const DEAF := Hw(false, false, false, false, false, false, None, false, false, None, false, 0, 0, true)

  function SilentEnv(now: uint64): Env {
    Env(None, true, RxNone, now, false, false, DEAF, DEAF, DEAF, DEAF)
  }

  /** A session with all its timers is moved by time alone: at the deadline of its main state, at
      the latest, it repeats that state, leaves it or ends. */
  lemma SessionNeverStalls(p: Port)
    requires Session(p)
    ensures !Stalls(p)
  {
    hide DoState, WrActions, Later, Cap, TimedOut, Abandon, ToWrState;
    var env := SilentEnv(Deadline(p.clock.timers[TimerIndex(p.fsm.wrState)]));
    var a := WrActions(p, env);
    SessionTurn(p, env);
    if p.fsm.msgId == NullTlv {
      SilentActs(p, env);
      ActionsAdvance(p, env);
      SessionStep(p, env);
    }
    assert DoState(p, env) != p;
  }

  /** Time has come, and nothing else happens. */
  lemma SilentActs(p: Port, env: Env)
    requires Session(p) && p.fsm.msgId == NullTlv
    requires env == SilentEnv(env.now) && Deadline(p.clock.timers[TimerIndex(p.fsm.wrState)]) <= env.now
    ensures var a := WrActions(p, env); a.fsm.wrState != p.fsm.wrState || TimedOut(a, env.now)
  {
    hide ToWrState;
    match p.fsm.wrState
    case CALIBRATION =>
      var q := p.At(CALIBRATION, p.fsm.sub).(cal := Measured(p.cal, p.fsm.sub, p.fsm.sub, DEAF));
      TransitionToMain(Issue(q, CalibratedMsgOf(q), true), CALIBRATED, env.enterHw, env.now);
    case RESP_CALIB_REQ => TransitionToMain(p.At(RESP_CALIB_REQ, 3), CALIBRATION, env.enterHw, env.now);
    case WR_LINK_ON => EntersIdle(p, env.enterHw, env.now);
    case _ =>
  }

  /** A run inside one session that ends stalled. */
  ghost predicate StallingRun(start: Port, ports: seq<Port>, events: seq<PortEvent>) {
    && IsRun(ports, events) && ports[0] == start
    && (forall i :: 0 <= i < |ports| ==> ports[i].fsm.wrState != IDLE)
    && Stalls(ports[|events|])
  }

  lemma NonZeroNeverStalls(start: Port, ports: seq<Port>, events: seq<PortEvent>)
    requires Session(start)
    ensures !StallingRun(start, ports, events)
  {
    hide Session, Stalls, DoState;
    if StallingRun(start, ports, events) {
      SessionsEnd(ports, events);
      SessionNeverStalls(ports[|events|]);
    }
  }

  lemma ZeroStalls(p: Port, hw: Hw, now: uint64) returns (ports: seq<Port>, events: seq<PortEvent>)
    requires Starts(p) && p.cfg.wrStateTimeout == 0
    ensures StallingRun(ToState(p, UNCALIBRATED, hw, now), ports, events)
  {
    hide DoState, Stalls, ToState, Session;
    var q := ToState(p, UNCALIBRATED, hw, now);
    var hear := SilentEnv(0).(rx := RxSignaling(Some(LockMsg), false));
    var lock := SilentEnv(0).(doHw := DEAF.(lockEnable := true, lockReady := true, lockDisable := true));
    SessionStarts(p, hw, now);
    HearLock(q, hear);
    ZeroTimeoutStalls(p, hw, now, hear, lock);
    ports, events := [q, DoState(q, hear), DoState(DoState(q, hear), lock)], [DoStateEvent(hear), DoStateEvent(lock)];
  }

  /** Main result: some run inside a started session stalls exactly when the configured state timeout
      is zero. */
  lemma StallsExactlyWhen(p: Port, hw: Hw, now: uint64)
    requires Starts(p)
    ensures (exists ports, events :: StallingRun(ToState(p, UNCALIBRATED, hw, now), ports, events))
            <==> p.cfg.wrStateTimeout == 0
  {
    hide StallingRun, Session, ToState;
    SessionStarts(p, hw, now);
    var q := ToState(p, UNCALIBRATED, hw, now);
    if p.cfg.wrStateTimeout == 0 {
      var ports, events := ZeroStalls(p, hw, now);
    } else {
      forall ports, events
        ensures !StallingRun(q, ports, events)
      {
        NonZeroNeverStalls(q, ports, events);
      }
    }
  }
}
