/** Timeouts, repetitions and giving up (PTPWRd/wr_protocol.c:160-231, 613-937, 940-1003): how long a
    node bears that nothing happens, and what becomes of it then. */
module WrGiveUp {
  import opened CTypes
  import opened Timer
  import opened WrFsm
  import opened WrCoupling

  // ----- the timeout of each state -----

  /** The timeouts that no message changes. */
  ghost predicate StandardTimeouts(p: Port) {
    && WellFormed(p)
    && p.clock.timeouts[TimerIndex(PRESENT)] == 1000
    && p.clock.timeouts[TimerIndex(S_LOCK)] == 10000
    && p.clock.timeouts[TimerIndex(M_LOCK)] == 10000
    && p.clock.timeouts[TimerIndex(LOCKED)] == p.cfg.wrStateTimeout
    && p.clock.timeouts[TimerIndex(CALIBRATED)] == p.cfg.wrStateTimeout
    && p.clock.timeouts[TimerIndex(WR_LINK_ON)] == p.cfg.wrStateTimeout
  }

  /** A period that is announced as zero means the configured timeout. */
  function Period(announced: uint32, cfg: Config): int32 {
    if announced == 0 then cfg.wrStateTimeout else ToInt32(announced)
  }

  /** How long the port waits in its main state. */
  ghost function Patience(p: Port): int32
    requires WellFormed(p) && p.fsm.wrState != IDLE
  {
    match p.fsm.wrState
    case PRESENT => 1000
    case S_LOCK => 10000
    case M_LOCK => 10000
    case CALIBRATION => Period(p.cfg.calPeriod, p.cfg)
    case RESP_CALIB_REQ =>
      if p.cal.otherSendPattern == 1 then Period(p.cal.otherPeriod, p.cfg)
      else p.clock.timeouts[TimerIndex(RESP_CALIB_REQ)]
    case _ => p.cfg.wrStateTimeout
  }

  /** How often it starts that state again. */
  function Repetitions(p: Port): uint8 {
    match p.fsm.wrState
    case CALIBRATION => if p.cfg.calRetry != 0 then p.cfg.calRetry else p.cfg.wrStateRetry
    case RESP_CALIB_REQ => if p.cal.otherRetry != 0 then p.cal.otherRetry else p.cfg.wrStateRetry
    case _ => p.cfg.wrStateRetry
  }

  lemma IssueFrame(p: Port, sendOk: bool)
    ensures forall m ::
              var q := Issue(p, m, sendOk);
              && q.clock == p.clock && q.cfg == p.cfg && q.cal == p.cal
              && q.fsm.wrState == p.fsm.wrState && q.fsm.sub == p.fsm.sub
  {
  }

  /** The tasks of an entry set at most the timeout of the state entered. */
  lemma EntryTimeout(p: Port, s: WrState, hw: Hw)
    requires StandardTimeouts(p) && s != IDLE && (s == S_LOCK ==> p.fsm.role != NonSlave)
    ensures var q := EnterWrState(p, s, hw);
            && q.fsm.wrState == s && StandardTimeouts(q)
            && q.clock.timers == p.clock.timers && q.clock.stateCnt == p.clock.stateCnt
            && q.clock.timeouts[TimerIndex(s)] == Patience(q)
            && (s != RESP_CALIB_REQ ==>
                  q.clock.timeouts[TimerIndex(RESP_CALIB_REQ)] == p.clock.timeouts[TimerIndex(RESP_CALIB_REQ)])
  {
    hide Issue, ToInt32;
    IssueFrame(p, hw.sendOk);
    IssueFrame(p.(fsm := p.fsm.(wrModeOn := true)), hw.sendOk);
  }

  lemma FreshTimeouts(p: Port, hw: Hw)
    requires WellFormed(p)
    ensures var q := ReInitWrData(p, hw);
            && StandardTimeouts(q) && q.clock.timeouts[TimerIndex(RESP_CALIB_REQ)] == p.cfg.wrStateTimeout
            && q.clock.timers == p.clock.timers && q.clock.stateCnt == p.clock.stateCnt
            && q.fsm.role == p.fsm.role
  {
  }

  lemma TimersMove(c: WrClock, entering: WrState, exiting: WrState, now: uint64)
    requires |c.timers| == WR_TIMERS == |c.timeouts| && entering != IDLE
    ensures var d := TimeoutManage(c, entering, exiting, now);
            && |d.timers| == WR_TIMERS && d.timeouts == c.timeouts
            && d.timers[TimerIndex(entering)] == IntervalTimer(now, c.timeouts[TimerIndex(entering)])
            && (exiting !in {IDLE, entering} ==> d.timers[TimerIndex(exiting)].interval == 0)
            && d.stateCnt == (if exiting == entering then (c.stateCnt + 1) % 256 else 0)
  {
  }

  /** Every entry of a main state starts its timer with the patience for that state; the timer of another
      state that is left is stopped, and repetitions are counted anew unless the state is the same. */
  lemma EntryTimer(p: Port, s: WrState, hw: Hw, now: uint64)
    requires WellFormed(p) && s != IDLE && (s == S_LOCK ==> p.fsm.role != NonSlave)
    requires if p.fsm.wrState == IDLE then s in {PRESENT, M_LOCK} else StandardTimeouts(p)
    ensures var q := ToWrState(p, s, hw, now);
            && q.fsm.wrState == s && StandardTimeouts(q)
            && q.clock.timers[TimerIndex(s)] == IntervalTimer(now, Patience(q))
            && (p.fsm.wrState !in {IDLE, s} ==> q.clock.timers[TimerIndex(p.fsm.wrState)].interval == 0)
            && q.clock.stateCnt == (if p.fsm.wrState == s then (p.clock.stateCnt + 1) % 256 else 0)
            && (s != RESP_CALIB_REQ ==>
                  q.clock.timeouts[TimerIndex(RESP_CALIB_REQ)] ==
                  if p.fsm.wrState == IDLE then p.cfg.wrStateTimeout
                  else p.clock.timeouts[TimerIndex(RESP_CALIB_REQ)])
  {
    hide EnterWrState, ReInitWrData, TimeoutManage;
    FreshTimeouts(p, hw);
    var left := if p.fsm.wrState == IDLE then ReInitWrData(p, hw) else p;
    EntryTimeout(left, s, hw);
    TimersMove(EnterWrState(left, s, hw).clock, s, p.fsm.wrState, now);
  }

  /** A node that is asked to calibrate waits and repeats as the other node asked it to, and sends a
      pattern only if it was asked for one. */
  lemma RequestHonoured(p: Port, env: Env, pattern: uint8, retry: uint8, period: uint32)
    requires StandardTimeouts(p) && Coupled(p) && p.fsm.portState in {UNCALIBRATED, MASTER}
    requires if p.fsm.wrMode == WrMaster then p.fsm.wrState == CALIBRATED else p.fsm.wrState == LOCKED
    requires env.rx == RxSignaling(Some(CalibrateMsg(pattern, retry, period)), false)
    ensures var q := WrActions(p, env);
            && q.fsm.wrState == RESP_CALIB_REQ && Coupled(q) && q.outbox == p.outbox
            && q.fsm.sub == (if pattern == 1 && !env.enterHw.patternEnable then 0 else 1)
            && Repetitions(q) == (if retry != 0 then retry else p.cfg.wrStateRetry)
            && q.clock.timers[TimerIndex(RESP_CALIB_REQ)] ==
               IntervalTimer(env.now, if pattern != 1 then p.clock.timeouts[TimerIndex(RESP_CALIB_REQ)]
                                      else if period == 0 then p.cfg.wrStateTimeout else ToInt32(period))
  {
    hide TimeoutManage, ToInt32;
    var a := Accept(p, CalibrateMsg(pattern, retry, period));
    assert Handle(p, env) == a;
    EntryTimer(a, RESP_CALIB_REQ, env.enterHw, env.now);
    TransitionToMain(a, RESP_CALIB_REQ, env.enterHw, env.now);
    RespEntry(a, env.enterHw, env.now);
  }

  lemma RespEntry(p: Port, hw: Hw, now: uint64)
    requires WellFormed(p) && p.fsm.wrState !in {IDLE, RESP_CALIB_REQ}
    ensures var q := ToWrState(p, RESP_CALIB_REQ, hw, now);
            && q.cal == p.cal && q.outbox == p.outbox
            && q.fsm.sub == (if p.cal.otherSendPattern == 1 && !hw.patternEnable then 0 else 1)
            && (p.cal.otherSendPattern != 1 ==>
                  q.clock.timeouts[TimerIndex(RESP_CALIB_REQ)] == p.clock.timeouts[TimerIndex(RESP_CALIB_REQ)])
  {
    hide TimeoutManage;
    TimersMove(EnterWrState(p, RESP_CALIB_REQ, hw).clock, RESP_CALIB_REQ, p.fsm.wrState, now);
  }

  // ----- nothing happens -----

  /** A running session whose timer was started with the patience for its main state. */
  ghost predicate Waiting(p: Port) {
    && StandardTimeouts(p) && Coupled(p) && p.fsm.wrState != IDLE
    && p.clock.timers[TimerIndex(p.fsm.wrState)].interval == Patience(p)
    && p.clock.stateCnt <= Repetitions(p)
  }

  /** Nothing about WR is received, and the hardware does not let the main state be left. */
  predicate Idles(p: Port, env: Env)
    requires WellFormed(p)
  {
    env.rx in {RxNone, RxOther(false)} && WrActions(p, env).fsm.wrState == p.fsm.wrState
  }

  /** The timer of the main state has run out. */
  predicate RunsOut(p: Port, now: uint64)
    requires WellFormed(p) && p.fsm.wrState != IDLE
  {
    IsExpired(p.clock.timers[TimerIndex(p.fsm.wrState)], now)
  }

  /** White Rabbit was given up: the port goes on as plain PTP master or slave, or is disabled if it may
      not fall back, and its WR data are those of a new port. */
  ghost predicate GivenUp(p: Port, q: Port) {
    && q.fsm.wrState == IDLE && q.fsm.wrMode == NonWr && !q.fsm.wrModeOn && q.fsm.role == NonSlave
    && q.fsm.portState == (if p.cfg.disableFallback then DISABLED
                           else if p.fsm.portState == MASTER then MASTER else SLAVE)
    && q.cfg == p.cfg && q.outbox == p.outbox && StandardTimeouts(q)
    && q.cal.otherPeriod == 0 && q.cal.otherRetry == 0 && q.cal.otherSendPattern == 0
    && q.cal.otherDeltaTx == q.cal.otherDeltaRx == ZERO_DELTA
  }

  /** What actions that lead nowhere leave as it was. */
  ghost predicate SameWait(p: Port, q: Port) {
    && WellFormed(q) && q.clock == p.clock && q.cfg == p.cfg && q.outbox == p.outbox
    && q.fsm.(sub := p.fsm.sub) == p.fsm
    && q.cal.(deltaTx := p.cal.deltaTx, deltaRx := p.cal.deltaRx) == p.cal
  }

  lemma SilentHandle(p: Port, env: Env)
    requires WellFormed(p) && env.rx in {RxNone, RxOther(false)}
    ensures Handle(p, env) == p
  {
  }

  lemma Leaves(p: Port, s: WrState, hw: Hw, now: uint64)
    requires WellFormed(p) && p.fsm.wrState != IDLE && s != p.fsm.wrState && (s == S_LOCK ==> p.fsm.role != NonSlave)
    ensures ToWrState(p, s, hw, now).fsm.wrState != p.fsm.wrState
  {
    hide TimeoutManage;
  }

  lemma IdleActs(p: Port, env: Env)
    requires WellFormed(p) && Coupled(p) && p.fsm.wrState != IDLE && Idles(p, env)
    ensures SameWait(p, WrActions(p, env))
  {
    hide Handle, ToWrState;
    SilentHandle(p, env);
    match p.fsm.wrState
    case PRESENT => Leaves(p, S_LOCK, env.enterHw, env.now);
    case S_LOCK => Leaves(p.At(S_LOCK, LockProgress(p.fsm.sub, env.doHw)), LOCKED, env.enterHw, env.now);
    case M_LOCK => Leaves(p, CALIBRATION, env.enterHw, env.now);
    case LOCKED => Leaves(p, RESP_CALIB_REQ, env.enterHw, env.now);
    case CALIBRATION =>
      var k := CalProgress(p.fsm.sub, env.doHw);
      var q := p.At(CALIBRATION, k).(cal := Measured(p.cal, p.fsm.sub, k, env.doHw));
      Leaves(Issue(q, CalibratedMsgOf(q), env.doHw.sendOk), CALIBRATED, env.enterHw, env.now);
    case CALIBRATED =>
      Leaves(p, RESP_CALIB_REQ, env.enterHw, env.now);
      Leaves(p, WR_LINK_ON, env.enterHw, env.now);
    case RESP_CALIB_REQ => IdleResponds(p, env);
    case WR_LINK_ON => EntersIdle(p, env.enterHw, env.now);
  }

  lemma IdleResponds(p: Port, env: Env)
    requires WellFormed(p) && Coupled(p) && p.fsm.wrState == RESP_CALIB_REQ && Idles(p, env)
    ensures SameWait(p, WrActions(p, env))
  {
    hide Handle, ToWrState;
    SilentHandle(p, env);
    SilentHandle(p.At(RESP_CALIB_REQ, 1), env);
    var q := p.At(RESP_CALIB_REQ, 3);
    Leaves(q, WR_LINK_ON, env.enterHw, env.now);
    Leaves(q, CALIBRATION, env.enterHw, env.now);
  }

  lemma ToPlain(p: Port, s: PtpState, hw: Hw, now: uint64)
    requires WellFormed(p) && p.fsm.wrState == IDLE && s in {MASTER, SLAVE, DISABLED}
    ensures ToState(p, s, hw, now) == LeavePtpState(p).InPtp(s)
  {
  }

  lemma InitsAll(p: Port, hw: Hw)
    requires WellFormed(p)
    ensures var q := InitWrData(p, hw);
            && q.fsm == p.fsm.(wrState := IDLE, sub := 0, wrMode := NonWr, wrModeOn := false, role := NonSlave)
            && q.cfg == p.cfg && q.outbox == p.outbox && StandardTimeouts(q)
            && q.cal.otherPeriod == 0 && q.cal.otherRetry == 0 && q.cal.otherSendPattern == 0
            && q.cal.otherDeltaTx == q.cal.otherDeltaRx == ZERO_DELTA
  {
  }

  lemma Abandons(p: Port, env: Env)
    requires WellFormed(p) && Coupled(p) && p.fsm.wrState != IDLE
    ensures GivenUp(p, Abandon(p, env))
  {
    hide TimeoutManage, InitWrData, ToState, StandardTimeouts;
    var r := p.(fsm := p.fsm.(wrModeOn := false));
    var idle := ToWrState(r, IDLE, env.retryHw, env.now);
    assert idle == r.At(IDLE, 0).(clock := idle.clock);
    var next := if p.cfg.disableFallback then DISABLED else if p.fsm.portState == MASTER then MASTER else SLAVE;
    ToPlain(idle, next, env.retryHw, env.now);
    InitsAll(LeavePtpState(idle).InPtp(next), env.retryHw);
  }

  /** What a repetition of the main state sends; CALIBRATED and RESP_CALIB_REQ send nothing. */
  function Again(p: Port): seq<WrMsg> {
    match p.fsm.wrState
    case PRESENT => [SlavePresentMsg]
    case M_LOCK => [LockMsg]
    case LOCKED => [LockedMsg]
    case CALIBRATION => [CalibrateMsg(if p.cal.calibrated then 0 else 1, p.cfg.calRetry, p.cfg.calPeriod)]
    case WR_LINK_ON => if p.fsm.wrMode == WrMaster then [WrModeOnMsg] else []
    case _ => []
  }

  lemma RepeatsMessage(p: Port, hw: Hw, now: uint64)
    requires WellFormed(p) && Coupled(p) && p.fsm.wrState != IDLE
    ensures var q := ToWrState(p, p.fsm.wrState, hw, now);
            q.outbox == p.outbox + (if hw.sendOk then Again(p) else []) && q.fsm.wrMode == p.fsm.wrMode
  {
    hide TimeoutManage;
  }

  /** A repetition of the main state. */
  lemma Repeats(p: Port, hw: Hw, now: uint64)
    requires StandardTimeouts(p) && Coupled(p) && p.fsm.wrState != IDLE
    ensures var q := ToWrState(p, p.fsm.wrState, hw, now);
            && Coupled(q) && q.fsm.wrState == p.fsm.wrState && q.cal == p.cal && q.cfg == p.cfg
            && Patience(q) == Patience(p) && Repetitions(q) == Repetitions(p)
            && q.fsm.portState == p.fsm.portState && StandardTimeouts(q)
            && q.clock.timers[TimerIndex(p.fsm.wrState)] == IntervalTimer(now, Patience(p))
            && q.clock.stateCnt == (p.clock.stateCnt + 1) % 256
            && q.outbox == p.outbox + (if hw.sendOk then Again(p) else []) && Again(q) == Again(p)
  {
    hide TimeoutManage, Patience;
    TransitionToMain(p, p.fsm.wrState, hw, now);
    RepeatsMessage(p, hw, now);
    RepeatsPatience(p, hw, now);
    EntryTimer(p, p.fsm.wrState, hw, now);
  }

  lemma RepeatsPatience(p: Port, hw: Hw, now: uint64)
    requires StandardTimeouts(p) && Coupled(p) && p.fsm.wrState != IDLE
    ensures ToWrState(p, p.fsm.wrState, hw, now).cal == p.cal
    ensures Patience(ToWrState(p, p.fsm.wrState, hw, now)) == Patience(p)
  {
    EntryTimer(p, p.fsm.wrState, hw, now);
  }

  /** The same wait, with the same clock. */
  lemma StillWaiting(p: Port, q: Port)
    requires Waiting(p) && SameWait(p.(fsm := p.fsm.(msgId := q.fsm.msgId)), q)
    ensures Waiting(q) && Patience(q) == Patience(p) && Repetitions(q) == Repetitions(p) && Again(q) == Again(p)
  {
  }

  /** What the timer does to a wait. */
  ghost predicate Times(p: Port, q: Port, env: Env)
    requires Waiting(p)
  {
    var s, now := p.fsm.wrState, env.now;
    if RunsOut(p, now) && p.clock.stateCnt >= Repetitions(p) then GivenUp(p, q)
    else && Waiting(q) && q.fsm.wrState == s && q.fsm.portState == p.fsm.portState && q.cfg == p.cfg
         && Patience(q) == Patience(p) && Repetitions(q) == Repetitions(p)
         && q.clock.timers[TimerIndex(s)].tStart ==
            (if RunsOut(p, now) then now else p.clock.timers[TimerIndex(s)].tStart)
         && q.clock.stateCnt == p.clock.stateCnt + (if RunsOut(p, now) then 1 else 0)
         && q.outbox == p.outbox + (if RunsOut(p, now) && env.retryHw.sendOk then Again(p) else [])
         && Again(q) == Again(p)
  }

  lemma TimerTurn(p: Port, env: Env)
    requires Waiting(p)
    ensures Times(p, WrTimeout(p, env), env)
  {
    hide Abandon, ToWrState, Coupled, GivenUp, Patience, Again;
    if RunsOut(p, env.now) {
      var r := PolledPort(p, env.now);
      SamePatience(p, r);
      if p.clock.stateCnt >= Repetitions(p) {
        Abandons(r, env);
        assert GivenUp(p, Abandon(r, env)) by {
          SameGivenUp(p, r, Abandon(r, env));
        }
      } else {
        Repeats(r, env.retryHw, env.now);
      }
    }
  }

  lemma SamePatience(p: Port, r: Port)
    requires WellFormed(p) && Coupled(p) && p.fsm.wrState != IDLE
    requires r.fsm == p.fsm && r.cal == p.cal && r.cfg == p.cfg && WellFormed(r) && r.clock.timeouts == p.clock.timeouts
    ensures Coupled(r) && Patience(r) == Patience(p) && Again(r) == Again(p)
  {
  }

  lemma SameGivenUp(p: Port, r: Port, q: Port)
    requires GivenUp(r, q) && r.cfg == p.cfg && r.fsm == p.fsm && r.outbox == p.outbox
    ensures GivenUp(p, q)
  {
  }

  /** Main result for one turn in which nothing happens: before its time has come the port waits on; then
      it starts its state again, with a fresh timer, as long as it may; and then it gives up. */
  lemma SilentTurn(p: Port, env: Env)
    requires Waiting(p) && Idles(p, env)
    ensures Times(p, DoState(p, env), env)
  {
    hide WrActions, WrTimeout, Coupled, Patience, Repetitions, Again;
    CoupledTurn(p, env);
    IdleActs(p, env);
    var a := WrActions(p, env);
    StillWaiting(p, a);
    TimerTurn(a, env);
    var t := WrTimeout(a, env);
    if t.fsm.wrState != IDLE {
      StillWaiting(t, ClearMsg(t));
    } else {
      assert GivenUp(p, ClearMsg(t));
    }
  }

  // ----- runs -----

  /** The first `n` turns of a run in which nothing happens, and before each of which the port is still in
      its first main state. */
  ghost predicate Silence(ports: seq<Port>, events: seq<PortEvent>, n: nat) {
    && IsRun(ports, events) && n <= |events| && Waiting(ports[0]) && ports[0].clock.stateCnt == 0
    && forall i :: 0 <= i < n ==>
         events[i].DoStateEvent? && WellFormed(ports[i]) && Idles(ports[i], events[i].env)
         && ports[i].fsm.wrState == ports[0].fsm.wrState
  }

  /** Expiries of the timer in the first `n` turns. */
  ghost function Expiries(ports: seq<Port>, events: seq<PortEvent>, n: nat): nat
    requires Silence(ports, events, n)
  {
    if n == 0 then 0
    else Expiries(ports, events, n - 1) + (if RunsOut(ports[n - 1], events[n - 1].env.now) then 1 else 0)
  }

  /** Main result for runs: while nothing happens, a port stays in its main state exactly as long as its
      timer has not expired more often than the state may be repeated; with the next expiry it gives up.
      The budget is that of the state, in RESP_CALIB_REQ the one the other node asked for. */
  lemma {:induction false} GivesUpExactlyWhen(ports: seq<Port>, events: seq<PortEvent>, n: nat)
    requires Silence(ports, events, n)
    ensures var p, q, e := ports[0], ports[n], Expiries(ports, events, n);
            && e <= Repetitions(p) + 1
            && (q.fsm.wrState == p.fsm.wrState <==> e <= Repetitions(p))
            && (if e <= Repetitions(p) then
                  && Waiting(q) && q.clock.stateCnt == e && q.fsm.portState == p.fsm.portState && q.cfg == p.cfg
                  && Repetitions(q) == Repetitions(p) && Patience(q) == Patience(p)
                else
                  0 < n && GivenUp(ports[n - 1], q)
                  && ports[n - 1].fsm.portState == p.fsm.portState && ports[n - 1].cfg == p.cfg)
  {
    hide Idles, DoState, Waiting, GivenUp, Repetitions, Patience, RunsOut;
    if n > 0 {
      GivesUpExactlyWhen(ports, events, n - 1);
      assert ports[n] == DoState(ports[n - 1], events[n - 1].env);
      WaitingRuns(ports[0]);
      TurnFacts(ports[n - 1], events[n - 1].env);
    }
  }

  lemma WaitingRuns(p: Port)
    requires Waiting(p)
    ensures WellFormed(p) && p.fsm.wrState != IDLE
  {
  }

  lemma TurnFacts(p: Port, env: Env)
    requires Waiting(p) && Idles(p, env)
    ensures Times(p, DoState(p, env), env)
    ensures GivenUp(p, DoState(p, env)) ==> DoState(p, env).fsm.wrState != p.fsm.wrState
  {
    hide DoState, Idles, Times;
    SilentTurn(p, env);
  }

  /** So a node bears silence for at least its patience times one more than its repetitions: it has not
      given up before that much time has passed since it entered the state. */
  lemma {:induction false} BearsSilence(ports: seq<Port>, events: seq<PortEvent>, n: nat)
    requires Silence(ports, events, n) && 0 <= Patience(ports[0])
    requires ports[0].clock.timers[TimerIndex(ports[0].fsm.wrState)].tStart < 0x8000_0000_0000_0000
    requires forall i :: 0 <= i < n ==> events[i].env.now < 0x8000_0000_0000_0000
    ensures var p, q, e, s := ports[0], ports[n], Expiries(ports, events, n), ports[0].fsm.wrState;
            var start := p.clock.timers[TimerIndex(s)].tStart;
            if q.fsm.wrState == s then
              WellFormed(q) && start + e * Patience(p) <= q.clock.timers[TimerIndex(s)].tStart < 0x8000_0000_0000_0000
            else
              0 < n && start + (Repetitions(p) + 1) * Patience(p) <= events[n - 1].env.now
  {
    hide Idles, DoState, GivenUp, Repetitions, Patience, Waiting, Again, RunsOut;
    WaitingRuns(ports[0]);
    GivesUpExactlyWhen(ports, events, n);
    if n > 0 {
      GivesUpExactlyWhen(ports, events, n - 1);
      BearsSilence(ports, events, n - 1);
      assert ports[n] == DoState(ports[n - 1], events[n - 1].env);
      TurnFacts(ports[n - 1], events[n - 1].env);
      WaitingTimer(ports[n - 1], events[n - 1].env.now);
      var e, t := Expiries(ports, events, n - 1), Patience(ports[0]);
      assert (e + 1) * t == e * t + t;
    }
  }

  lemma WaitingTimer(p: Port, now: uint64)
    requires Waiting(p) && 0 <= Patience(p)
    requires p.clock.timers[TimerIndex(p.fsm.wrState)].tStart < 0x8000_0000_0000_0000
    ensures RunsOut(p, now) ==> p.clock.timers[TimerIndex(p.fsm.wrState)].tStart + Patience(p) <= now
  {
    hide Patience;
  }

  function Copies(ms: seq<WrMsg>, n: nat): (r: seq<WrMsg>)
    ensures |r| == n * |ms|
  {
    if n == 0 then [] else Copies(ms, n - 1) + ms
  }

  /** What one such turn sends. */
  lemma TurnSends(p: Port, env: Env)
    requires Waiting(p) && Idles(p, env)
    ensures var q, givesUp := DoState(p, env), RunsOut(p, env.now) && p.clock.stateCnt >= Repetitions(p);
            && q.outbox ==
               p.outbox + (if RunsOut(p, env.now) && !givesUp && env.retryHw.sendOk then Again(p) else [])
            && (!givesUp ==> Again(q) == Again(p))
  {
    hide DoState, Idles, Again, RunsOut, Waiting;
    SilentTurn(p, env);
  }

  /** And all that it sends meanwhile is the message of that state, once for each expiry that it survives;
      with those repetitions used up it sends nothing more. */
  lemma {:induction false} SendsOnlyRepetitions(ports: seq<Port>, events: seq<PortEvent>, n: nat)
    requires Silence(ports, events, n) && forall i :: 0 <= i < n ==> events[i].env.retryHw.sendOk
    ensures var p, q, e := ports[0], ports[n], Expiries(ports, events, n);
            q.outbox == p.outbox + Copies(Again(p), if e <= Repetitions(p) then e else Repetitions(p))
            && (e <= Repetitions(p) ==> Again(q) == Again(p))
  {
    hide Idles, DoState, Waiting, Repetitions, Patience, RunsOut, Again, GivenUp;
    if n == 0 {
      WaitingRuns(ports[0]);
    } else {
      GivesUpExactlyWhen(ports, events, n - 1);
      GivesUpExactlyWhen(ports, events, n);
      SendsOnlyRepetitions(ports, events, n - 1);
      assert ports[n] == DoState(ports[n - 1], events[n - 1].env);
      TurnSends(ports[n - 1], events[n - 1].env);
    }
  }

  /** For example a slave that nobody answers: it starts to wait on entering WRS_PRESENT, and nothing but
      LOCK makes it do anything else. */
  lemma SessionWaits(p: Port, hw: Hw, now: uint64)
    requires WellFormed(p) && p.fsm.wrState == IDLE && p.fsm.role != NonSlave
    requires WrSlaveCandidate(LeavePtpState(p)) && !(p.parent.wrModeOn && p.fsm.wrModeOn)
    ensures var q := ToState(p, UNCALIBRATED, hw, now);
            && Waiting(q) && q.clock.stateCnt == 0 && q.fsm.wrState == PRESENT
            && q.clock.timers[TimerIndex(PRESENT)] == IntervalTimer(now, 1000)
            && Patience(q) == 1000 && Repetitions(q) == p.cfg.wrStateRetry && Again(q) == [SlavePresentMsg]
  {
    hide ToWrState;
    var left := LeavePtpState(p);
    EntryTimer(left, PRESENT, hw, now);
    EntryFrame(left, hw, now);
  }

  lemma EntryFrame(p: Port, hw: Hw, now: uint64)
    requires WellFormed(p) && p.fsm.wrState == IDLE && p.fsm.portState != SLAVE
    ensures var q := ToWrState(p, PRESENT, hw, now);
            q.cfg == p.cfg && q.fsm.wrMode == p.fsm.wrMode && q.fsm.role == p.fsm.role
  {
    hide TimeoutManage;
  }

  lemma UnansweredIdles(p: Port, env: Env)
    requires WellFormed(p) && p.fsm.wrState == PRESENT && p.fsm.msgId != LockId && env.rx in {RxNone, RxOther(false)}
    ensures Idles(p, env)
  {
    hide ToWrState;
    SilentHandle(p, env);
  }
}
