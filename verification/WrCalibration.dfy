/** Locking and calibration of a node (PTPWRd/wr_protocol.c:312-393, 415-571, 777-833, 940-1003): which
    hardware call comes when, and which measurement ends up in which member and in CALIBRATED. */
module WrCalibration {
  import opened CTypes
  import opened WrFsm
  import opened WrCoupling

  // ----- the calls of one turn -----

  /** Whether each hardware call of a calibration succeeds, in the order in which they are made. */
  function Calls(hw: Hw): (cs: seq<bool>)
    ensures |cs| == 8
  {
    [hw.patternEnable, hw.txEnable, hw.txDelta.Some?, hw.txDisable, hw.patternDisable,
     hw.rxEnable, hw.rxDelta.Some?, hw.rxDisable]
  }

  /** The calls from number `k` up to number `n` succeed. */
  predicate Succeed(hw: Hw, k: nat, n: nat)
    requires n <= 8
  {
    forall i :: k <= i < n ==> Calls(hw)[i]
  }

  /** A turn goes on from its substate exactly to the first call that fails. */
  lemma {:induction false} StopsAtFirstFailure(k: nat, n: nat, hw: Hw)
    requires k <= 8 && n <= 8
    ensures CalProgress(k, hw) == n <==> k <= n && Succeed(hw, k, n) && (n < 8 ==> !Calls(hw)[n])
    decreases 8 - k
  {
    assert CalAccepts(k, hw) <==> k < 8 && Calls(hw)[k];
    if k < 8 && Calls(hw)[k] {
      StopsAtFirstFailure(k + 1, n, hw);
      assert CalProgress(k, hw) == CalProgress(k + 1, hw);
    }
  }

  /** The transmission delay that a turn of a port measures. */
  function TxResult(p: Port, env: Env): (r: Option<uint64>) {
    if p.fsm.wrState == CALIBRATION && p.fsm.sub <= 2 && Succeed(env.doHw, p.fsm.sub, 3) then env.doHw.txDelta
    else None
  }

  /** The reception delay that a turn of a port measures. */
  function RxResult(p: Port, env: Env): (r: Option<uint64>) {
    if p.fsm.wrState == CALIBRATION && p.fsm.sub <= 6 && Succeed(env.doHw, p.fsm.sub, 7) then env.doHw.rxDelta
    else None
  }

  /** All calls that are left succeed, and so does the transmission of the report. */
  predicate Completes(p: Port, env: Env) {
    p.fsm.wrState == CALIBRATION && p.fsm.sub <= 8 && Succeed(env.doHw, p.fsm.sub, 8)
  }

  /** The new value of a delay: the scaled measurement, if there is one. */
  function Scaled(measured: Option<uint64>, before: FixedDelta): FixedDelta {
    if measured.Some? then SplitDelta(measured.value) else before
  }

  /** What a turn measures, in terms of the substate it reaches. */
  lemma ResultsBySubstate(p: Port, env: Env, k: nat)
    requires p.fsm.wrState == CALIBRATION && p.fsm.sub <= 8 && k == CalProgress(p.fsm.sub, env.doHw)
    ensures TxResult(p, env) == if p.fsm.sub <= 2 < k then env.doHw.txDelta else None
    ensures RxResult(p, env) == if p.fsm.sub <= 6 < k then env.doHw.rxDelta else None
    ensures p.fsm.sub <= 2 < k ==> env.doHw.txDelta.Some?
    ensures p.fsm.sub <= 6 < k ==> env.doHw.rxDelta.Some?
    ensures Completes(p, env) <==> k == 8
  {
    hide CalProgress, CalAccepts;
    StopsAtFirstFailure(p.fsm.sub, k, env.doHw);
    assert Calls(env.doHw)[2] == env.doHw.txDelta.Some? && Calls(env.doHw)[6] == env.doHw.rxDelta.Some?;
    assert k < 8 ==> !Calls(env.doHw)[k];
  }

  /** The actions of a turn. */
  lemma CalibrationActs(p: Port, env: Env)
    requires WellFormed(p) && p.fsm.wrState == CALIBRATION && p.fsm.wrMode != NonWr
    ensures var q := WrActions(p, env);
            var tx, rx := Scaled(TxResult(p, env), p.cal.deltaTx), Scaled(RxResult(p, env), p.cal.deltaRx);
            && q.cal.deltaTx == tx && q.cal.deltaRx == rx
            && (if Completes(p, env) then
                  && q.fsm.wrState == CALIBRATED && q.cal.calibrated
                  && q.outbox == p.outbox + (if env.doHw.sendOk then [CalibratedMsg(tx, rx)] else [])
                else
                  && q.fsm.wrState == CALIBRATION && q.outbox == p.outbox && p.fsm.sub <= q.fsm.sub < 8
                  && (q.fsm.sub > 2 >= p.fsm.sub ==> TxResult(p, env).Some?)
                  && (q.fsm.sub > 6 >= p.fsm.sub ==> RxResult(p, env).Some?))
  {
    hide TimeoutManage, SplitDelta, CalProgress, Completes, TxResult, RxResult;
    var k := CalProgress(p.fsm.sub, env.doHw);
    ResultsBySubstate(p, env, k);
    var q := p.At(CALIBRATION, k).(cal := Measured(p.cal, p.fsm.sub, k, env.doHw));
    assert Issue(q, CalibratedMsgOf(q), false) == q;
  }

  /** What the timer adds to a turn: the state may be repeated, which keeps the delays and restarts a
      calibration at the latest at the transmission measurement, or WR is given up. */
  lemma CalibrationTimes(a: Port, env: Env)
    requires WellFormed(a) && a.fsm.wrState in {CALIBRATION, CALIBRATED} && a.fsm.wrMode != NonWr
    ensures var q := WrTimeout(a, env);
            && (q.fsm.wrState != IDLE ==>
                  q.fsm.wrState == a.fsm.wrState && q.cal == a.cal && (q.fsm.sub == a.fsm.sub || q.fsm.sub <= 2))
            && (q.outbox == a.outbox
                || (a.fsm.wrState == CALIBRATION && q.outbox == a.outbox + [CalibrateMsgOf(a)]))
  {
    hide TimeoutManage, Abandon, RetryBudget;
    if TimedOut(a, env.now) {
      var r := PolledPort(a, env.now);
      assert a.fsm.wrState == CALIBRATION ==> Issue(r, CalibrateMsgOf(r), false) == r;
      AbandonIsSilent(r, env);
    }
  }

  lemma AbandonIsSilent(p: Port, env: Env)
    requires WellFormed(p)
    ensures Abandon(p, env).fsm.wrState == IDLE && Abandon(p, env).outbox == p.outbox
  {
    hide TimeoutManage;
  }

  /** Main result for one turn in CALIBRATION, with its timer: a turn whose remaining calls all succeed
      reports, in one CALIBRATED message, the delays that it measured itself and those that the port held
      of earlier measurements; no other turn does. A measurement ends up in the member of its own
      direction, and in no other. */
  lemma CalibrationTurn(p: Port, env: Env)
    requires WellFormed(p) && Coupled(p) && p.fsm.wrState == CALIBRATION
    ensures var q := DoState(p, env);
            var tx, rx := Scaled(TxResult(p, env), p.cal.deltaTx), Scaled(RxResult(p, env), p.cal.deltaRx);
            && (q.fsm.wrState != IDLE ==> q.cal.deltaTx == tx && q.cal.deltaRx == rx)
            && (if Completes(p, env) then
                  && q.fsm.wrState in {CALIBRATED, IDLE}
                  && q.outbox == p.outbox + (if env.doHw.sendOk then [CalibratedMsg(tx, rx)] else [])
                else
                  && q.fsm.wrState in {CALIBRATION, IDLE}
                  && (q.outbox == p.outbox || q.outbox == p.outbox + [CalibrateMsgOf(p)]))
            && (q.fsm.wrState == CALIBRATION && q.fsm.sub > 2 >= p.fsm.sub ==> TxResult(p, env).Some?)
            && (q.fsm.wrState == CALIBRATION && q.fsm.sub > 6 >= p.fsm.sub ==> RxResult(p, env).Some?)
  {
    hide WrActions, WrTimeout, Completes, TxResult, RxResult;
    CoupledTurn(p, env);
    CalibrationActs(p, env);
    var a := WrActions(p, env);
    CalibrationFrame(p, env);
    CalibrationTimes(a, env);
  }

  lemma CalibrationFrame(p: Port, env: Env)
    requires WellFormed(p) && p.fsm.wrState == CALIBRATION
    ensures var a := WrActions(p, env);
            && a.fsm.wrMode == p.fsm.wrMode && a.cfg == p.cfg
            && (a.fsm.wrState == CALIBRATION ==> a.cal.calibrated == p.cal.calibrated)
  {
    hide TimeoutManage;
  }

  // ----- a calibration that takes several turns -----

  /** The last transmission delay measured in the first `n` turns of a run. */
  ghost function LastTx(ports: seq<Port>, events: seq<PortEvent>, n: nat): Option<uint64>
    requires n <= |events| <= |ports|
  {
    if n == 0 then None
    else if TxResult(ports[n - 1], events[n - 1].env).Some? then TxResult(ports[n - 1], events[n - 1].env)
    else LastTx(ports, events, n - 1)
  }

  ghost function LastRx(ports: seq<Port>, events: seq<PortEvent>, n: nat): Option<uint64>
    requires n <= |events| <= |ports|
  {
    if n == 0 then None
    else if RxResult(ports[n - 1], events[n - 1].env).Some? then RxResult(ports[n - 1], events[n - 1].env)
    else LastRx(ports, events, n - 1)
  }

  /** A run that starts at the latest at the transmission measurement and calibrates up to `n`. */
  ghost predicate Calibrates(ports: seq<Port>, events: seq<PortEvent>, n: nat) {
    && IsRun(ports, events) && n < |ports| && Coupled(ports[0]) && ports[0].fsm.sub <= 2
    && (forall i :: 0 <= i < |events| ==> events[i].DoStateEvent?)
    && forall i :: 0 <= i <= n ==> ports[i].fsm.wrState == CALIBRATION
  }

  /** The members hold the last measurements, and substates that follow one have it behind them. */
  ghost predicate Holds(p: Port, tx: Option<uint64>, rx: Option<uint64>) {
    && p.cal.deltaTx == Scaled(tx, p.cal.deltaTx) && p.cal.deltaRx == Scaled(rx, p.cal.deltaRx)
    && (p.fsm.sub > 2 ==> tx.Some?) && (p.fsm.sub > 6 ==> rx.Some?)
  }

  lemma {:induction false} HoldsThroughout(ports: seq<Port>, events: seq<PortEvent>, n: nat)
    requires Calibrates(ports, events, n)
    ensures WellFormed(ports[n]) && Coupled(ports[n])
    ensures Holds(ports[n], LastTx(ports, events, n), LastRx(ports, events, n))
  {
    hide DoState, TxResult, RxResult, Coupled, LosesLock, Completes;
    if n > 0 {
      HoldsThroughout(ports, events, n - 1);
      assert ports[n] == DoState(ports[n - 1], events[n - 1].env);
      CalibrationTurn(ports[n - 1], events[n - 1].env);
      SessionStaysCoupled(ports[n - 1], events[n - 1].env);
    }
  }

  lemma SessionStaysCoupled(p: Port, env: Env)
    requires WellFormed(p) && Coupled(p) && p.fsm.wrState != IDLE
    ensures WellFormed(DoState(p, env)) && Coupled(DoState(p, env))
  {
    hide WrActions, WrTimeout, Coupled;
    CoupledTurn(p, env);
    WrStepKeepsCoupling(p, env);
    ClearKeepsCoupling(DoWrState(p, env));
  }

  lemma ClearKeepsCoupling(p: Port)
    requires Coupled(p)
    ensures Coupled(ClearMsg(p))
  {
  }

  /** Main result: however many turns and repetitions a calibration takes, its CALIBRATED message is sent
      exactly when the last call succeeds and the message goes out, and it carries the last transmission
      and the last reception delay that were really measured, each in its own member. */
  lemma ReportsLastMeasurements(ports: seq<Port>, events: seq<PortEvent>, n: nat)
    requires Calibrates(ports, events, n) && n < |events|
    ensures var tx, rx := LastTx(ports, events, n + 1), LastRx(ports, events, n + 1);
            && (Completes(ports[n], events[n].env) ==>
                  && tx.Some? && rx.Some?
                  && ports[n + 1].fsm.wrState in {CALIBRATED, IDLE}
                  && ports[n + 1].outbox ==
                     ports[n].outbox + (if events[n].env.doHw.sendOk
                                        then [CalibratedMsg(SplitDelta(tx.value), SplitDelta(rx.value))] else []))
            && (!Completes(ports[n], events[n].env) ==>
                  ports[n + 1].outbox in {ports[n].outbox, ports[n].outbox + [CalibrateMsgOf(ports[n])]})
  {
    hide DoState, Coupled, WrActions, WrTimeout;
    HoldsThroughout(ports, events, n);
    assert ports[n + 1] == DoState(ports[n], events[n].env);
    CalibrationTurn(ports[n], events[n].env);
    if Completes(ports[n], events[n].env) {
      assert ports[n].fsm.sub <= 2 ==> Calls(events[n].env.doHw)[2];
      assert ports[n].fsm.sub <= 6 ==> Calls(events[n].env.doHw)[6];
      assert Calls(events[n].env.doHw)[2] == events[n].env.doHw.txDelta.Some?;
      assert Calls(events[n].env.doHw)[6] == events[n].env.doHw.rxDelta.Some?;
    }
  }

  // ----- before and after -----

  /** A session starts with the stored calibration of the port if it needs none of its own, and else with
      nothing; of the other node it knows nothing. */
  lemma SessionStartsFresh(p: Port, s: WrState, hw: Hw, now: uint64)
    requires WellFormed(p) && p.fsm.wrState == IDLE && s in {PRESENT, M_LOCK}
    ensures var c := ToWrState(p, s, hw, now).cal;
            && (p.cfg.phyCalibrationRequired ==> !c.calibrated && c.deltaTx == c.deltaRx == ZERO_DELTA)
            && (!p.cfg.phyCalibrationRequired ==>
                  c.calibrated && c.deltaTx == SplitDelta(hw.calTx) && c.deltaRx == SplitDelta(hw.calRx))
            && c.otherDeltaTx == c.otherDeltaRx == ZERO_DELTA
            && c.otherPeriod == 0 && c.otherRetry == 0 && c.otherSendPattern == 0
  {
    hide TimeoutManage;
  }

  /** A node enters CALIBRATION saying what it is about to do: one that is calibrated asks for no pattern
      and starts at the measurement, the other one asks for it and starts as far as its hardware allows. */
  lemma EntersCalibration(p: Port, hw: Hw, now: uint64)
    requires WellFormed(p) && p.fsm.wrState != IDLE && p.fsm.wrMode != NonWr && hw.sendOk
    ensures var q := ToWrState(p, CALIBRATION, hw, now);
            && q.fsm.wrState == CALIBRATION && q.cal == p.cal
            && q.outbox == p.outbox + [CalibrateMsg(if p.cal.calibrated then 0 else 1, p.cfg.calRetry, p.cfg.calPeriod)]
            && q.fsm.sub <= 2 && (p.cal.calibrated ==> q.fsm.sub == 2)
            && (!p.cal.calibrated ==> (q.fsm.sub > 0 <==> hw.patternEnable))
            && (!p.cal.calibrated ==> (q.fsm.sub > 1 <==> hw.patternEnable && hw.txEnable))
  {
    hide TimeoutManage;
  }

  // ----- locking -----

  /** A turn that finds the PLL locked: locking is enabled, if it was not, and the poll says so. */
  predicate FindsLock(p: Port, env: Env) {
    && p.fsm.wrState == S_LOCK && p.fsm.sub <= 1
    && (p.fsm.sub == 0 ==> env.doHw.lockEnable) && env.doHw.lockReady
  }

  lemma LockActs(p: Port, env: Env)
    requires WellFormed(p) && p.fsm.wrState == S_LOCK
    ensures var q := WrActions(p, env);
            && q.fsm.wrMode == p.fsm.wrMode && q.fsm.role == p.fsm.role
            && (q.fsm.wrState == LOCKED <==>
                p.fsm.role != NonSlave && (p.fsm.sub == 2 || FindsLock(p, env)) && env.doHw.lockDisable)
            && (q.fsm.wrState != LOCKED ==>
                  q.fsm.wrState == S_LOCK && q.outbox == p.outbox
                  && (q.fsm.sub == 2 ==> p.fsm.sub == 2 || FindsLock(p, env)))
  {
    hide TimeoutManage;
    assert LockProgress(2, env.doHw) == 2;
    assert LockProgress(1, env.doHw) == if env.doHw.lockReady then 2 else 1;
    assert LockProgress(0, env.doHw) == if env.doHw.lockEnable then LockProgress(1, env.doHw) else 0;
    if p.fsm.role != NonSlave {
      TransitionToMain(p.At(S_LOCK, 2), LOCKED, env.enterHw, env.now);
    }
  }

  /** What the timer adds: a repetition starts to lock anew. */
  lemma LockTimes(a: Port, env: Env)
    requires WellFormed(a) && a.fsm.wrState in {S_LOCK, LOCKED} && (a.fsm.wrState == S_LOCK ==> a.fsm.role != NonSlave)
    ensures var q := WrTimeout(a, env);
            q.fsm.wrState != IDLE ==>
              q.fsm.wrState == a.fsm.wrState && (q.fsm.sub == a.fsm.sub || q.fsm.sub <= 1)
  {
    hide TimeoutManage, Abandon, RetryBudget;
    if TimedOut(a, env.now) {
      AbandonIsSilent(PolledPort(a, env.now), env);
    }
  }

  /** One turn in S_LOCK, with its timer: LOCKED is entered only with the PLL found locked in this turn or an
      earlier one, and only when locking could be disabled. */
  lemma LockTurn(p: Port, env: Env)
    requires WellFormed(p) && Coupled(p) && p.fsm.wrState == S_LOCK
    ensures var q := DoState(p, env);
            && q.fsm.wrState in {S_LOCK, LOCKED, IDLE}
            && (q.fsm.wrState == LOCKED ==> (p.fsm.sub == 2 || FindsLock(p, env)) && env.doHw.lockDisable)
            && (q.fsm.wrState == S_LOCK && q.fsm.sub == 2 ==> p.fsm.sub == 2 || FindsLock(p, env))
  {
    hide WrActions, WrTimeout;
    CoupledTurn(p, env);
    LockActs(p, env);
    LockTimes(WrActions(p, env), env);
  }

  /** Main result for locking: a slave that comes from S_LOCK to LOCKED, and so tells the master that it is
      locked, has found its PLL locked in some turn of that stay, however many turns it took. */
  lemma {:induction false} LockedMeansLocked(ports: seq<Port>, events: seq<PortEvent>, n: nat) returns (i: nat)
    requires IsRun(ports, events) && n < |events| && Coupled(ports[0]) && ports[0].fsm.sub <= 1
    requires forall i :: 0 <= i < |events| ==> events[i].DoStateEvent?
    requires forall i :: 0 <= i <= n ==> ports[i].fsm.wrState == S_LOCK
    ensures WellFormed(ports[n]) && Coupled(ports[n])
    ensures ports[n + 1].fsm.wrState == LOCKED || (ports[n + 1].fsm.wrState == S_LOCK && ports[n + 1].fsm.sub == 2) ==>
              i <= n && FindsLock(ports[i], events[i].env)
    ensures ports[n + 1].fsm.wrState == LOCKED ==> events[n].env.doHw.lockDisable
    decreases n
  {
    hide DoState, Coupled, FindsLock;
    i := 0;
    if n > 0 {
      i := LockedMeansLocked(ports, events, n - 1);
      assert ports[n] == DoState(ports[n - 1], events[n - 1].env);
      SessionStaysCoupled(ports[n - 1], events[n - 1].env);
    }
    assert ports[n + 1] == DoState(ports[n], events[n].env);
    LockTurn(ports[n], events[n].env);
    if FindsLock(ports[n], events[n].env) {
      i := n;
    }
  }

  /** A slave enters S_LOCK beyond the call that enables locking exactly if that call succeeds. */
  lemma EntersLocking(p: Port, hw: Hw, now: uint64)
    requires WellFormed(p) && p.fsm.wrState != IDLE && p.fsm.role != NonSlave
    ensures var q := ToWrState(p, S_LOCK, hw, now);
            q.fsm.wrState == S_LOCK && q.fsm.sub <= 1 && (q.fsm.sub == 1 <==> hw.lockEnable) && q.outbox == p.outbox
  {
    hide TimeoutManage;
  }

  /** A LOCK that is taken does not stay in the mailbox for the next state. */
  lemma LockIsTaken(p: Port, env: Env)
    requires WellFormed(p) && Coupled(p) && p.fsm.wrState == PRESENT && WrActions(p, env).fsm.wrState == S_LOCK
    ensures WrActions(p, env).fsm.msgId == NullTlv
  {
    hide Handle, TimeoutManage;
    HandleInSession(p, env);
  }

  // ----- answering a calibration -----

  /** A node leaves RESP_CALIB_REQ only with its pattern switched off, if it was asked for one, and then as
      slave to its own calibration, as master to WR_LINK_ON, and outside of WR mode to nothing. */
  lemma PatternOffFirst(p: Port, env: Env)
    requires WellFormed(p) && p.fsm.wrState == RESP_CALIB_REQ && 2 <= p.fsm.sub
    ensures var q := WrActions(p, env);
            if p.fsm.sub == 2 && !env.doHw.patternDisable then q == p
            else q.fsm.wrState == (match p.fsm.wrMode
                                   case WrSlave => CALIBRATION
                                   case WrMaster => WR_LINK_ON
                                   case NonWr => IDLE)
  {
    hide TimeoutManage;
  }

  /** Having heard CALIBRATED, a node that sent a pattern switches it off before it leaves, one that sent none
      leaves at once; without CALIBRATED it stays, and a pattern that could not be sent is tried again. */
  lemma AwaitsCalibrated(p: Port, env: Env)
    requires WellFormed(p) && Coupled(p) && p.fsm.wrState == RESP_CALIB_REQ && p.fsm.sub <= 1 && p.fsm.msgId == NullTlv
    requires env.rx.RxSignaling? && env.rx.msg.Some? ==> env.rx.msg.value.CalibratedMsg?
    ensures var q, heard := WrActions(p, env), env.rx.RxSignaling? && !env.rx.fromSelf && env.rx.msg.Some?;
            var trying := p.fsm.sub == 0 && !env.doHw.patternEnable;
            && (trying ==> q == p)
            && (!trying && !heard ==> q.fsm.wrState == RESP_CALIB_REQ && q.fsm.sub == 1)
            && (!trying && heard ==>
                  (q.fsm.wrState == RESP_CALIB_REQ <==> p.cal.otherSendPattern == 1 && !env.doHw.patternDisable)
                  && (q.fsm.wrState == RESP_CALIB_REQ ==> q.fsm.sub == 2))
  {
    hide TimeoutManage;
    var p1 := p.At(RESP_CALIB_REQ, 1);
    assert p.fsm.sub == 1 ==> p1 == p;
    assert ToFaulty(p1) == p1;
    if env.rx.RxSignaling? && env.rx.msg.Some? {
      assert Handle(p1, env) == if env.rx.fromSelf then p1 else Accept(p1, env.rx.msg.value);
    }
  }
}
