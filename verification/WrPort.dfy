/** The port object: the methods of PTPWRd/wr_protocol.c and PTPWRd/protocol.c that change it
    step by step, proved to take its snapshot exactly where WrFsm says. */
module WrPort {
  import opened CTypes
  import opened Timer
  import F = WrFsm
  import opened WrFsm

  datatype InitMode = Init | ReInit

  /** The calibration substates from `p` to `q` were all accepted, and their results stored. */
  ghost predicate CalAdvance(p: Port, q: Port, hw: Hw) {
    && p.fsm.sub <= q.fsm.sub
    && (forall i: nat :: p.fsm.sub <= i < q.fsm.sub ==> CalAccepts(i, hw))
    && q == p.At(CALIBRATION, q.fsm.sub).(cal := Measured(p.cal, p.fsm.sub, q.fsm.sub, hw))
  }

  lemma CalAdvanceTrans(p: Port, q: Port, r: Port, hw: Hw)
    requires CalAdvance(p, q, hw) && CalAdvance(q, r, hw)
    ensures CalAdvance(p, r, hw)
  {
  }

  lemma {:induction false} CalEnd(from: nat, to: nat, hw: Hw)
    requires from <= to <= 8 && !CalAccepts(to, hw) && forall i: nat :: from <= i < to ==> CalAccepts(i, hw)
    ensures CalProgress(from, hw) == to
    decreases 8 - from
  {
    if from < to {
      CalEnd(from + 1, to, hw);
    }
  }

  class PtpPort {
    var cfg: Config
    /** portState, wrPortState with its substate, wrMode, wrModeON, wrSlaveRole, msgTmpWrMessageID. */
    var fsm: Fsm
    /** calibrated, deltaTx, deltaRx and the otherNode members. */
    var cal: CalData
    /** parentWrConfig, parentWrModeON, parentCalibrated. */
    var parent: Parent
    var currentWrStateCnt: uint8
    const wrTimers: array<IntervalTimer>
    const wrTimeouts: array<int32>
    /** Every signaling message handed to the network so far. */
    var outbox: seq<WrMsg>

    ghost predicate Valid()
      reads this, wrTimers, wrTimeouts
    {
      wrTimers.Length == WR_TIMERS && wrTimeouts.Length == WR_TIMERS && SubstateOk(fsm.wrState, fsm.sub)
    }

    ghost function Snap(): (p: Port)
      reads this, wrTimers, wrTimeouts
      ensures Valid() ==> WellFormed(p)
    {
      Port(cfg, fsm, cal, parent,
           WrClock(currentWrStateCnt, wrTimers[..], wrTimeouts[..]), outbox)
    }

    constructor (cfg: Config)
      ensures Valid() && fresh(wrTimers) && fresh(wrTimeouts)
      ensures fsm == Fsm(INITIALIZING, IDLE, 0, NonWr, false, NonSlave, NullTlv) && outbox == [] && this.cfg == cfg
    {
      this.cfg := cfg;
      fsm := Fsm(INITIALIZING, IDLE, 0, NonWr, false, NonSlave, NullTlv);
      cal := CalData(false, ZERO_DELTA, ZERO_DELTA, 0, 0, 0, ZERO_DELTA, ZERO_DELTA);
      parent := Parent(NON_WR, false, false);
      currentWrStateCnt := 0;
      wrTimers := new IntervalTimer[WR_TIMERS](_ => IntervalTimer(0, 0));
      wrTimeouts := new int32[WR_TIMERS](_ => 0);
      outbox := [];
    }

    /** The part of `initWrData` that fills the table of timeouts. */
    method SetDefaultTimeouts()
      requires Valid()
      modifies wrTimeouts
      ensures Valid() && wrTimeouts[..] == DefaultTimeouts(cfg)
    {
      for i := 0 to WR_TIMERS
        modifies wrTimeouts
        invariant forall k :: 0 <= k < i ==> wrTimeouts[k] == cfg.wrStateTimeout
      {
        wrTimeouts[i] := cfg.wrStateTimeout;
      }
      wrTimeouts[TimerIndex(PRESENT)] := 1000;
      wrTimeouts[TimerIndex(S_LOCK)] := 10000;
      wrTimeouts[TimerIndex(M_LOCK)] := 10000;
      assert wrTimeouts[..] == DefaultTimeouts(cfg);
    }

    method InitWrData(mode: InitMode, hw: Hw)
      requires Valid()
      modifies this, wrTimeouts
      ensures Valid()
      ensures Snap() == if mode == Init then F.InitWrData(old(Snap()), hw) else F.ReInitWrData(old(Snap()), hw)
    {
      hide SplitDelta, DefaultTimeouts;
      fsm := fsm.(wrModeOn := false, wrState := IDLE, sub := 0);
      cal := cal.(calibrated := !cfg.phyCalibrationRequired);
      if !cfg.phyCalibrationRequired {
        cal := cal.(deltaTx := SplitDelta(hw.calTx), deltaRx := SplitDelta(hw.calRx));
      } else {
        cal := cal.(deltaTx := ZERO_DELTA, deltaRx := ZERO_DELTA);
      }
      parent := Parent(NON_WR, false, false);
      cal := cal.(otherPeriod := 0, otherRetry := 0, otherSendPattern := 0,
                  otherDeltaTx := ZERO_DELTA, otherDeltaRx := ZERO_DELTA);
      SetDefaultTimeouts();
      if mode == Init {
        fsm := fsm.(wrMode := NonWr, role := NonSlave);
      }
    }

    method WrTimeoutManage(entering: WrState, exiting: WrState, now: uint64)
      requires Valid()
      modifies this`currentWrStateCnt, wrTimers
      ensures Valid()
      ensures Snap() == old(Snap()).(clock := F.TimeoutManage(old(Snap()).clock, entering, exiting, now))
    {
      if entering != exiting {
        currentWrStateCnt := 0;
      } else {
        currentWrStateCnt := (currentWrStateCnt + 1) % 256;
      }
      if exiting != IDLE {
        TimerStop(wrTimers, TimerIndex(exiting));
      }
      assert wrTimers[..] == StopTimer(old(wrTimers[..]), exiting);
      if entering != IDLE {
        TimerStart(wrTimers, TimerIndex(entering), wrTimeouts[TimerIndex(entering)], now);
      }
      assert wrTimers[..] == StartTimer(StopTimer(old(wrTimers[..]), exiting), entering, wrTimeouts[..], now);
    }

    method LeavePtpState()
      requires Valid()
      modifies this`fsm
      ensures Valid() && Snap() == F.LeavePtpState(old(Snap()))
    {
      if fsm.portState == SLAVE {
        fsm := fsm.(wrMode := NonWr);
        fsm := fsm.(wrModeOn := false);
      }
    }

    /** `toState(PTP_FAULTY)`. */
    method ToFaulty()
      requires Valid()
      modifies this`fsm
      ensures Valid() && Snap() == F.ToFaulty(old(Snap()))
    {
      if fsm.wrState != IDLE {
        return;
      }
      LeavePtpState();
      fsm := fsm.(portState := FAULTY);
    }

    method IssueWrSignalingMsg(m: WrMsg, sendOk: bool)
      requires Valid()
      modifies this`fsm, this`outbox
      ensures Valid() && Snap() == F.Issue(old(Snap()), m, sendOk)
    {
      if !sendOk {
        ToFaulty();
      } else if fsm.wrMode != NonWr {
        outbox := outbox + [m];
      }
    }

    /** Tasks on entering a main state of the WR FSM. */
    method EnterWrState(entering: WrState, hw: Hw)
      requires Valid()
      modifies this, wrTimeouts
      ensures Valid() && Snap() == F.EnterWrState(old(Snap()), entering, hw)
    {
      match entering {
        case IDLE =>
          fsm := fsm.(wrState := IDLE, sub := 0);
        case PRESENT =>
          IssueWrSignalingMsg(SlavePresentMsg, hw.sendOk);
          fsm := fsm.(wrState := PRESENT, sub := 0);
        case S_LOCK =>
          if fsm.role == PrimarySlave || fsm.role == SecondarySlave {
            if hw.lockEnable {
              fsm := fsm.(wrState := S_LOCK, sub := 1);
            } else {
              fsm := fsm.(wrState := S_LOCK, sub := 0);
            }
          }
        case LOCKED =>
          IssueWrSignalingMsg(LockedMsg, hw.sendOk);
          fsm := fsm.(wrState := LOCKED, sub := 0);
        case M_LOCK =>
          IssueWrSignalingMsg(LockMsg, hw.sendOk);
          fsm := fsm.(wrState := M_LOCK, sub := 0);
        case CALIBRATION =>
          EnterCalibration(hw);
        case CALIBRATED =>
          fsm := fsm.(wrState := CALIBRATED, sub := 0);
        case RESP_CALIB_REQ =>
          EnterRespCalibReq(hw);
        case WR_LINK_ON =>
          fsm := fsm.(wrModeOn := true);
          if fsm.wrMode == WrMaster {
            IssueWrSignalingMsg(WrModeOnMsg, hw.sendOk);
          }
          parent := parent.(wrModeOn := true);
          parent := parent.(calibrated := true);
          fsm := fsm.(wrState := WR_LINK_ON, sub := 0);
      }
    }

    method EnterCalibration(hw: Hw)
      requires Valid()
      modifies this, wrTimeouts
      ensures Valid() && Snap() == F.EnterWrState(old(Snap()), CALIBRATION, hw)
    {
      IssueWrSignalingMsg(CalibrateMsg(if cal.calibrated then 0 else 1, cfg.calRetry, cfg.calPeriod), hw.sendOk);
      if cfg.calPeriod > 0 {
        wrTimeouts[TimerIndex(CALIBRATION)] := ToInt32(cfg.calPeriod);
      } else {
        wrTimeouts[TimerIndex(CALIBRATION)] := cfg.wrStateTimeout;
      }
      fsm := fsm.(wrState := CALIBRATION);
      if cal.calibrated {
        fsm := fsm.(sub := 2);
      } else if hw.patternEnable {
        if hw.txEnable {
          fsm := fsm.(sub := 2);
        } else {
          fsm := fsm.(sub := 1);
        }
      } else {
        fsm := fsm.(sub := 0);
      }
    }

    method EnterRespCalibReq(hw: Hw)
      requires Valid()
      modifies this, wrTimeouts
      ensures Valid() && Snap() == F.EnterWrState(old(Snap()), RESP_CALIB_REQ, hw)
    {
      if cal.otherSendPattern == 1 {
        if cal.otherPeriod > 0 {
          wrTimeouts[TimerIndex(RESP_CALIB_REQ)] := ToInt32(cal.otherPeriod);
        } else {
          wrTimeouts[TimerIndex(RESP_CALIB_REQ)] := cfg.wrStateTimeout;
        }
        if hw.patternEnable {
          fsm := fsm.(wrState := RESP_CALIB_REQ, sub := 1);
        } else {
          fsm := fsm.(wrState := RESP_CALIB_REQ, sub := 0);
        }
      } else {
        fsm := fsm.(wrState := RESP_CALIB_REQ, sub := 1);
      }
    }

    method ToWrState(entering: WrState, hw: Hw, now: uint64)
      requires Valid()
      modifies this, wrTimers, wrTimeouts
      ensures Valid() && Snap() == F.ToWrState(old(Snap()), entering, hw, now)
    {
      var exiting := fsm.wrState;
      if exiting == IDLE {
        InitWrData(ReInit, hw);
      }
      EnterWrState(entering, hw);
      WrTimeoutManage(entering, exiting, now);
    }

    method ToState(state: PtpState, hw: Hw, now: uint64)
      requires Valid()
      modifies this, wrTimers, wrTimeouts
      ensures Valid() && Snap() == F.ToState(old(Snap()), state, hw, now)
    {
      if fsm.wrState != IDLE {
        return;
      }
      LeavePtpState();
      match state {
        case UNCALIBRATED =>
          if && fsm.wrMode == WrSlave && (cfg.wrConfig == WR_S_ONLY || cfg.wrConfig == WR_M_AND_S)
             && (parent.wrConfig == WR_M_ONLY || parent.wrConfig == WR_M_AND_S) {
            if !parent.wrModeOn || !fsm.wrModeOn {
              ToWrState(PRESENT, hw, now);
              fsm := fsm.(portState := UNCALIBRATED);
              return;
            }
          } else {
            fsm := fsm.(wrMode := NonWr);
          }
          fsm := fsm.(portState := SLAVE);
        case PRE_MASTER =>
        case _ =>
          fsm := fsm.(portState := state);
      }
    }

    /** `msgUnpackWRSignalingMsg`, for a message with a valid WR TLV. */
    method UnpackWrSignalingMsg(m: WrMsg)
      requires Valid()
      modifies this
      ensures Valid() && Snap() == F.Accept(old(Snap()), m)
    {
      fsm := fsm.(msgId := IdOf(m));
      match m {
        case CalibrateMsg(pattern, retry, period) =>
          cal := cal.(otherSendPattern := pattern);
          cal := cal.(otherRetry := retry);
          cal := cal.(otherPeriod := period);
        case CalibratedMsg(tx, rx) =>
          cal := cal.(otherDeltaTx := tx);
          cal := cal.(otherDeltaRx := rx);
        case _ =>
      }
    }

    method HandleSignaling(msg: Option<WrMsg>, fromSelf: bool, hw: Hw, now: uint64)
      requires Valid()
      modifies this, wrTimers, wrTimeouts
      ensures Valid()
      ensures Snap() == if fromSelf then old(Snap())
                        else var q := if msg.Some? then F.Accept(old(Snap()), msg.value) else old(Snap());
                             if AnswersSlavePresent(q) then
                               F.ToWrState(q.(fsm := q.fsm.(wrMode := WrMaster)), M_LOCK, hw, now)
                             else q
    {
      if fromSelf {
        return;
      }
      if msg.Some? {
        UnpackWrSignalingMsg(msg.value);
      }
      if && fsm.portState == MASTER && fsm.msgId == SlavePresentId
         && (cfg.wrConfig == WR_M_ONLY || cfg.wrConfig == WR_M_AND_S) {
        fsm := fsm.(wrMode := WrMaster);
        ToWrState(M_LOCK, hw, now);
      }
    }

    method Handle(env: Env)
      requires Valid()
      modifies this, wrTimers, wrTimeouts
      ensures Valid() && Snap() == F.Handle(old(Snap()), env)
    {
      match env.rx {
        case RxNone =>
        case RxError =>
          ToFaulty();
        case RxOther(fault) =>
          if fault {
            ToFaulty();
          }
        case RxSignaling(msg, fromSelf) =>
          HandleSignaling(msg, fromSelf, env.signalHw, env.now);
      }
    }

    /** The three S_LOCK cases, falling through while the hardware accepts. */
    method DoSLock(env: Env)
      requires Valid() && fsm.wrState == S_LOCK
      modifies this, wrTimers, wrTimeouts
      ensures Valid() && Snap() == F.DoSLock(old(Snap()), env)
    {
      if fsm.role == NonSlave {
        return;
      }
      if fsm.sub == 0 {
        if !env.doHw.lockEnable {
          return;
        }
        fsm := fsm.(sub := 1);
      }
      if fsm.sub == 1 {
        if !env.doHw.lockReady {
          return;
        }
        fsm := fsm.(sub := 2);
      }
      if env.doHw.lockDisable {
        ToWrState(LOCKED, env.enterHw, env.now);
      }
    }

    /** The CALIBRATION cases that send the pattern and measure Tx, falling through while the
        hardware accepts. */
    method CalibrateTx(hw: Hw)
      requires Valid() && fsm.wrState == CALIBRATION
      modifies this`fsm, this`cal
      ensures Valid() && CalAdvance(old(Snap()), Snap(), hw) && (fsm.sub < 5 ==> !CalAccepts(fsm.sub, hw))
      ensures cal == if old(fsm.sub) <= 2 < fsm.sub && hw.txDelta.Some?
                     then old(cal).(deltaTx := SplitDelta(hw.txDelta.value)) else old(cal)
    {
      hide SplitDelta;
      if fsm.sub == 0 {
        if !hw.patternEnable { return; }
        fsm := fsm.(sub := 1);
      }
      if fsm.sub == 1 {
        if !hw.txEnable { return; }
        fsm := fsm.(sub := 2);
      }
      if fsm.sub == 2 {
        if hw.txDelta.None? { return; }
        cal := cal.(deltaTx := SplitDelta(hw.txDelta.value));
        fsm := fsm.(sub := 3);
      }
      if fsm.sub == 3 {
        if !hw.txDisable { return; }
        fsm := fsm.(sub := 4);
      }
      if fsm.sub == 4 {
        if !hw.patternDisable { return; }
        fsm := fsm.(sub := 5);
      }
    }

    /** The CALIBRATION cases that measure Rx. */
    method CalibrateRx(hw: Hw)
      requires Valid() && fsm.wrState == CALIBRATION && 5 <= fsm.sub
      modifies this`fsm, this`cal
      ensures Valid() && CalAdvance(old(Snap()), Snap(), hw) && !CalAccepts(fsm.sub, hw)
      ensures cal == if old(fsm.sub) <= 6 < fsm.sub && hw.rxDelta.Some?
                     then old(cal).(deltaRx := SplitDelta(hw.rxDelta.value)) else old(cal)
    {
      hide SplitDelta;
      if fsm.sub == 5 {
        if !hw.rxEnable { return; }
        fsm := fsm.(sub := 6);
      }
      if fsm.sub == 6 {
        if hw.rxDelta.None? { return; }
        cal := cal.(deltaRx := SplitDelta(hw.rxDelta.value));
        fsm := fsm.(sub := 7);
      }
      if fsm.sub == 7 {
        if !hw.rxDisable { return; }
        fsm := fsm.(sub := 8);
      }
    }

    method CalibrationSteps(hw: Hw)
      requires Valid() && fsm.wrState == CALIBRATION
      modifies this`fsm, this`cal
      ensures Valid()
      ensures var k := CalProgress(old(fsm.sub), hw);
              Snap() == old(Snap()).At(CALIBRATION, k).(cal := Measured(old(cal), old(fsm.sub), k, hw))
      ensures old(fsm.sub) <= 2 < fsm.sub ==> hw.txDelta.Some? && cal.deltaTx == SplitDelta(hw.txDelta.value)
      ensures old(fsm.sub) <= 6 < fsm.sub ==> hw.rxDelta.Some? && cal.deltaRx == SplitDelta(hw.rxDelta.value)
    {
      hide SplitDelta, CalProgress;
      CalibrateTx(hw);
      ghost var mid := Snap();
      if 5 <= fsm.sub {
        CalibrateRx(hw);
        CalAdvanceTrans(old(Snap()), mid, Snap(), hw);
      }
      CalEnd(old(fsm.sub), fsm.sub, hw);
      assert old(fsm.sub) <= 2 < fsm.sub ==> CalAccepts(2, hw);
      assert old(fsm.sub) <= 6 < fsm.sub ==> CalAccepts(6, hw);
    }

    method DoCalibration(env: Env)
      requires Valid() && fsm.wrState == CALIBRATION
      modifies this, wrTimers, wrTimeouts
      ensures Valid() && Snap() == F.DoCalibration(old(Snap()), env)
    {
      CalibrationSteps(env.doHw);
      if fsm.sub == 8 {
        IssueWrSignalingMsg(CalibratedMsg(cal.deltaTx, cal.deltaRx), env.doHw.sendOk);
        ToWrState(CALIBRATED, env.enterHw, env.now);
        cal := cal.(calibrated := true);
      }
    }

    /** The RESP_CALIB_REQ cases from substate 2 on. */
    method RespFinish(env: Env)
      requires Valid() && fsm.wrState == RESP_CALIB_REQ && 2 <= fsm.sub
      modifies this, wrTimers, wrTimeouts
      ensures Valid() && Snap() == F.RespFinish(old(Snap()), env)
    {
      if fsm.sub == 2 {
        if !env.doHw.patternDisable { return; }
        fsm := fsm.(sub := 3);
      }
      if fsm.wrMode == WrMaster {
        ToWrState(WR_LINK_ON, env.enterHw, env.now);
      } else if fsm.wrMode == WrSlave {
        ToWrState(CALIBRATION, env.enterHw, env.now);
      } else {
        ToWrState(IDLE, env.enterHw, env.now);
      }
    }

    method DoRespCalibReq(env: Env)
      requires Valid() && fsm.wrState == RESP_CALIB_REQ
      modifies this, wrTimers, wrTimeouts
      ensures Valid() && Snap() == F.DoRespCalibReq(old(Snap()), env)
    {
      if fsm.sub == 0 {
        if !env.doHw.patternEnable { return; }
        fsm := fsm.(sub := 1);
      }
      if fsm.sub == 1 {
        Handle(env);
        if fsm.msgId != CalibratedId { return; }
        fsm := fsm.(wrState := RESP_CALIB_REQ);
        if cal.otherSendPattern == 1 {
          fsm := fsm.(sub := 2);
        } else {
          fsm := fsm.(sub := 3);
        }
      }
      RespFinish(env);
    }

    /** The switch of `doWRState`. */
    method WrActions(env: Env)
      requires Valid()
      modifies this, wrTimers, wrTimeouts
      ensures Valid() && Snap() == F.WrActions(old(Snap()), env)
    {
      match fsm.wrState {
        case IDLE =>
        case PRESENT =>
          Handle(env);
          if fsm.msgId == LockId {
            ToWrState(S_LOCK, env.enterHw, env.now);
            fsm := fsm.(msgId := NullTlv);
          }
        case S_LOCK =>
          DoSLock(env);
        case M_LOCK =>
          Handle(env);
          if fsm.msgId == LockedId {
            ToWrState(CALIBRATION, env.enterHw, env.now);
          }
        case LOCKED =>
          Handle(env);
          if fsm.msgId == CalibrateId {
            ToWrState(RESP_CALIB_REQ, env.enterHw, env.now);
          }
        case CALIBRATION =>
          DoCalibration(env);
        case CALIBRATED =>
          Handle(env);
          if fsm.msgId == CalibrateId && fsm.wrMode == WrMaster {
            ToWrState(RESP_CALIB_REQ, env.enterHw, env.now);
          } else if fsm.msgId == WrModeOnId && fsm.wrMode == WrSlave {
            ToWrState(WR_LINK_ON, env.enterHw, env.now);
          }
        case RESP_CALIB_REQ =>
          DoRespCalibReq(env);
        case WR_LINK_ON =>
          ToWrState(IDLE, env.enterHw, env.now);
          if fsm.wrMode == WrSlave {
            ToState(SLAVE, env.retryHw, env.now);
          } else if fsm.wrMode == WrMaster {
            ToState(MASTER, env.retryHw, env.now);
          }
      }
    }

    /** Retries exhausted: fall back to plain PTP, or disable the port. */
    method Abandon(mode: WrMode, env: Env)
      requires Valid() && mode == fsm.wrMode
      modifies this, wrTimers, wrTimeouts
      ensures Valid() && Snap() == F.Abandon(old(Snap()), env)
    {
      fsm := fsm.(wrModeOn := false);
      ToWrState(IDLE, env.retryHw, env.now);
      if cfg.disableFallback {
        ToState(DISABLED, env.retryHw, env.now);
      } else if mode == WrMaster {
        ToState(MASTER, env.retryHw, env.now);
      } else {
        ToState(SLAVE, env.retryHw, env.now);
      }
      InitWrData(Init, env.retryHw);
    }

    method WrTimerExpired(env: Env)
      requires Valid()
      modifies this, wrTimers, wrTimeouts
      ensures Valid() && Snap() == F.WrTimeout(old(Snap()), env)
    {
      var current := fsm.wrState;
      if current == IDLE {
        return;
      }
      var expired := TimerExpired(wrTimers, TimerIndex(current), env.now);
      if expired {
        var mode := fsm.wrMode;
        var budget := cfg.wrStateRetry;
        if current == CALIBRATION && cfg.calRetry > 0 {
          budget := cfg.calRetry;
        } else if current == RESP_CALIB_REQ && cal.otherRetry > 0 {
          budget := cal.otherRetry;
        }
        if currentWrStateCnt < budget {
          ToWrState(current, env.retryHw, env.now);
        } else {
          Abandon(mode, env);
        }
      } else {
        assert wrTimers[..] == old(wrTimers[..]);
      }
    }

    method DoWrState(env: Env)
      requires Valid()
      modifies this, wrTimers, wrTimeouts
      ensures Valid() && Snap() == F.DoWrState(old(Snap()), env)
    {
      WrActions(env);
      WrTimerExpired(env);
    }

    /** `m1`. */
    method BecomeMaster()
      requires Valid()
      modifies this
      ensures Valid() && Snap() == F.BecomeMaster(old(Snap()))
    {
      parent := parent.(wrConfig := cfg.wrConfig);
      parent := parent.(wrModeOn := fsm.wrModeOn);
      parent := parent.(calibrated := cal.calibrated);
      fsm := fsm.(role := NonSlave);
    }

    /** The state decision event at the head of `doState`. */
    method Decide(env: Env)
      requires Valid()
      modifies this, wrTimers, wrTimeouts
      ensures Valid() && Snap() == F.Decide(old(Snap()), env)
    {
      if fsm.portState !in {LISTENING, PASSIVE, SLAVE, MASTER} {
        return;
      }
      if env.decision.None? || fsm.wrState != IDLE {
        return;
      }
      var d := env.decision.value;
      fsm := fsm.(role := d.role);
      parent := d.parent;
      if d.state != fsm.portState {
        if d.state == SLAVE {
          fsm := fsm.(wrMode := WrSlave);
          fsm := fsm.(wrModeOn := false);
          ToState(UNCALIBRATED, env.signalHw, env.now);
        } else {
          ToState(d.state, env.signalHw, env.now);
        }
      } else if env.linkUp && fsm.portState == SLAVE && fsm.wrMode == WrSlave && (!parent.wrModeOn || !fsm.wrModeOn) {
        ToState(UNCALIBRATED, env.signalHw, env.now);
      }
    }

    method DoListening(env: Env)
      requires Valid()
      modifies this, wrTimers, wrTimeouts
      ensures Valid() && Snap() == F.DoListening(old(Snap()), env)
    {
      Handle(env);
      if env.announceExpired {
        fsm := fsm.(wrMode := NonWr);
        fsm := fsm.(wrModeOn := false);
        if cfg.wrConfig != WR_S_ONLY && !cfg.slaveOnlyClass {
          BecomeMaster();
          ToState(MASTER, env.retryHw, env.now);
        } else if fsm.portState != LISTENING {
          ToState(LISTENING, env.retryHw, env.now);
        }
      }
      if env.sendFault {
        ToFaulty();
      }
    }

    method DoMaster(env: Env)
      requires Valid()
      modifies this, wrTimers, wrTimeouts
      ensures Valid() && Snap() == F.DoMaster(old(Snap()), env)
    {
      if fsm.wrMode == WrMaster && fsm.wrState != IDLE {
        DoWrState(env);
        fsm := fsm.(msgId := NullTlv);
        return;
      }
      Handle(env);
      if env.sendFault {
        ToFaulty();
      }
      if cfg.wrConfig == WR_S_ONLY || cfg.slaveOnlyClass {
        ToState(LISTENING, env.retryHw, env.now);
      }
    }

    /** `doState`. */
    method DoState(env: Env)
      requires Valid()
      modifies this, wrTimers, wrTimeouts
      ensures Valid() && Snap() == F.DoState(old(Snap()), env)
    {
      Decide(env);
      match fsm.portState {
        case FAULTY =>
          ToState(INITIALIZING, env.retryHw, env.now);
        case UNCALIBRATED =>
          if fsm.wrMode == WrSlave {
            DoWrState(env);
          } else {
            ToState(SLAVE, env.retryHw, env.now);
          }
          fsm := fsm.(msgId := NullTlv);
        case LISTENING =>
          if cfg.wrConfig == WR_M_ONLY {
            BecomeMaster();
            ToState(MASTER, env.retryHw, env.now);
          } else {
            DoListening(env);
          }
        case PASSIVE =>
          DoListening(env);
        case SLAVE =>
          DoListening(env);
        case MASTER =>
          DoMaster(env);
        case DISABLED =>
          Handle(env);
        case _ =>
      }
    }

    /** `doInit`; `config` is the data set read from the options and auto-detection. */
    method DoInit(config: Config, env: Env)
      requires Valid()
      modifies this, wrTimers, wrTimeouts
      ensures Valid() && Snap() == F.DoInit(old(Snap()), config, env)
    {
      cfg := config;
      InitWrData(Init, env.doHw);
      BecomeMaster();
      ToState(LISTENING, env.enterHw, env.now);
    }
  }
}
