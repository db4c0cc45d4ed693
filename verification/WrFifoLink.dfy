/** Two nodes on a lossless FIFO link: progress and agreement of one WR link setup. */
module WrFifoLink {
  import opened CTypes
  import opened WrFsm
  import opened WrCoupling
  import opened WrAgreement

  datatype Joint = Joint(slave: Port, master: Port, toMaster: seq<WrMsg>, toSlave: seq<WrMsg>)

  datatype Turn = SlaveTurn(env: Env) | MasterTurn(env: Env)

  function Rest(p: Port, env: Env, inbox: seq<WrMsg>): seq<WrMsg> {
    if Hears(p, env).Some? && inbox != [] then inbox[1..] else inbox
  }

  /** What a step sent. */
  ghost function News(p: Port, q: Port): seq<WrMsg> {
    if p.outbox <= q.outbox then q.outbox[|p.outbox|..] else []
  }

  ghost predicate Allowed(j: Joint, t: Turn) {
    match t
    case SlaveTurn(env) => Quiet(j.slave, env, j.toSlave)
    case MasterTurn(env) => Quiet(j.master, env, j.toMaster)
  }

  /** One node takes a step; the link delivers in order and loses nothing. */
  ghost function Next(j: Joint, t: Turn): Joint
    requires Allowed(j, t)
  {
    match t
    case SlaveTurn(env) =>
      var q := DoState(j.slave, env);
      Joint(q, j.master, j.toMaster + News(j.slave, q), Rest(j.slave, env, j.toSlave))
    case MasterTurn(env) =>
      var q := DoState(j.master, env);
      Joint(j.slave, q, Rest(j.master, env, j.toMaster), j.toSlave + News(j.master, q))
  }

  const DONE: nat := 16

  /** How far the handshake has come, read off the two main states. */
  function Phase(j: Joint): (k: nat)
    ensures k <= DONE
  {
    match j.slave.fsm.wrState
    case PRESENT => if j.master.fsm.wrState == IDLE then 0 else 1
    case S_LOCK => 2
    case LOCKED => (match j.master.fsm.wrState case CALIBRATION => 4 case CALIBRATED => 5 case _ => 3)
    case RESP_CALIB_REQ => if j.master.fsm.wrState == CALIBRATION then 6 else if j.slave.fsm.sub <= 1 then 7 else 8
    case CALIBRATION => if j.master.fsm.wrState == CALIBRATED then 9 else 10
    case CALIBRATED =>
      (match j.master.fsm.wrState
       case CALIBRATED => 11
       case RESP_CALIB_REQ => if j.master.fsm.sub <= 1 then 12 else 13
       case _ => 14)
    case WR_LINK_ON => 15
    case _ => DONE
  }

  ghost predicate SlaveOk(p: Port) {
    if p.fsm.wrState == IDLE then WellFormed(p) && p.fsm.portState == SLAVE && p.fsm.wrModeOn
    else Running(p) && SlaveSession(p)
  }

  ghost predicate MasterOk(p: Port) {
    && WellFormed(p) && p.fsm.portState == MASTER
    && p.cfg.wrConfig in {WR_M_ONLY, WR_M_AND_S} && !p.cfg.slaveOnlyClass
    && (p.fsm.wrState != IDLE ==> Running(p) && p.fsm.wrMode == WrMaster)
  }

  /** The slave knows the fixed delays of the master. */
  ghost predicate SlaveKnows(j: Joint) {
    && j.slave.cal.otherDeltaTx == j.master.cal.deltaTx
    && j.slave.cal.otherDeltaRx == j.master.cal.deltaRx
  }

  /** The master knows the fixed delays of the slave. */
  ghost predicate MasterKnows(j: Joint) {
    && j.master.cal.otherDeltaTx == j.slave.cal.deltaTx
    && j.master.cal.otherDeltaRx == j.slave.cal.deltaRx
  }

  ghost predicate IsCalibrate(ms: seq<WrMsg>, n: nat) {
    |ms| == n && 0 < n && ms[0].CalibrateMsg?
  }

  /** The messages in flight and the knowledge exchanged in each phase. */
  ghost predicate Shape(j: Joint) {
    var m := j.master.fsm.wrState;
    match Phase(j)
    case 0 => j.toMaster == [SlavePresentMsg] && j.toSlave == []
    case 1 => m == M_LOCK && j.toMaster == [] && j.toSlave == [LockMsg]
    case 2 => m == M_LOCK && j.toMaster == [] && j.toSlave == []
    case 3 => m == M_LOCK && j.toMaster == [LockedMsg] && j.toSlave == []
    case 4 => j.toMaster == [] && IsCalibrate(j.toSlave, 1)
    case 5 => j.toMaster == [] && IsCalibrate(j.toSlave, 2) && j.toSlave[1] == CalibratedMsgOf(j.master)
    case 6 => j.toMaster == [] && j.toSlave == [] && j.slave.fsm.sub <= 1
    case 7 => m == CALIBRATED && j.toMaster == [] && j.toSlave == [CalibratedMsgOf(j.master)]
    case 8 => m == CALIBRATED && j.toMaster == [] && j.toSlave == [] && SlaveKnows(j)
    case 9 => IsCalibrate(j.toMaster, 1) && j.toSlave == [] && SlaveKnows(j)
    case 10 => m == RESP_CALIB_REQ && j.master.fsm.sub <= 1 && j.toMaster == [] && j.toSlave == [] && SlaveKnows(j)
    case 11 =>
      && IsCalibrate(j.toMaster, 2) && j.toMaster[1] == CalibratedMsgOf(j.slave)
      && j.toSlave == [] && SlaveKnows(j)
    case 12 => j.toMaster == [CalibratedMsgOf(j.slave)] && j.toSlave == [] && SlaveKnows(j)
    case 13 => j.toMaster == [] && j.toSlave == [] && SlaveKnows(j) && MasterKnows(j)
    case 14 => j.toMaster == [] && j.toSlave == [WrModeOnMsg] && MasterDone(j)
    case _ => j.toMaster == [] && j.toSlave == [] && j.slave.fsm.wrModeOn && MasterDone(j)
  }

  ghost predicate MasterDone(j: Joint) {
    && j.master.fsm.wrState in {WR_LINK_ON, IDLE}
    && j.master.fsm.wrModeOn && SlaveKnows(j) && MasterKnows(j)
  }

  ghost predicate Inv(j: Joint) {
    SlaveOk(j.slave) && MasterOk(j.master) && Shape(j)
  }

  /** The two ports just after the slave entered WRS_PRESENT. */
  ghost predicate Start(j: Joint) {
    && SlaveOk(j.slave) && j.slave.fsm.wrState == PRESENT && j.slave.fsm.msgId == NullTlv
    && MasterOk(j.master) && j.master.fsm.wrState == IDLE
    && j.toMaster == [SlavePresentMsg] && j.toSlave == []
  }

  /** A port that decides to be slave of a WR master, its SLAVE_PRESENT sent, and a master with an
      idle WR FSM at the other end of an empty link, make such a start. */
  lemma SetupStarts(p: Port, m: Port, hw: Hw, now: uint64)
    requires WellFormed(p) && p.fsm.wrState == IDLE && p.fsm.role != NonSlave && p.fsm.msgId == NullTlv && hw.sendOk
    requires WrSlaveCandidate(LeavePtpState(p)) && !(p.parent.wrModeOn && p.fsm.wrModeOn)
    requires MasterOk(m) && m.fsm.wrState == IDLE
    ensures var q := ToState(p, UNCALIBRATED, hw, now); Start(Joint(q, m, News(p, q), []))
  {
    hide TimeoutManage;
    var q := ToState(p, UNCALIBRATED, hw, now);
    assert q.outbox == p.outbox + [SlavePresentMsg];
    NewsOf(p, q, [SlavePresentMsg]);
  }

  /** A finished PTP slave that hears nothing about WR does nothing to its WR state. */
  lemma IdleSlaveStep(p: Port, env: Env)
    requires SlaveOk(p) && p.fsm.wrState == IDLE && Quiet(p, env, [])
    ensures DoState(p, env) == p
  {
    HandleNothing(p, env);
  }

  lemma IdleMasterStep(p: Port, env: Env)
    requires MasterOk(p) && p.fsm.wrState == IDLE && Quiet(p, env, [])
    ensures DoState(p, env) == p
  {
    HandleNothing(p, env);
  }

  /** An idle master answers SLAVE_PRESENT with LOCK. */
  lemma AnswerStep(p: Port, env: Env)
    requires MasterOk(p) && p.fsm.wrState == IDLE && Quiet(p, env, [SlavePresentMsg]) && env.rx.RxSignaling?
    ensures var q := DoState(p, env);
            MasterOk(q) && q.fsm.wrState == M_LOCK && q.outbox == p.outbox + [LockMsg]
  {
    var a := Accept(p, SlavePresentMsg);
    var i := ReInitWrData(a.(fsm := a.fsm.(wrMode := WrMaster)), env.signalHw);
    assert Issue(i, LockMsg, true).outbox == p.outbox + [LockMsg];
    var h := Handle(p, env);
    assert h.fsm.wrState == M_LOCK && h.outbox == p.outbox + [LockMsg];
    assert DoState(p, env) == h;
  }

  lemma NewsOf(p: Port, q: Port, ms: seq<WrMsg>)
    requires q.outbox == p.outbox + ms
    ensures News(p, q) == ms
  {
  }

  lemma NoNews(p: Port, q: Port)
    requires q.outbox == p.outbox
    ensures News(p, q) == []
  {
    NewsOf(p, q, []);
  }

  /** A willing turn: the node whose turn it is steps, the hardware does what it is asked, and
      the message it waits for is delivered. */
  ghost predicate Willing(j: Joint, t: Turn) {
    match t
    case SlaveTurn(env) =>
      && Phase(j) in {1, 2, 4, 5, 7, 8, 9, 10, 14, 15}
      && HwWilling(env.doHw) && (j.toSlave != [] ==> env.rx.RxSignaling?)
    case MasterTurn(env) =>
      && Phase(j) in {0, 3, 6, 11, 12, 13}
      && HwWilling(env.doHw) && (j.toMaster != [] ==> env.rx.RxSignaling?)
  }

  predicate HwWilling(hw: Hw) {
    hw.lockEnable && hw.lockReady && hw.lockDisable && CalWilling(hw)
  }

  ghost predicate Advances(j: Joint, t: Turn, j': Joint) {
    Inv(j') && Phase(j) <= Phase(j') && (Willing(j, t) ==> Phase(j) < Phase(j'))
  }

  lemma SlaveLockPhases(j: Joint, t: Turn)
    requires Inv(j) && Allowed(j, t) && t.SlaveTurn? && Phase(j) <= 2
    ensures Advances(j, t, Next(j, t))
  {
    hide DoState, WrActions, TimedOut;
    var p, q := j.slave, DoState(j.slave, t.env);
    if Phase(j) <= 1 {
      PresentStep(p, t.env, j.toSlave);
      NoNews(p, q);
    } else {
      LockStep(p, t.env, j.toSlave);
      if q.fsm.wrState == LOCKED { NewsOf(p, q, [LockedMsg]); } else { NoNews(p, q); }
    }
  }

  lemma SlaveLockedPhases(j: Joint, t: Turn)
    requires Inv(j) && Allowed(j, t) && t.SlaveTurn? && 3 <= Phase(j) <= 5
    ensures Advances(j, t, Next(j, t))
  {
    hide DoState, WrActions, TimedOut;
    LockedStep(j.slave, t.env, j.toSlave);
    NoNews(j.slave, DoState(j.slave, t.env));
  }

  lemma SlaveAwaitPhases(j: Joint, t: Turn)
    requires Inv(j) && Allowed(j, t) && t.SlaveTurn? && 6 <= Phase(j) <= 7
    ensures Advances(j, t, Next(j, t))
  {
    hide DoState, WrActions, TimedOut;
    var p, q := j.slave, DoState(j.slave, t.env);
    RespAwaitStep(p, t.env, j.toSlave);
    if LeftResp(p, q) { NewsOf(p, q, [CalibrateMsgOf(p)]); } else { NoNews(p, q); }
  }

  lemma SlaveLeavePhase(j: Joint, t: Turn)
    requires Inv(j) && Allowed(j, t) && t.SlaveTurn? && Phase(j) == 8
    ensures Advances(j, t, Next(j, t))
  {
    hide DoState, WrActions, TimedOut;
    var p, q := j.slave, DoState(j.slave, t.env);
    RespLeaveStep(p, t.env, j.toSlave);
    if LeftResp(p, q) { NewsOf(p, q, [CalibrateMsgOf(p)]); } else { NoNews(p, q); }
  }

  lemma SlaveCalPhases(j: Joint, t: Turn)
    requires Inv(j) && Allowed(j, t) && t.SlaveTurn? && 9 <= Phase(j) <= 13
    ensures Advances(j, t, Next(j, t))
  {
    hide DoState, WrActions, TimedOut;
    var p, q := j.slave, DoState(j.slave, t.env);
    if Phase(j) <= 10 {
      CalibrationStep(p, t.env, j.toSlave);
      if q.fsm.wrState == CALIBRATED { NewsOf(p, q, [CalibratedMsgOf(q)]); } else { NoNews(p, q); }
    } else {
      CalibratedStep(p, t.env, j.toSlave);
      NoNews(p, q);
    }
  }

  lemma SlaveEndPhases(j: Joint, t: Turn)
    requires Inv(j) && Allowed(j, t) && t.SlaveTurn? && 14 <= Phase(j)
    ensures Advances(j, t, Next(j, t))
  {
    hide DoState, WrActions, TimedOut;
    var p, q := j.slave, DoState(j.slave, t.env);
    if Phase(j) == 14 {
      CalibratedStep(p, t.env, j.toSlave);
    } else if Phase(j) == 15 {
      LinkOnStep(p, t.env, j.toSlave);
    } else {
      IdleSlaveStep(p, t.env);
    }
    NoNews(p, q);
  }

  lemma MasterLockPhases(j: Joint, t: Turn)
    requires Inv(j) && Allowed(j, t) && t.MasterTurn? && Phase(j) <= 3
    ensures Advances(j, t, Next(j, t))
  {
    hide DoState, WrActions, TimedOut;
    var p, q := j.master, DoState(j.master, t.env);
    if Phase(j) == 0 {
      if t.env.rx.RxSignaling? {
        AnswerStep(p, t.env);
        NewsOf(p, q, [LockMsg]);
      } else {
        HandleNothing(p, t.env);
        IdleMasterStep(p, t.env);
        NoNews(p, q);
      }
    } else {
      MLockStep(p, t.env, j.toMaster);
      if q.fsm.wrState == CALIBRATION { NewsOf(p, q, [CalibrateMsgOf(p)]); } else { NoNews(p, q); }
    }
  }

  lemma MasterMeasurePhases(j: Joint, t: Turn)
    requires Inv(j) && Allowed(j, t) && t.MasterTurn? && Phase(j) in {4, 6}
    ensures Advances(j, t, Next(j, t))
  {
    hide DoState, WrActions, TimedOut;
    var p, q := j.master, DoState(j.master, t.env);
    CalibrationStep(p, t.env, j.toMaster);
    if q.fsm.wrState == CALIBRATED { NewsOf(p, q, [CalibratedMsgOf(q)]); } else { NoNews(p, q); }
  }

  lemma MasterWaitPhases(j: Joint, t: Turn)
    requires Inv(j) && Allowed(j, t) && t.MasterTurn? && Phase(j) in {5, 7, 8}
    ensures Advances(j, t, Next(j, t))
  {
    hide DoState, WrActions, TimedOut;
    CalibratedStep(j.master, t.env, j.toMaster);
    NoNews(j.master, DoState(j.master, t.env));
  }

  lemma MasterAskedPhases(j: Joint, t: Turn)
    requires Inv(j) && Allowed(j, t) && t.MasterTurn? && Phase(j) in {9, 11}
    ensures Advances(j, t, Next(j, t))
  {
    hide DoState, WrActions, TimedOut;
    CalibratedStep(j.master, t.env, j.toMaster);
    NoNews(j.master, DoState(j.master, t.env));
  }

  lemma MasterAwaitPhases(j: Joint, t: Turn)
    requires Inv(j) && Allowed(j, t) && t.MasterTurn? && Phase(j) in {10, 12}
    ensures Advances(j, t, Next(j, t))
  {
    hide DoState, WrActions, TimedOut;
    var p, q := j.master, DoState(j.master, t.env);
    RespAwaitStep(p, t.env, j.toMaster);
    if LeftResp(p, q) { NewsOf(p, q, [WrModeOnMsg]); } else { NoNews(p, q); }
  }

  lemma MasterLeavePhase(j: Joint, t: Turn)
    requires Inv(j) && Allowed(j, t) && t.MasterTurn? && Phase(j) == 13
    ensures Advances(j, t, Next(j, t))
  {
    hide DoState, WrActions, TimedOut;
    var p, q := j.master, DoState(j.master, t.env);
    RespLeaveStep(p, t.env, j.toMaster);
    if LeftResp(p, q) { NewsOf(p, q, [WrModeOnMsg]); } else { NoNews(p, q); }
  }

  lemma MasterEndPhases(j: Joint, t: Turn)
    requires Inv(j) && Allowed(j, t) && t.MasterTurn? && 14 <= Phase(j)
    ensures Advances(j, t, Next(j, t))
  {
    hide DoState, WrActions, TimedOut;
    var p, q := j.master, DoState(j.master, t.env);
    if p.fsm.wrState == IDLE {
      IdleMasterStep(p, t.env);
    } else {
      LinkOnStep(p, t.env, j.toMaster);
    }
    NoNews(p, q);
  }

  /** Main result for one turn: the joint invariant is kept, the handshake never falls back, and
      in every phase a willing turn of the node whose turn it is takes it forward. That there is
      such a turn is WrProgress.NeverStuck. */
  lemma TurnAdvances(j: Joint, t: Turn)
    requires Inv(j) && Allowed(j, t)
    ensures Advances(j, t, Next(j, t))
  {
    if t.SlaveTurn? {
      if Phase(j) <= 2 { SlaveLockPhases(j, t); }
      else if Phase(j) <= 5 { SlaveLockedPhases(j, t); }
      else if Phase(j) <= 7 { SlaveAwaitPhases(j, t); }
      else if Phase(j) == 8 { SlaveLeavePhase(j, t); }
      else if Phase(j) <= 13 { SlaveCalPhases(j, t); }
      else { SlaveEndPhases(j, t); }
    } else {
      if Phase(j) <= 3 { MasterLockPhases(j, t); }
      else if Phase(j) in {4, 6} { MasterMeasurePhases(j, t); }
      else if Phase(j) in {10, 12} { MasterAwaitPhases(j, t); }
      else if Phase(j) <= 8 { MasterWaitPhases(j, t); }
      else if Phase(j) <= 11 { MasterAskedPhases(j, t); }
      else if Phase(j) == 13 { MasterLeavePhase(j, t); }
      else { MasterEndPhases(j, t); }
    }
  }

  ghost predicate IsFifoRun(run: seq<Joint>, turns: seq<Turn>) {
    && |run| == |turns| + 1
    && Start(run[0])
    && forall i :: 0 <= i < |turns| ==> Allowed(run[i], turns[i]) && run[i + 1] == Next(run[i], turns[i])
  }

  ghost function WillingTurns(run: seq<Joint>, turns: seq<Turn>): nat
    requires |run| == |turns| + 1
    decreases |turns|
  {
    var n := |turns| - 1;
    if n < 0 then 0
    else WillingTurns(run[..n + 1], turns[..n]) + (if Willing(run[n], turns[n]) then 1 else 0)
  }

  lemma {:induction false} RunAdvances(run: seq<Joint>, turns: seq<Turn>)
    requires IsFifoRun(run, turns)
    ensures Inv(run[|turns|]) && WillingTurns(run, turns) <= Phase(run[|turns|])
    decreases |turns|
  {
    if |turns| > 0 {
      var n := |turns| - 1;
      assert IsFifoRun(run[..n + 1], turns[..n]);
      RunAdvances(run[..n + 1], turns[..n]);
      TurnAdvances(run[n], turns[n]);
    }
  }

  /** Both nodes are in WR mode and know each other's fixed delays. */
  ghost predicate Agreed(j: Joint) {
    j.slave.fsm.wrModeOn && j.master.fsm.wrModeOn && SlaveKnows(j) && MasterKnows(j)
  }

  /** Main result for runs: sixteen willing turns, however they are interleaved with other quiet
      steps, finish the setup; and whenever the slave has finished, the nodes agree. */
  lemma SetupAgrees(run: seq<Joint>, turns: seq<Turn>)
    requires IsFifoRun(run, turns)
    ensures var last := run[|turns|];
            && (DONE <= WillingTurns(run, turns) ==> last.slave.fsm.wrState == IDLE)
            && (last.slave.fsm.wrState in {WR_LINK_ON, IDLE} ==> Agreed(last))
            && (last.slave.fsm.wrState == IDLE ==> last.slave.fsm.portState == SLAVE)
  {
    hide IsFifoRun, WillingTurns;
    RunAdvances(run, turns);
  }
}
