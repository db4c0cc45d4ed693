/** A completed link setup has carried every measured delay to the servo of the other node
    (PTPWRd/wr_protocol.c:415-549, PTPWRd/dep/wr_servo.c:190-194). */
module WrDelays {
  import opened CTypes
  import opened WrFsm
  import opened WrCoupling
  import opened WrAgreement
  import opened WrFifoLink
  import opened WrCalibration
  import Servo

  /** The delays last measured by the two nodes of a link. */
  datatype Delays = Delays(slaveTx: Option<uint64>, slaveRx: Option<uint64>,
                           masterTx: Option<uint64>, masterRx: Option<uint64>)

  function Latest(measured: Option<uint64>, before: Option<uint64>): Option<uint64> {
    if measured.Some? then measured else before
  }

  /** What a turn adds. */
  function Measure(d: Delays, j: Joint, t: Turn): Delays {
    match t
    case SlaveTurn(env) =>
      d.(slaveTx := Latest(TxResult(j.slave, env), d.slaveTx), slaveRx := Latest(RxResult(j.slave, env), d.slaveRx))
    case MasterTurn(env) =>
      d.(masterTx := Latest(TxResult(j.master, env), d.masterTx),
         masterRx := Latest(RxResult(j.master, env), d.masterRx))
  }

  /** The delays measured in the first `n` turns of a run. */
  ghost function MeasuredBy(run: seq<Joint>, turns: seq<Turn>, n: nat): Delays
    requires n <= |turns| <= |run|
  {
    if n == 0 then Delays(None, None, None, None) else Measure(MeasuredBy(run, turns, n - 1), run[n - 1], turns[n - 1])
  }

  /** The node holds both measurements. */
  ghost predicate HasMeasured(p: Port, tx: Option<uint64>, rx: Option<uint64>) {
    tx.Some? && rx.Some? && p.cal.deltaTx == SplitDelta(tx.value) && p.cal.deltaRx == SplitDelta(rx.value)
  }

  ghost predicate SlaveHolds(j: Joint, d: Delays) {
    match j.slave.fsm.wrState
    case CALIBRATION => Holds(j.slave, d.slaveTx, d.slaveRx)
    case CALIBRATED => HasMeasured(j.slave, d.slaveTx, d.slaveRx)
    case WR_LINK_ON => HasMeasured(j.slave, d.slaveTx, d.slaveRx)
    case IDLE => HasMeasured(j.slave, d.slaveTx, d.slaveRx)
    case _ => d.slaveTx.None? && d.slaveRx.None?
  }

  ghost predicate MasterHolds(j: Joint, d: Delays) {
    match j.master.fsm.wrState
    case CALIBRATION => Holds(j.master, d.masterTx, d.masterRx)
    case CALIBRATED => HasMeasured(j.master, d.masterTx, d.masterRx)
    case RESP_CALIB_REQ => HasMeasured(j.master, d.masterTx, d.masterRx)
    case WR_LINK_ON => HasMeasured(j.master, d.masterTx, d.masterRx)
    case IDLE => if Phase(j) == 0 then d.masterTx.None? && d.masterRx.None?
                 else HasMeasured(j.master, d.masterTx, d.masterRx)
    case _ => d.masterTx.None? && d.masterRx.None?
  }

  /** A quiet turn in CALIBRATION. */
  lemma QuietCalibration(p: Port, env: Env, inbox: seq<WrMsg>, tx: Option<uint64>, rx: Option<uint64>)
    requires Running(p) && Coupled(p) && Quiet(p, env, inbox) && p.fsm.wrState == CALIBRATION && Holds(p, tx, rx)
    ensures var q := DoState(p, env);
            var tx', rx' := Latest(TxResult(p, env), tx), Latest(RxResult(p, env), rx);
            if q.fsm.wrState == CALIBRATION then Holds(q, tx', rx')
            else q.fsm.wrState == CALIBRATED && HasMeasured(q, tx', rx')
  {
    hide DoState, WrActions, WrTimeout, TimedOut, Coupled;
    CalibrationStep(p, env, inbox);
    CalibrationTurn(p, env);
    if Completes(p, env) {
      assert p.fsm.sub <= 2 ==> Calls(env.doHw)[2];
      assert p.fsm.sub <= 6 ==> Calls(env.doHw)[6];
      assert Calls(env.doHw)[2] == env.doHw.txDelta.Some? && Calls(env.doHw)[6] == env.doHw.rxDelta.Some?;
    }
  }

  /** A quiet turn in RESP_CALIB_REQ. */
  lemma QuietResponse(p: Port, env: Env, inbox: seq<WrMsg>)
    requires Running(p) && Quiet(p, env, inbox) && p.fsm.wrState == RESP_CALIB_REQ
    requires p.fsm.sub <= 1 && Hears(p, env).Some? ==> Hears(p, env).value.CalibratedMsg?
    ensures var q := DoState(p, env);
            && SameOwn(p, q) && q.fsm.wrState in {RESP_CALIB_REQ, AfterResp(p)}
            && (q.fsm.wrState == CALIBRATION ==> q.fsm.sub <= 2)
  {
    hide DoState, WrActions, TimedOut;
    if p.fsm.sub <= 1 {
      RespAwaitStep(p, env, inbox);
    } else {
      RespLeaveStep(p, env, inbox);
    }
  }

  lemma SlaveTurnHolds(j: Joint, t: Turn, d: Delays)
    requires Inv(j) && Allowed(j, t) && t.SlaveTurn? && SlaveHolds(j, d)
    ensures SlaveHolds(Next(j, t), Measure(d, j, t))
  {
    hide DoState, WrActions, TimedOut, TxResult, RxResult, SlaveKnows, MasterKnows, SplitDelta, News;
    var p, env, inbox := j.slave, t.env, j.toSlave;
    NotCalibrating(p, env);
    match p.fsm.wrState
    case PRESENT => PresentStep(p, env, inbox);
    case S_LOCK => LockStep(p, env, inbox);
    case LOCKED => LockedStep(p, env, inbox);
    case RESP_CALIB_REQ => QuietResponse(p, env, inbox);
    case CALIBRATION => QuietCalibration(p, env, inbox, d.slaveTx, d.slaveRx);
    case CALIBRATED => CalibratedStep(p, env, inbox);
    case WR_LINK_ON => LinkOnStep(p, env, inbox);
    case IDLE => IdleSlaveStep(p, env);
  }

  lemma NotCalibrating(p: Port, env: Env)
    ensures p.fsm.wrState != CALIBRATION ==> TxResult(p, env).None? && RxResult(p, env).None?
  {
  }

  /** Turns of a master that does not measure. */
  lemma MasterEndsHold(j: Joint, t: Turn, d: Delays)
    requires Inv(j) && Allowed(j, t) && t.MasterTurn? && MasterHolds(j, d) && j.master.fsm.wrState in {IDLE, WR_LINK_ON}
    ensures MasterHolds(Next(j, t), Measure(d, j, t))
  {
    hide DoState, WrActions, TimedOut, TxResult, RxResult, SlaveKnows, MasterKnows, SplitDelta, News;
    var p, env, inbox := j.master, t.env, j.toMaster;
    NotCalibrating(p, env);
    if p.fsm.wrState == WR_LINK_ON {
      LinkOnStep(p, env, inbox);
    } else if Phase(j) == 0 && env.rx.RxSignaling? {
      AnswerStep(p, env);
    } else {
      HandleNothing(p, env);
      IdleMasterStep(p, env);
    }
  }

  /** Turns of a master that has measured. */
  lemma MasterRestHolds(j: Joint, t: Turn, d: Delays)
    requires Inv(j) && Allowed(j, t) && t.MasterTurn? && MasterHolds(j, d)
    requires j.master.fsm.wrState in {CALIBRATED, RESP_CALIB_REQ}
    ensures MasterHolds(Next(j, t), Measure(d, j, t))
  {
    hide DoState, WrActions, TimedOut, TxResult, RxResult, SlaveKnows, MasterKnows, SplitDelta, News, Coupled;
    NotCalibrating(j.master, t.env);
    if j.master.fsm.wrState == CALIBRATED {
      CalibratedStep(j.master, t.env, j.toMaster);
    } else {
      QuietResponse(j.master, t.env, j.toMaster);
    }
  }

  lemma MasterTurnHolds(j: Joint, t: Turn, d: Delays)
    requires Inv(j) && Allowed(j, t) && t.MasterTurn? && MasterHolds(j, d)
    ensures MasterHolds(Next(j, t), Measure(d, j, t))
  {
    hide DoState, WrActions, TimedOut, TxResult, RxResult, SlaveKnows, MasterKnows, SplitDelta, News;
    var p, env, inbox := j.master, t.env, j.toMaster;
    match p.fsm.wrState
    case M_LOCK =>
      NotCalibrating(p, env);
      MLockStep(p, env, inbox);
    case CALIBRATION => QuietCalibration(p, env, inbox, d.masterTx, d.masterRx);
    case CALIBRATED => MasterRestHolds(j, t, d);
    case RESP_CALIB_REQ => MasterRestHolds(j, t, d);
    case _ => MasterEndsHold(j, t, d);
  }

  lemma OtherTurnHolds(j: Joint, t: Turn, d: Delays)
    requires Inv(j) && Allowed(j, t) && SlaveHolds(j, d) && MasterHolds(j, d)
    ensures t.SlaveTurn? ==> MasterHolds(Next(j, t), Measure(d, j, t))
    ensures t.MasterTurn? ==> SlaveHolds(Next(j, t), Measure(d, j, t))
  {
    hide DoState, WrActions, TimedOut, TxResult, RxResult, SlaveKnows, MasterKnows, SplitDelta, News;
    TurnAdvances(j, t);
    if t.SlaveTurn? && Phase(j) == 0 {
      PresentStep(j.slave, t.env, j.toSlave);
    }
  }

  lemma {:induction false} RunHolds(run: seq<Joint>, turns: seq<Turn>, n: nat)
    requires IsFifoRun(run, turns) && n <= |turns|
    ensures |turns| < |run|
    ensures var d := MeasuredBy(run, turns, n); Inv(run[n]) && SlaveHolds(run[n], d) && MasterHolds(run[n], d)
  {
    hide Allowed, Next, Measure, SlaveHolds, MasterHolds;
    if n == 0 {
      StartHolds(run[0]);
    } else {
      RunHolds(run, turns, n - 1);
      var j, t, d := run[n - 1], turns[n - 1], MeasuredBy(run, turns, n - 1);
      TurnAdvances(j, t);
      OtherTurnHolds(j, t, d);
      if t.SlaveTurn? {
        SlaveTurnHolds(j, t, d);
      } else {
        MasterTurnHolds(j, t, d);
      }
    }
  }

  lemma StartHolds(j: Joint)
    requires Start(j)
    ensures Inv(j) && var d := Delays(None, None, None, None); SlaveHolds(j, d) && MasterHolds(j, d)
  {
  }

  /** Main result: when the slave of a setup is done, both nodes have measured both their delays, and what
      the servo of either node reads back as delays of the other are the last values measured there, each in
      its own direction, if they are below 2^31 ps. */
  lemma MeasuredDelaysArrive(run: seq<Joint>, turns: seq<Turn>)
    requires IsFifoRun(run, turns) && run[|turns|].slave.fsm.wrState in {WR_LINK_ON, IDLE}
    ensures var d, last := MeasuredBy(run, turns, |turns|), run[|turns|];
            && d.slaveTx.Some? && d.slaveRx.Some? && d.masterTx.Some? && d.masterRx.Some?
            && (Servo.JoinDelta(last.slave.cal.otherDeltaTx) == d.masterTx.value <==> d.masterTx.value < 0x8000_0000)
            && (Servo.JoinDelta(last.slave.cal.otherDeltaRx) == d.masterRx.value <==> d.masterRx.value < 0x8000_0000)
            && (Servo.JoinDelta(last.master.cal.otherDeltaTx) == d.slaveTx.value <==> d.slaveTx.value < 0x8000_0000)
            && (Servo.JoinDelta(last.master.cal.otherDeltaRx) == d.slaveRx.value <==> d.slaveRx.value < 0x8000_0000)
  {
    hide IsFifoRun, SplitDelta, Servo.JoinDelta;
    RunHolds(run, turns, |turns|);
    SetupAgrees(run, turns);
    var d := MeasuredBy(run, turns, |turns|);
    Servo.DeltaSurvives(d.masterTx.value);
    Servo.DeltaSurvives(d.masterRx.value);
    Servo.DeltaSurvives(d.slaveTx.value);
    Servo.DeltaSurvives(d.slaveRx.value);
  }
}
