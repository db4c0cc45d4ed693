/** The specification of the White Rabbit link-setup FSM (PTPWRd/wr_protocol.c) and of the
    PTP port FSM that hosts it (PTPWRd/protocol.c), as functions on port snapshots.
    The class in WrPort.dfy is proved to compute exactly these functions. */
module WrFsm {
  import opened CTypes
  import opened Timer

  datatype PtpState = INITIALIZING | FAULTY | DISABLED | LISTENING | PRE_MASTER
                    | MASTER | PASSIVE | UNCALIBRATED | SLAVE

  /** Main states of the WR FSM; all but IDLE own a timer. A substate WRS_X_k of the source is
      the main state X with substate number k; WRS_X itself has number 0. */
  datatype WrState = PRESENT | S_LOCK | M_LOCK | LOCKED | CALIBRATION | CALIBRATED
                   | RESP_CALIB_REQ | WR_LINK_ON | IDLE

  datatype WrMode = NonWr | WrSlave | WrMaster
  datatype WrConfig = NON_WR | WR_M_ONLY | WR_S_ONLY | WR_M_AND_S
  datatype SlaveRole = NonSlave | PrimarySlave | SecondarySlave

  /** Fixed delay in scaled picoseconds (units of 2^-16 ps), as two 32-bit halves. */
  datatype FixedDelta = FixedDelta(msb: uint32, lsb: uint32)
  const ZERO_DELTA := FixedDelta(0, 0)

  datatype WrMsg =
    | SlavePresentMsg
    | LockMsg
    | LockedMsg
    | CalibrateMsg(sendPattern: uint8, retry: uint8, period: uint32)
    | CalibratedMsg(deltaTx: FixedDelta, deltaRx: FixedDelta)
    | WrModeOnMsg
    | OtherMsg

  datatype MsgId = NullTlv | SlavePresentId | LockId | LockedId | CalibrateId | CalibratedId
                 | WrModeOnId | OtherId

  function IdOf(m: WrMsg): MsgId {
    match m
    case SlavePresentMsg => SlavePresentId
    case LockMsg => LockId
    case LockedMsg => LockedId
    case CalibrateMsg(_, _, _) => CalibrateId
    case CalibratedMsg(_, _) => CalibratedId
    case WrModeOnMsg => WrModeOnId
    case OtherMsg => OtherId
  }

  /** Data set members fixed by `doInit`. */
  datatype Config = Config(wrConfig: WrConfig, phyCalibrationRequired: bool, wrStateTimeout: int32,
                           wrStateRetry: uint8, calPeriod: uint32, calRetry: uint8,
                           slaveOnlyClass: bool, disableFallback: bool)

  datatype Fsm = Fsm(portState: PtpState, wrState: WrState, sub: nat, wrMode: WrMode, wrModeOn: bool,
                     role: SlaveRole, msgId: MsgId)

  /** This port's calibration, and what the other node said about its own. */
  datatype CalData = CalData(calibrated: bool, deltaTx: FixedDelta, deltaRx: FixedDelta,
                             otherPeriod: uint32, otherRetry: uint8, otherSendPattern: uint8,
                             otherDeltaTx: FixedDelta, otherDeltaRx: FixedDelta)

  datatype Parent = Parent(wrConfig: WrConfig, wrModeOn: bool, calibrated: bool)

  datatype WrClock = WrClock(stateCnt: uint8, timers: seq<IntervalTimer>, timeouts: seq<int32>)

  /** A port; `outbox` holds every signaling message it ever sent. */
  datatype Port = Port(cfg: Config, fsm: Fsm, cal: CalData, parent: Parent, clock: WrClock,
                       outbox: seq<WrMsg>)
  {
    function At(s: WrState, k: nat): Port {
      this.(fsm := fsm.(wrState := s, sub := k))
    }

    function InPtp(s: PtpState): Port {
      this.(fsm := fsm.(portState := s))
    }
  }

  const WR_TIMERS: nat := 8

  predicate SubstateOk(s: WrState, k: nat) {
    match s
    case S_LOCK => k <= 2
    case CALIBRATION => k <= 8
    case RESP_CALIB_REQ => k <= 3
    case _ => k == 0
  }

  ghost predicate WellFormed(p: Port) {
    |p.clock.timers| == WR_TIMERS && |p.clock.timeouts| == WR_TIMERS && SubstateOk(p.fsm.wrState, p.fsm.sub)
  }

  /** Outcomes of the hardware calls made while one part of a step runs; `sendOk` is the
      outcome of the one signaling message that part may send. */
  datatype Hw = Hw(lockEnable: bool, lockReady: bool, lockDisable: bool,
                   patternEnable: bool, patternDisable: bool,
                   txEnable: bool, txDelta: Option<uint64>, txDisable: bool,
                   rxEnable: bool, rxDelta: Option<uint64>, rxDisable: bool,
                   calTx: uint64, calRx: uint64, sendOk: bool)

  /** What one call of `handle` receives. */
  datatype Rx =
    | RxNone
    | RxError
    | RxSignaling(msg: Option<WrMsg>, fromSelf: bool)
    | RxOther(fault: bool)

  /** What `bmc` recommends, and what it wrote to the port on the way. */
  datatype Decision = Decision(state: PtpState, role: SlaveRole, parent: Parent)

  /** Everything one call of `doState` reads from outside the port. */
  datatype Env = Env(decision: Option<Decision>, linkUp: bool, rx: Rx, now: uint64,
                     announceExpired: bool, sendFault: bool,
                     doHw: Hw, enterHw: Hw, signalHw: Hw, retryHw: Hw)

  /** Index of a main state in the timer and timeout arrays. */
  function TimerIndex(s: WrState): (i: nat)
    requires s != IDLE
    ensures i < WR_TIMERS
  {
    match s
    case PRESENT => 0
    case S_LOCK => 1
    case M_LOCK => 2
    case LOCKED => 3
    case CALIBRATION => 4
    case CALIBRATED => 5
    case RESP_CALIB_REQ => 6
    case WR_LINK_ON => 7
  }

  /** The conversion of a delay in picoseconds to scaled picoseconds. */
  function SplitDelta(ps: uint64): FixedDelta {
    FixedDelta((ps / TWO16) % TWO32, (ps * TWO16) % TWO32)
  }

  function DefaultTimeouts(cfg: Config): seq<int32> {
    [1000, 10000, 10000, cfg.wrStateTimeout, cfg.wrStateTimeout, cfg.wrStateTimeout,
     cfg.wrStateTimeout, cfg.wrStateTimeout]
  }

  function FreshCalData(cfg: Config, hw: Hw): CalData {
    CalData(!cfg.phyCalibrationRequired,
            if cfg.phyCalibrationRequired then ZERO_DELTA else SplitDelta(hw.calTx),
            if cfg.phyCalibrationRequired then ZERO_DELTA else SplitDelta(hw.calRx),
            0, 0, 0, ZERO_DELTA, ZERO_DELTA)
  }

  /** `initWrData` in mode RE_INIT. */
  function ReInitWrData(p: Port, hw: Hw): Port {
    p.(fsm := p.fsm.(wrModeOn := false, wrState := IDLE, sub := 0),
       cal := FreshCalData(p.cfg, hw),
       parent := Parent(NON_WR, false, false),
       clock := p.clock.(timeouts := DefaultTimeouts(p.cfg)))
  }

  /** `initWrData` in mode INIT, which also forgets WR mode and slave role. */
  function InitWrData(p: Port, hw: Hw): Port {
    var q := ReInitWrData(p, hw);
    q.(fsm := q.fsm.(wrMode := NonWr, role := NonSlave))
  }

  function StopTimer(ts: seq<IntervalTimer>, s: WrState): (r: seq<IntervalTimer>)
    requires |ts| == WR_TIMERS
    ensures |r| == WR_TIMERS
  {
    if s == IDLE then ts else ts[TimerIndex(s) := ts[TimerIndex(s)].(interval := 0)]
  }

  function StartTimer(ts: seq<IntervalTimer>, s: WrState, timeouts: seq<int32>, now: uint64): (r: seq<IntervalTimer>)
    requires |ts| == WR_TIMERS == |timeouts|
    ensures |r| == WR_TIMERS
  {
    if s == IDLE then ts else ts[TimerIndex(s) := IntervalTimer(now, timeouts[TimerIndex(s)])]
  }

  /** `wrTimetoutManage`: count repetitions and move the running timer. */
  function TimeoutManage(c: WrClock, entering: WrState, exiting: WrState, now: uint64): WrClock
    requires |c.timers| == WR_TIMERS == |c.timeouts|
  {
    WrClock(if entering != exiting then 0 else (c.stateCnt + 1) % 256,
            StartTimer(StopTimer(c.timers, exiting), entering, c.timeouts, now),
            c.timeouts)
  }

  /** Tasks of `toState` when leaving the current PTP state. */
  function LeavePtpState(p: Port): Port {
    if p.fsm.portState == SLAVE then p.(fsm := p.fsm.(wrMode := NonWr, wrModeOn := false)) else p
  }

  /** `toState(PTP_FAULTY)`, refused while the WR FSM runs. */
  function ToFaulty(p: Port): Port {
    if p.fsm.wrState != IDLE then p else LeavePtpState(p).InPtp(FAULTY)
  }

  /** `issueWRSignalingMsg`; outside of WR mode an empty packet goes out. */
  function Issue(p: Port, m: WrMsg, sendOk: bool): Port {
    if !sendOk then ToFaulty(p)
    else if p.fsm.wrMode == NonWr then p
    else p.(outbox := p.outbox + [m])
  }

  function CalibrateMsgOf(p: Port): WrMsg {
    CalibrateMsg(if p.cal.calibrated then 0 else 1, p.cfg.calRetry, p.cfg.calPeriod)
  }

  function CalibratedMsgOf(p: Port): WrMsg {
    CalibratedMsg(p.cal.deltaTx, p.cal.deltaRx)
  }

  /** Timeout of a calibration state: the announced period when there is one. */
  function CalTimeout(period: uint32, cfg: Config): int32 {
    if 0 < period then ToInt32(period) else cfg.wrStateTimeout
  }

  function WithTimeout(p: Port, s: WrState, t: int32): Port
    requires WellFormed(p) && s != IDLE
  {
    p.(clock := p.clock.(timeouts := p.clock.timeouts[TimerIndex(s) := t]))
  }

  /** Substate in which CALIBRATION is entered. */
  function FirstCalSub(calibrated: bool, hw: Hw): nat {
    if calibrated then 2 else if !hw.patternEnable then 0 else if !hw.txEnable then 1 else 2
  }

  /** Tasks of `toWRState` when entering a main state. */
  function EnterWrState(p: Port, s: WrState, hw: Hw): (q: Port)
    requires WellFormed(p)
    ensures WellFormed(q)
  {
    match s
    case IDLE => p.At(IDLE, 0)
    case PRESENT => Issue(p, SlavePresentMsg, hw.sendOk).At(PRESENT, 0)
    case S_LOCK => if p.fsm.role == NonSlave then p else p.At(S_LOCK, if hw.lockEnable then 1 else 0)
    case LOCKED => Issue(p, LockedMsg, hw.sendOk).At(LOCKED, 0)
    case M_LOCK => Issue(p, LockMsg, hw.sendOk).At(M_LOCK, 0)
    case CALIBRATION =>
      WithTimeout(Issue(p, CalibrateMsgOf(p), hw.sendOk), CALIBRATION, CalTimeout(p.cfg.calPeriod, p.cfg))
        .At(CALIBRATION, FirstCalSub(p.cal.calibrated, hw))
    case CALIBRATED => p.At(CALIBRATED, 0)
    case RESP_CALIB_REQ =>
      if p.cal.otherSendPattern == 1 then
        WithTimeout(p, RESP_CALIB_REQ, CalTimeout(p.cal.otherPeriod, p.cfg))
          .At(RESP_CALIB_REQ, if hw.patternEnable then 1 else 0)
      else p.At(RESP_CALIB_REQ, 1)
    case WR_LINK_ON =>
      var on := p.(fsm := p.fsm.(wrModeOn := true));
      var told := if on.fsm.wrMode == WrMaster then Issue(on, WrModeOnMsg, hw.sendOk) else on;
      told.(parent := told.parent.(wrModeOn := true, calibrated := true)).At(WR_LINK_ON, 0)
  }

  /** `toWRState`. */
  function ToWrState(p: Port, entering: WrState, hw: Hw, now: uint64): (q: Port)
    requires WellFormed(p)
    ensures WellFormed(q)
  {
    var left := if p.fsm.wrState == IDLE then ReInitWrData(p, hw) else p;
    var entered := EnterWrState(left, entering, hw);
    entered.(clock := TimeoutManage(entered.clock, entering, p.fsm.wrState, now))
  }

  /** A port that may be slave on a link whose other end may be master. */
  predicate WrSlaveCandidate(p: Port) {
    && p.fsm.wrMode == WrSlave
    && p.cfg.wrConfig in {WR_S_ONLY, WR_M_AND_S}
    && p.parent.wrConfig in {WR_M_ONLY, WR_M_AND_S}
  }

  /** `toState`. */
  function ToState(p: Port, s: PtpState, hw: Hw, now: uint64): (q: Port)
    requires WellFormed(p)
    ensures WellFormed(q)
  {
    if p.fsm.wrState != IDLE then p
    else
      var left := LeavePtpState(p);
      match s
      case PRE_MASTER => left
      case UNCALIBRATED =>
        if !WrSlaveCandidate(left) then left.(fsm := left.fsm.(wrMode := NonWr, portState := SLAVE))
        else if left.parent.wrModeOn && left.fsm.wrModeOn then left.InPtp(SLAVE)
        else ToWrState(left, PRESENT, hw, now).InPtp(UNCALIBRATED)
      case _ => left.InPtp(s)
  }

  /** `msgUnpackWRSignalingMsg`: what a well-formed signaling message leaves in the port. */
  function Accept(p: Port, m: WrMsg): Port {
    var q := p.(fsm := p.fsm.(msgId := IdOf(m)));
    match m
    case CalibrateMsg(pattern, retry, period) =>
      q.(cal := q.cal.(otherSendPattern := pattern, otherRetry := retry, otherPeriod := period))
    case CalibratedMsg(tx, rx) => q.(cal := q.cal.(otherDeltaTx := tx, otherDeltaRx := rx))
    case _ => q
  }

  /** A master-capable port that is PTP master and has SLAVE_PRESENT in its mailbox. */
  predicate AnswersSlavePresent(p: Port) {
    && p.fsm.portState == MASTER
    && p.fsm.msgId == SlavePresentId
    && p.cfg.wrConfig in {WR_M_ONLY, WR_M_AND_S}
  }

  /** `handle`; a signaling message that carries no valid WR TLV leaves the mailbox as it was. */
  function Handle(p: Port, env: Env): (q: Port)
    requires WellFormed(p)
    ensures WellFormed(q)
  {
    match env.rx
    case RxNone => p
    case RxError => ToFaulty(p)
    case RxOther(fault) => if fault then ToFaulty(p) else p
    case RxSignaling(msg, fromSelf) =>
      if fromSelf then p
      else
        var q := if msg.Some? then Accept(p, msg.value) else p;
        if AnswersSlavePresent(q) then
          ToWrState(q.(fsm := q.fsm.(wrMode := WrMaster)), M_LOCK, env.signalHw, env.now)
        else q
  }

  /** Substate reached by S_LOCK: each hardware success moves one substate on. */
  function LockProgress(k: nat, hw: Hw): (r: nat)
    requires k <= 2
    ensures k <= r <= 2
    decreases 2 - k
  {
    if (k == 0 && hw.lockEnable) || (k == 1 && hw.lockReady) then LockProgress(k + 1, hw) else k
  }

  /** The hardware call of calibration substate `k` succeeds. */
  predicate CalAccepts(k: nat, hw: Hw) {
    match k
    case 0 => hw.patternEnable
    case 1 => hw.txEnable
    case 2 => hw.txDelta.Some?
    case 3 => hw.txDisable
    case 4 => hw.patternDisable
    case 5 => hw.rxEnable
    case 6 => hw.rxDelta.Some?
    case 7 => hw.rxDisable
    case _ => false
  }

  /** Substate in which a run of calibration substates from `k` ends. */
  function CalProgress(k: nat, hw: Hw): (r: nat)
    requires k <= 8
    ensures k <= r <= 8
    decreases 8 - k
  {
    if CalAccepts(k, hw) then CalProgress(k + 1, hw) else k
  }

  /** The two polls that end a measurement store its result. */
  function Measured(c: CalData, from: nat, to: nat, hw: Hw): CalData {
    c.(deltaTx := if from <= 2 < to && hw.txDelta.Some? then SplitDelta(hw.txDelta.value) else c.deltaTx,
       deltaRx := if from <= 6 < to && hw.rxDelta.Some? then SplitDelta(hw.rxDelta.value) else c.deltaRx)
  }

  /** The calibration main state: when substate 8 is reached, report the deltas and move on. */
  function DoCalibration(p: Port, env: Env): (q: Port)
    requires WellFormed(p) && p.fsm.wrState == CALIBRATION
    ensures WellFormed(q)
  {
    var k := CalProgress(p.fsm.sub, env.doHw);
    var q := p.At(CALIBRATION, k).(cal := Measured(p.cal, p.fsm.sub, k, env.doHw));
    if k < 8 then q
    else
      var r := ToWrState(Issue(q, CalibratedMsgOf(q), env.doHw.sendOk), CALIBRATED, env.enterHw, env.now);
      r.(cal := r.cal.(calibrated := true))
  }

  /** Leaving RESP_CALIB_REQ. */
  function RespDone(p: Port, env: Env): (q: Port)
    requires WellFormed(p)
    ensures WellFormed(q)
  {
    match p.fsm.wrMode
    case WrMaster => ToWrState(p, WR_LINK_ON, env.enterHw, env.now)
    case WrSlave => ToWrState(p, CALIBRATION, env.enterHw, env.now)
    case NonWr => ToWrState(p, IDLE, env.enterHw, env.now)
  }

  /** Substates 2 and 3 of RESP_CALIB_REQ: switch the pattern off, then leave. */
  function RespFinish(p: Port, env: Env): (q: Port)
    requires WellFormed(p) && p.fsm.wrState == RESP_CALIB_REQ && 2 <= p.fsm.sub
    ensures WellFormed(q)
  {
    if p.fsm.sub == 2 && !env.doHw.patternDisable then p else RespDone(p.At(RESP_CALIB_REQ, 3), env)
  }

  /** Substate 1 of RESP_CALIB_REQ: wait for CALIBRATED. */
  function RespAwait(p: Port, env: Env): (q: Port)
    requires WellFormed(p) && p.fsm.wrState == RESP_CALIB_REQ
    ensures WellFormed(q)
  {
    var q := Handle(p, env);
    if q.fsm.msgId != CalibratedId then q
    else RespFinish(q.At(RESP_CALIB_REQ, if q.cal.otherSendPattern == 1 then 2 else 3), env)
  }

  function DoRespCalibReq(p: Port, env: Env): (q: Port)
    requires WellFormed(p) && p.fsm.wrState == RESP_CALIB_REQ
    ensures WellFormed(q)
  {
    match p.fsm.sub
    case 0 => if env.doHw.patternEnable then RespAwait(p.At(RESP_CALIB_REQ, 1), env) else p
    case 1 => RespAwait(p, env)
    case _ => RespFinish(p, env)
  }

  function DoSLock(p: Port, env: Env): (q: Port)
    requires WellFormed(p) && p.fsm.wrState == S_LOCK
    ensures WellFormed(q)
  {
    if p.fsm.role == NonSlave then p
    else
      var q := p.At(S_LOCK, LockProgress(p.fsm.sub, env.doHw));
      if q.fsm.sub == 2 && env.doHw.lockDisable then ToWrState(q, LOCKED, env.enterHw, env.now) else q
  }

  function DoPresent(p: Port, env: Env): (q: Port)
    requires WellFormed(p)
    ensures WellFormed(q)
  {
    var q := Handle(p, env);
    if q.fsm.msgId != LockId then q
    else
      var r := ToWrState(q, S_LOCK, env.enterHw, env.now);
      r.(fsm := r.fsm.(msgId := NullTlv))
  }

  function DoMLock(p: Port, env: Env): (q: Port)
    requires WellFormed(p)
    ensures WellFormed(q)
  {
    var q := Handle(p, env);
    if q.fsm.msgId == LockedId then ToWrState(q, CALIBRATION, env.enterHw, env.now) else q
  }

  function DoLocked(p: Port, env: Env): (q: Port)
    requires WellFormed(p)
    ensures WellFormed(q)
  {
    var q := Handle(p, env);
    if q.fsm.msgId == CalibrateId then ToWrState(q, RESP_CALIB_REQ, env.enterHw, env.now) else q
  }

  function DoCalibrated(p: Port, env: Env): (q: Port)
    requires WellFormed(p)
    ensures WellFormed(q)
  {
    var q := Handle(p, env);
    if q.fsm.msgId == CalibrateId && q.fsm.wrMode == WrMaster then
      ToWrState(q, RESP_CALIB_REQ, env.enterHw, env.now)
    else if q.fsm.msgId == WrModeOnId && q.fsm.wrMode == WrSlave then
      ToWrState(q, WR_LINK_ON, env.enterHw, env.now)
    else q
  }

  function DoLinkOn(p: Port, env: Env): (q: Port)
    requires WellFormed(p)
    ensures WellFormed(q)
  {
    var q := ToWrState(p, IDLE, env.enterHw, env.now);
    match q.fsm.wrMode
    case WrSlave => ToState(q, SLAVE, env.retryHw, env.now)
    case WrMaster => ToState(q, MASTER, env.retryHw, env.now)
    case NonWr => q
  }

  /** The big switch of `doWRState`, before timeouts are looked at. */
  function WrActions(p: Port, env: Env): (q: Port)
    requires WellFormed(p)
    ensures WellFormed(q)
  {
    match p.fsm.wrState
    case IDLE => p
    case PRESENT => DoPresent(p, env)
    case S_LOCK => DoSLock(p, env)
    case M_LOCK => DoMLock(p, env)
    case LOCKED => DoLocked(p, env)
    case CALIBRATION => DoCalibration(p, env)
    case CALIBRATED => DoCalibrated(p, env)
    case RESP_CALIB_REQ => DoRespCalibReq(p, env)
    case WR_LINK_ON => DoLinkOn(p, env)
  }

  /** How often a main state may be repeated. */
  function RetryBudget(p: Port): uint8 {
    if p.fsm.wrState == CALIBRATION && 0 < p.cfg.calRetry then p.cfg.calRetry
    else if p.fsm.wrState == RESP_CALIB_REQ && 0 < p.cal.otherRetry then p.cal.otherRetry
    else p.cfg.wrStateRetry
  }

  /** The timer of the current main state has run out. */
  predicate TimedOut(p: Port, now: uint64)
    requires WellFormed(p)
  {
    p.fsm.wrState != IDLE && IsExpired(p.clock.timers[TimerIndex(p.fsm.wrState)], now)
  }

  /** The port after the timer of its main state was found expired. */
  function PolledPort(p: Port, now: uint64): (q: Port)
    requires WellFormed(p) && p.fsm.wrState != IDLE
    ensures WellFormed(q)
  {
    var i := TimerIndex(p.fsm.wrState);
    p.(clock := p.clock.(timers := p.clock.timers[i := Polled(p.clock.timers[i], now)]))
  }

  /** Give up on White Rabbit. */
  function Abandon(p: Port, env: Env): (q: Port)
    requires WellFormed(p)
    ensures WellFormed(q)
  {
    var idle := ToWrState(p.(fsm := p.fsm.(wrModeOn := false)), IDLE, env.retryHw, env.now);
    var next := if idle.cfg.disableFallback then DISABLED
                else if p.fsm.wrMode == WrMaster then MASTER else SLAVE;
    InitWrData(ToState(idle, next, env.retryHw, env.now), env.retryHw)
  }

  /** `wrTimerExpired` for the current main state. */
  function WrTimeout(p: Port, env: Env): (q: Port)
    requires WellFormed(p)
    ensures WellFormed(q)
  {
    if !TimedOut(p, env.now) then p
    else
      var polled := PolledPort(p, env.now);
      if p.clock.stateCnt < RetryBudget(p) then ToWrState(polled, p.fsm.wrState, env.retryHw, env.now)
      else Abandon(polled, env)
  }

  /** `doWRState`. */
  function DoWrState(p: Port, env: Env): (q: Port)
    requires WellFormed(p)
    ensures WellFormed(q)
  {
    WrTimeout(WrActions(p, env), env)
  }

  /** `m1`, as far as it touches WR members. */
  function BecomeMaster(p: Port): Port {
    p.(parent := Parent(p.cfg.wrConfig, p.fsm.wrModeOn, p.cal.calibrated), fsm := p.fsm.(role := NonSlave))
  }

  /** First switch of `doState`: the state decision event. */
  function Decide(p: Port, env: Env): (q: Port)
    requires WellFormed(p)
    ensures WellFormed(q)
  {
    if p.fsm.portState !in {LISTENING, PASSIVE, SLAVE, MASTER} || env.decision.None? || p.fsm.wrState != IDLE then p
    else
      var d := env.decision.value;
      var q := p.(fsm := p.fsm.(role := d.role), parent := d.parent);
      if d.state != p.fsm.portState then
        if d.state == SLAVE then
          ToState(q.(fsm := q.fsm.(wrMode := WrSlave, wrModeOn := false)), UNCALIBRATED, env.signalHw, env.now)
        else ToState(q, d.state, env.signalHw, env.now)
      else if && env.linkUp && q.fsm.portState == SLAVE && q.fsm.wrMode == WrSlave
              && (!q.parent.wrModeOn || !q.fsm.wrModeOn) then
        ToState(q, UNCALIBRATED, env.signalHw, env.now)
      else q
  }

  /** An announce receipt timeout. */
  function AnnounceTimeout(p: Port, env: Env): (q: Port)
    requires WellFormed(p)
    ensures WellFormed(q)
  {
    var reset := p.(fsm := p.fsm.(wrMode := NonWr, wrModeOn := false));
    if reset.cfg.wrConfig != WR_S_ONLY && !reset.cfg.slaveOnlyClass then
      ToState(BecomeMaster(reset), MASTER, env.retryHw, env.now)
    else if reset.fsm.portState != LISTENING then ToState(reset, LISTENING, env.retryHw, env.now)
    else reset
  }

  /** LISTENING, PASSIVE and SLAVE: receive, then the announce and delay-request timers. */
  function DoListening(p: Port, env: Env): (q: Port)
    requires WellFormed(p)
    ensures WellFormed(q)
  {
    var p1 := Handle(p, env);
    var p2 := if env.announceExpired then AnnounceTimeout(p1, env) else p1;
    if env.sendFault then ToFaulty(p2) else p2
  }

  /** MASTER: run the WR FSM if it is active, else receive and send. */
  function DoMaster(p: Port, env: Env): (q: Port)
    requires WellFormed(p)
    ensures WellFormed(q)
  {
    if p.fsm.wrMode == WrMaster && p.fsm.wrState != IDLE then ClearMsg(DoWrState(p, env))
    else
      var p1 := Handle(p, env);
      var p2 := if env.sendFault then ToFaulty(p1) else p1;
      if p2.cfg.wrConfig == WR_S_ONLY || p2.cfg.slaveOnlyClass then ToState(p2, LISTENING, env.retryHw, env.now)
      else p2
  }

  function ClearMsg(p: Port): Port {
    p.(fsm := p.fsm.(msgId := NullTlv))
  }

  /** Second switch of `doState`. */
  function Act(p: Port, env: Env): (q: Port)
    requires WellFormed(p)
    ensures WellFormed(q)
  {
    match p.fsm.portState
    case FAULTY => ToState(p, INITIALIZING, env.retryHw, env.now)
    case UNCALIBRATED =>
      ClearMsg(if p.fsm.wrMode == WrSlave then DoWrState(p, env) else ToState(p, SLAVE, env.retryHw, env.now))
    case LISTENING =>
      if p.cfg.wrConfig == WR_M_ONLY then ToState(BecomeMaster(p), MASTER, env.retryHw, env.now)
      else DoListening(p, env)
    case PASSIVE => DoListening(p, env)
    case SLAVE => DoListening(p, env)
    case MASTER => DoMaster(p, env)
    case DISABLED => Handle(p, env)
    case _ => p
  }

  /** `doState`. */
  function DoState(p: Port, env: Env): (q: Port)
    requires WellFormed(p)
    ensures WellFormed(q)
  {
    Act(Decide(p, env), env)
  }

  /** `doInit` with data set `cfg` (wrConfig already auto-detected). */
  function DoInit(p: Port, cfg: Config, env: Env): (q: Port)
    requires WellFormed(p)
    ensures WellFormed(q)
  {
    ToState(BecomeMaster(InitWrData(p.(cfg := cfg), env.doHw)), LISTENING, env.enterHw, env.now)
  }
}
