/** What decisions, faults and timeouts make of a port outside of a link setup (PTPWRd/protocol.c:214-427,
    431-471, 476-710, 716-838), in terms of its own members and of what was decided or received. */
module PortEvents {
  import opened CTypes
  import opened WrFsm
  import opened WrCoupling

  /** Signaling is not what was received, and it brings no fault. */
  predicate Silent(rx: Rx) {
    rx in {RxNone, RxOther(false)}
  }

  /** What decides about the link of a port that is to be slave: it may be WR slave and its new parent may be
      WR master. */
  predicate BothWr(cfg: Config, parent: Parent) {
    cfg.wrConfig in {WR_S_ONLY, WR_M_AND_S} && parent.wrConfig in {WR_M_ONLY, WR_M_AND_S}
  }

  /** A port that is to become slave starts a link setup and says so exactly when both ends are up to it;
      otherwise it is a plain slave at once. In both cases it has the role that was decided. */
  lemma SlaveDecision(p: Port, env: Env)
    requires WellFormed(p) && p.fsm.wrState == IDLE && p.fsm.portState in {LISTENING, PASSIVE, MASTER}
    requires env.decision.Some? && env.decision.value.state == SLAVE
    ensures var q, d := Decide(p, env), env.decision.value;
            && q.fsm.role == d.role && !q.fsm.wrModeOn && q.cfg == p.cfg
            && (if BothWr(p.cfg, d.parent) then
                  && q.fsm.portState == UNCALIBRATED && q.fsm.wrState == PRESENT && q.fsm.wrMode == WrSlave
                  && q.outbox == p.outbox + (if env.signalHw.sendOk then [SlavePresentMsg] else [])
                else
                  && q.fsm.portState == SLAVE && q.fsm.wrState == IDLE && q.fsm.wrMode == NonWr
                  && q.parent == d.parent && q.outbox == p.outbox)
  {
    hide TimeoutManage;
  }

  /** Any other new state is entered as decided; a port that leaves SLAVE leaves WR mode too. */
  lemma OtherDecision(p: Port, env: Env)
    requires WellFormed(p) && p.fsm.wrState == IDLE && p.fsm.portState in {LISTENING, PASSIVE, SLAVE, MASTER}
    requires env.decision.Some? && env.decision.value.state in {LISTENING, PASSIVE, MASTER} - {p.fsm.portState}
    ensures var q, d := Decide(p, env), env.decision.value;
            && q.fsm.portState == d.state && q.fsm.role == d.role && q.parent == d.parent && q.fsm.wrState == IDLE
            && (if p.fsm.portState == SLAVE then q.fsm.wrMode == NonWr && !q.fsm.wrModeOn
                else q.fsm.wrMode == p.fsm.wrMode && q.fsm.wrModeOn == p.fsm.wrModeOn)
            && q.cal == p.cal && q.outbox == p.outbox
  {
  }

  /** The same state again changes role and parent only, except that a WR slave on a live link whose own or
      parent's WR mode is off synchronises anew: it leaves SLAVE, and with it WR, and ends as plain slave. */
  lemma SameDecision(p: Port, env: Env)
    requires WellFormed(p) && p.fsm.wrState == IDLE && p.fsm.portState in {LISTENING, PASSIVE, SLAVE, MASTER}
    requires env.decision.Some? && env.decision.value.state == p.fsm.portState
    ensures var q, d := Decide(p, env), env.decision.value;
            var again := env.linkUp && p.fsm.portState == SLAVE && p.fsm.wrMode == WrSlave
                         && !(d.parent.wrModeOn && p.fsm.wrModeOn);
            && q.fsm.portState == p.fsm.portState && q.fsm.role == d.role && q.parent == d.parent
            && q.fsm.wrState == IDLE && q.outbox == p.outbox
            && q.fsm.wrMode == (if again then NonWr else p.fsm.wrMode)
            && q.fsm.wrModeOn == (p.fsm.wrModeOn && !again)
  {
  }

  /** PRE_MASTER is never entered: a port that is told to stays where it is. */
  lemma NoPreMaster(p: Port, hw: Hw, now: uint64)
    requires WellFormed(p)
    ensures ToState(p, PRE_MASTER, hw, now).fsm.portState == p.fsm.portState
  {
  }

  /** A running link setup is never interrupted by a decision. */
  lemma NoPreemption(p: Port, env: Env)
    requires WellFormed(p) && p.fsm.wrState != IDLE
    ensures Decide(p, env) == p
  {
  }

  /** A port that no longer hears its master leaves WR and becomes master with its own clock as parent; only a
      slave-only port or clock waits for another master instead. */
  lemma AnnounceLost(p: Port, env: Env)
    requires WellFormed(p) && p.fsm.wrState == IDLE && p.fsm.portState in {LISTENING, PASSIVE, SLAVE}
    requires p.fsm.portState == LISTENING ==> p.cfg.wrConfig != WR_M_ONLY
    requires env.decision.None? && env.announceExpired && !env.sendFault && Silent(env.rx)
    ensures var q := DoState(p, env);
            && q.fsm.wrState == IDLE && q.fsm.wrMode == NonWr && !q.fsm.wrModeOn && q.outbox == p.outbox
            && (if p.cfg.wrConfig == WR_S_ONLY || p.cfg.slaveOnlyClass then
                  q.fsm.portState == LISTENING && q.fsm.role == p.fsm.role && q.parent == p.parent
                else
                  && q.fsm.portState == MASTER && q.fsm.role == NonSlave
                  && q.parent == Parent(p.cfg.wrConfig, false, p.cal.calibrated))
  {
  }

  /** Configurations that settle the state: a slave-only port or clock does not stay master, and a
      master-only port does not listen. */
  lemma ConfigSettles(p: Port, env: Env)
    requires WellFormed(p) && p.fsm.wrState == IDLE && env.decision.None? && !env.sendFault && Silent(env.rx)
    ensures p.fsm.portState == MASTER ==>
              var q := DoState(p, env);
              q == if p.cfg.wrConfig == WR_S_ONLY || p.cfg.slaveOnlyClass then p.InPtp(LISTENING) else p
    ensures p.fsm.portState == LISTENING && p.cfg.wrConfig == WR_M_ONLY ==>
              var q := DoState(p, env);
              && q.fsm.portState == MASTER && q.fsm.role == NonSlave
              && q.parent == Parent(WR_M_ONLY, p.fsm.wrModeOn, p.cal.calibrated)
  {
  }

  /** A port does not stay UNCALIBRATED without being WR slave: it goes on as plain slave. */
  lemma NotUncalibratedForNothing(p: Port, env: Env)
    requires WellFormed(p) && p.fsm.wrState == IDLE && p.fsm.portState == UNCALIBRATED && p.fsm.wrMode != WrSlave
    ensures DoState(p, env) == ClearMsg(p.InPtp(SLAVE))
  {
  }

  /** A fault puts a port with an idle WR FSM into FAULTY, out of WR mode if it was slave, and the next turn
      prepares it to be initialised again. A running link setup ignores it. */
  lemma FaultStops(p: Port, env: Env, later: Env)
    requires WellFormed(p) && env.decision.None? && !env.announceExpired
    requires p.fsm.portState in {PASSIVE, SLAVE, DISABLED}
    requires p.fsm.portState != DISABLED && Silent(env.rx) ==> env.sendFault
    requires p.fsm.portState == DISABLED ==> !Silent(env.rx)
    requires !env.rx.RxSignaling?
    ensures var q := DoState(p, env);
            if p.fsm.wrState != IDLE then q == p
            else && q.fsm.portState == FAULTY && q.fsm.wrState == IDLE
                 && (p.fsm.portState == SLAVE ==> q.fsm.wrMode == NonWr && !q.fsm.wrModeOn)
                 && DoState(q, later) == q.InPtp(INITIALIZING)
  {
  }

  /** A signaling message of its own is nothing to a port, and one without a WR TLV leaves the mailbox as
      it was; any other one is in the mailbox until the WR FSM takes it. */
  lemma Mailbox(p: Port, env: Env)
    requires WellFormed(p) && env.rx.RxSignaling? && p.fsm.portState != MASTER
    ensures env.rx.fromSelf || env.rx.msg.None? ==> Handle(p, env) == p
    ensures !env.rx.fromSelf && env.rx.msg.Some? ==> Handle(p, env).fsm == p.fsm.(msgId := IdOf(env.rx.msg.value))
  {
  }

  /** Only a master that may be WR master answers SLAVE_PRESENT: it sends LOCK, in the role of WR master. */
  lemma AnswersWhen(p: Port, env: Env)
    requires WellFormed(p) && p.fsm.wrState == IDLE && p.fsm.portState in {LISTENING, PASSIVE, SLAVE, MASTER, DISABLED}
    requires env.rx == RxSignaling(Some(SlavePresentMsg), false) && env.signalHw.sendOk
    ensures var q := Handle(p, env);
            if p.fsm.portState == MASTER && p.cfg.wrConfig in {WR_M_ONLY, WR_M_AND_S} then
              && q.fsm.wrState == M_LOCK && q.fsm.wrMode == WrMaster && q.outbox == p.outbox + [LockMsg]
              && q.fsm.portState == MASTER
            else q.fsm == p.fsm.(msgId := SlavePresentId) && q.outbox == p.outbox
  {
    hide TimeoutManage;
  }

  /** Outside of WR mode no signaling message leaves the port: what is sent then is empty. */
  lemma NothingOutsideWr(p: Port, m: WrMsg, sendOk: bool)
    ensures Issue(p, m, sendOk).outbox == p.outbox + (if sendOk && p.fsm.wrMode != NonWr then [m] else [])
    ensures Issue(p, m, sendOk).fsm.portState ==
            if !sendOk && p.fsm.wrState == IDLE then FAULTY else p.fsm.portState
  {
  }

  /** Initialisation forgets everything about WR: the state of a port after it is that of its configuration. */
  lemma InitForgets(p: Port, cfg: Config, env: Env)
    requires WellFormed(p)
    ensures var q, own := DoInit(p, cfg, env), !cfg.phyCalibrationRequired;
            && q.fsm == Fsm(LISTENING, IDLE, 0, NonWr, false, NonSlave, p.fsm.msgId)
            && q.parent == Parent(cfg.wrConfig, false, own)
            && q.cal == CalData(own, if own then SplitDelta(env.doHw.calTx) else ZERO_DELTA,
                                if own then SplitDelta(env.doHw.calRx) else ZERO_DELTA, 0, 0, 0, ZERO_DELTA, ZERO_DELTA)
            && q.cfg == cfg && q.outbox == p.outbox
  {
    hide SplitDelta;
  }

  /** A completed setup: the parent counts as calibrated and in WR mode, and a slave as PTP slave, a master as
      PTP master. */
  lemma LinkIsOn(p: Port, hw: Hw, now: uint64)
    requires WellFormed(p) && p.fsm.wrState != IDLE && p.fsm.wrMode != NonWr
    ensures var q := ToWrState(p, WR_LINK_ON, hw, now);
            && q.fsm.wrModeOn && q.parent == p.parent.(wrModeOn := true, calibrated := true) && q.cal == p.cal
            && q.outbox == p.outbox + (if p.fsm.wrMode == WrMaster && hw.sendOk then [WrModeOnMsg] else [])
  {
    hide TimeoutManage;
  }

  /** A setup starts without knowing its parent. */
  lemma StartForgetsParent(p: Port, s: WrState, hw: Hw, now: uint64)
    requires WellFormed(p) && p.fsm.wrState == IDLE && s in {PRESENT, M_LOCK}
    ensures ToWrState(p, s, hw, now).parent == Parent(NON_WR, false, false)
  {
    hide TimeoutManage;
  }
}
