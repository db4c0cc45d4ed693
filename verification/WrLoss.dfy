/** What a single lost message does to a WR link setup (PTPWRd/wr_protocol.c:160-231, 511-597, 835-897):
    repeating CALIBRATED or RESP_CALIB_REQ sends nothing and a master leaves WR_LINK_ON at once, so a
    lost CALIBRATED or WR_MODE_ON is never sent again, whatever the retry budgets. */
module WrLoss {
  import opened CTypes
  import opened WrFsm
  import opened WrCoupling
  import F = WrFifoLink

  // ---------- one node ----------

  /** The node can only go on when it hears `id`. */
  predicate Awaits(p: Port, id: MsgId) {
    || (p.fsm.wrState == RESP_CALIB_REQ && p.fsm.sub <= 1 && id == CalibratedId)
    || (p.fsm.wrState == CALIBRATED && p.fsm.wrMode == WrMaster && id == CalibrateId)
    || (p.fsm.wrState == CALIBRATED && p.fsm.wrMode == WrSlave && id == WrModeOnId)
  }

  ghost predicate Waits(p: Port, id: MsgId) {
    WellFormed(p) && Coupled(p) && Awaits(p, id) && p.fsm.msgId == NullTlv
  }

  predicate Brings(rx: Rx, id: MsgId) {
    rx.RxSignaling? && !rx.fromSelf && rx.msg.Some? && IdOf(rx.msg.value) == id
  }

  /** White Rabbit was given up: the FSM is idle and the port not in WR mode. */
  predicate GaveUp(p: Port) {
    p.fsm.wrState == IDLE && !p.fsm.wrModeOn && p.fsm.wrMode == NonWr
  }

  /** Neither the awaited message nor, at a master, SLAVE_PRESENT. */
  predicate Useless(p: Port, rx: Rx, id: MsgId) {
    !Brings(rx, id) && (p.fsm.wrMode == WrMaster ==> !Brings(rx, SlavePresentId))
  }

  lemma UselessHandle(p: Port, env: Env, id: MsgId)
    requires Waits(p, id) && Useless(p, env.rx, id)
    ensures var q := Handle(p, env);
            && q.fsm == p.fsm.(msgId := q.fsm.msgId) && q.fsm.msgId != id
            && q.outbox == p.outbox && q.clock == p.clock && WellFormed(q)
  {
    assert ToFaulty(p) == p;
  }

  /** A main state that waits is left by nothing else. */
  lemma WaitActs(p: Port, env: Env, id: MsgId)
    requires Waits(p, id) && Useless(p, env.rx, id)
    ensures var q := WrActions(p, env);
            && WellFormed(q) && Coupled(q) && Awaits(q, id) && q.outbox == p.outbox && q.fsm.wrMode == p.fsm.wrMode
  {
    hide Handle;
    UselessHandle(p, env, id);
    if p.fsm.wrState == RESP_CALIB_REQ {
      UselessHandle(p.At(RESP_CALIB_REQ, 1), env, id);
      assert p.fsm.sub == 1 ==> p.At(RESP_CALIB_REQ, 1) == p;
    }
  }

  /** Repeating it sends nothing. */
  lemma RepeatIsSilent(p: Port, hw: Hw, now: uint64, id: MsgId)
    requires WellFormed(p) && Coupled(p) && Awaits(p, id)
    ensures var q := ToWrState(p, p.fsm.wrState, hw, now);
            WellFormed(q) && Coupled(q) && Awaits(q, id) && q.outbox == p.outbox
  {
  }

  lemma AbandonGivesUp(p: Port, env: Env)
    requires WellFormed(p)
    ensures var q := Abandon(p, env); GaveUp(q) && q.outbox == p.outbox && WellFormed(q)
  {
    hide TimeoutManage;
  }

  lemma WaitTimesOut(p: Port, env: Env, id: MsgId)
    requires WellFormed(p) && Coupled(p) && Awaits(p, id)
    ensures var q := WrTimeout(p, env);
            WellFormed(q) && q.outbox == p.outbox && ((Coupled(q) && Awaits(q, id)) || GaveUp(q))
  {
    hide ToWrState, Abandon, RetryBudget;
    if TimedOut(p, env.now) {
      var r := PolledPort(p, env.now);
      RepeatIsSilent(r, env.retryHw, env.now, id);
      AbandonGivesUp(r, env);
    }
  }

  /** Main result for one node: without the awaited message it waits on, silently, or gives up. */
  lemma WaitStep(p: Port, env: Env, id: MsgId)
    requires Waits(p, id) && Useless(p, env.rx, id)
    ensures var q := DoState(p, env); q.outbox == p.outbox && (Waits(q, id) || GaveUp(q))
  {
    hide WrActions, WrTimeout, DoState;
    CoupledTurn(p, env);
    WaitActs(p, env, id);
    WaitTimesOut(WrActions(p, env), env, id);
  }

  // ---------- a master that is done ----------

  /** Idle, leaving WR_LINK_ON, or trying to become WR slave itself. */
  ghost predicate Over(p: Port) {
    && WellFormed(p) && p.fsm.msgId !in {LockId, SlavePresentId}
    && match p.fsm.wrState
       case IDLE => true
       case WR_LINK_ON => p.fsm.portState == MASTER && p.fsm.wrMode == WrMaster
       case PRESENT => p.fsm.portState == UNCALIBRATED && p.fsm.wrMode == WrSlave
       case _ => false
  }

  /** All that was sent in between is SLAVE_PRESENT. */
  ghost predicate OnlyPresents(p: Port, q: Port) {
    p.outbox <= q.outbox && forall i :: |p.outbox| <= i < |q.outbox| ==> q.outbox[i] == SlavePresentMsg
  }

  predicate BringsNothing(rx: Rx) {
    !(rx.RxSignaling? && !rx.fromSelf && rx.msg.Some?)
  }

  lemma OverEnters(p: Port, s: PtpState, hw: Hw, now: uint64)
    requires Over(p) && p.fsm.wrState == IDLE
    ensures var q := ToState(p, s, hw, now); Over(q) && OnlyPresents(p, q)
  {
    hide TimeoutManage;
  }

  lemma OverDecides(p: Port, env: Env)
    requires Over(p)
    ensures var q := Decide(p, env); Over(q) && OnlyPresents(p, q)
  {
    hide ToState;
    if p.fsm.portState in {LISTENING, PASSIVE, SLAVE, MASTER} && env.decision.Some? && p.fsm.wrState == IDLE {
      var d := env.decision.value;
      var q := p.(fsm := p.fsm.(role := d.role), parent := d.parent);
      OverEnters(q.(fsm := q.fsm.(wrMode := WrSlave, wrModeOn := false)), UNCALIBRATED, env.signalHw, env.now);
      OverEnters(q, d.state, env.signalHw, env.now);
      OverEnters(q, UNCALIBRATED, env.signalHw, env.now);
    }
  }

  lemma OverHandles(p: Port, env: Env)
    requires Over(p) && BringsNothing(env.rx)
    ensures var q := Handle(p, env); Over(q) && q.outbox == p.outbox && q.fsm.wrState == p.fsm.wrState
    ensures p.fsm.wrState != IDLE ==> Handle(p, env) == p
  {
    hide ToWrState;
    assert p.fsm.wrState != IDLE ==> ToFaulty(p) == p;
  }

  /** The WR FSM of such a node. */
  lemma OverRuns(p: Port, env: Env)
    requires Over(p) && p.fsm.wrState != IDLE && BringsNothing(env.rx)
    ensures var q := DoWrState(p, env); Over(q) && OnlyPresents(p, q)
  {
    hide Handle, Abandon, RetryBudget;
    OverHandles(p, env);
    if p.fsm.wrState == PRESENT {
      assert WrActions(p, env) == p;
      if TimedOut(p, env.now) {
        var r := PolledPort(p, env.now);
        OverRepeats(r, env.retryHw, env.now);
        AbandonGivesUp(r, env);
        AbandonKeepsMail(r, env);
      }
    } else {
      LinkOnEnds(p, env);
    }
  }

  lemma OverRepeats(p: Port, hw: Hw, now: uint64)
    requires Over(p) && p.fsm.wrState == PRESENT
    ensures var q := ToWrState(p, PRESENT, hw, now); Over(q) && OnlyPresents(p, q)
  {
    assert ToFaulty(p) == p;
  }

  lemma AbandonKeepsMail(p: Port, env: Env)
    requires WellFormed(p)
    ensures Abandon(p, env).fsm.msgId == p.fsm.msgId
  {
    hide TimeoutManage;
  }

  /** WR_LINK_ON is left in the very step that runs it, before its timer is looked at. */
  lemma LinkOnEnds(p: Port, env: Env)
    requires Over(p) && p.fsm.wrState == WR_LINK_ON
    ensures var q := DoWrState(p, env); Over(q) && q.outbox == p.outbox && q.fsm.wrState == IDLE
  {
    hide TimeoutManage;
    var q := ToWrState(p, IDLE, env.enterHw, env.now);
    assert q.fsm.wrState == IDLE && q.outbox == p.outbox;
    assert WrActions(p, env).fsm.wrState == IDLE;
  }

  lemma OverActs(d: Port, env: Env)
    requires Over(d) && BringsNothing(env.rx)
    ensures var q := Act(d, env); Over(q) && OnlyPresents(d, q)
  {
    hide ToState, Handle, DoWrState, AnnounceTimeout;
    if d.fsm.wrState != IDLE {
      OverRuns(d, env);
    } else {
      OverHandles(d, env);
      var h := Handle(d, env);
      OverTimes(h, env);
      OverEnters(d, INITIALIZING, env.retryHw, env.now);
      OverEnters(d, SLAVE, env.retryHw, env.now);
      OverEnters(BecomeMaster(d), MASTER, env.retryHw, env.now);
      OverEnters(if env.sendFault then ToFaulty(h) else h, LISTENING, env.retryHw, env.now);
      IdleRunsNothing(d, env);
    }
  }

  lemma IdleRunsNothing(d: Port, env: Env)
    requires WellFormed(d) && d.fsm.wrState == IDLE
    ensures DoWrState(d, env) == d
  {
  }

  lemma OverTimes(h: Port, env: Env)
    requires Over(h) && h.fsm.wrState == IDLE
    ensures var t := if env.announceExpired then AnnounceTimeout(h, env) else h;
            Over(t) && OnlyPresents(h, t) && Over(ToFaulty(t)) && OnlyPresents(h, ToFaulty(t))
  {
    hide ToState;
    var reset := h.(fsm := h.fsm.(wrMode := NonWr, wrModeOn := false));
    OverEnters(BecomeMaster(reset), MASTER, env.retryHw, env.now);
    OverEnters(reset, LISTENING, env.retryHw, env.now);
  }

  /** A node that is done and hears nothing sends nothing but SLAVE_PRESENT, whatever it decides. */
  lemma OverStep(p: Port, env: Env)
    requires Over(p) && BringsNothing(env.rx)
    ensures var q := DoState(p, env); Over(q) && OnlyPresents(p, q)
  {
    hide Decide, Act;
    OverDecides(p, env);
    OverActs(Decide(p, env), env);
  }

  // ---------- two nodes ----------

  /** The slave and the master of a setup, and the messages that may still arrive at each, any number
      of times or never. */
  datatype Pair = Pair(slave: Port, master: Port, toSlave: set<WrMsg>, toMaster: set<WrMsg>)

  datatype Event = SlaveTurn(env: Env) | MasterTurn(env: Env)

  predicate Delivers(rx: Rx, air: set<WrMsg>) {
    rx.RxSignaling? && !rx.fromSelf && rx.msg.Some? ==> rx.msg.value in air
  }

  /** What a step put on the air. */
  ghost predicate Sent(p: Port, q: Port, air: set<WrMsg>, air': set<WrMsg>) {
    forall m :: m in air' ==> m in air || exists i :: |p.outbox| <= i < |q.outbox| && q.outbox[i] == m
  }

  ghost predicate Next(a: Pair, e: Event, b: Pair)
    requires WellFormed(a.slave) && WellFormed(a.master)
  {
    match e
    case SlaveTurn(env) =>
      && Delivers(env.rx, a.toSlave) && b.slave == DoState(a.slave, env) && b.master == a.master
      && b.toSlave <= a.toSlave && Sent(a.slave, b.slave, a.toMaster, b.toMaster)
    case MasterTurn(env) =>
      && Delivers(env.rx, a.toMaster) && b.master == DoState(a.master, env) && b.slave == a.slave
      && b.toMaster <= a.toMaster && Sent(a.master, b.master, a.toSlave, b.toSlave)
  }

  predicate NoneOf(air: set<WrMsg>, ids: set<MsgId>) {
    forall m :: m in air ==> IdOf(m) !in ids
  }

  /** Each node waits for a message that is not on the air, or only the slave waits and the master is
      done and hears nothing. */
  ghost predicate Dead(s: Pair, id: MsgId) {
    && Waits(s.slave, id) && s.slave.fsm.wrMode == WrSlave && NoneOf(s.toSlave, {id})
    && ((exists mid :: Waits(s.master, mid) && NoneOf(s.toMaster, {mid, SlavePresentId}))
        || (id == WrModeOnId && Over(s.master) && s.toMaster == {}))
  }

  lemma DeadSlaveTurn(a: Pair, e: Event, b: Pair, id: MsgId)
    requires Dead(a, id) && Next(a, e, b) && e.SlaveTurn?
    ensures Dead(b, id) || (a.slave.fsm.wrState != IDLE && GaveUp(b.slave))
  {
    hide DoState, Waits, Over, Coupled;
    WaitsMode(a.slave, id);
    WaitStep(a.slave, e.env, id);
    if Waits(b.slave, id) {
      SessionMode(a.slave, e.env, id);
    }
    assert b.toMaster <= a.toMaster;
  }

  lemma WaitsMode(p: Port, id: MsgId)
    requires Waits(p, id)
    ensures WellFormed(p) && p.fsm.wrState != IDLE
  {
  }

  lemma SessionMode(p: Port, env: Env, id: MsgId)
    requires Waits(p, id) && Useless(p, env.rx, id) && Waits(DoState(p, env), id)
    ensures DoState(p, env).fsm.wrMode == p.fsm.wrMode
  {
    hide WrActions, DoState, ToWrState, Abandon;
    CoupledTurn(p, env);
    WaitActs(p, env, id);
    var a := WrActions(p, env);
    if TimedOut(a, env.now) {
      TransitionToMain(PolledPort(a, env.now), a.fsm.wrState, env.retryHw, env.now);
      AbandonGivesUp(PolledPort(a, env.now), env);
    }
  }

  lemma DeadMasterTurn(a: Pair, e: Event, b: Pair, id: MsgId)
    requires Dead(a, id) && Next(a, e, b) && e.MasterTurn?
    ensures Dead(b, id) || (a.master.fsm.wrState != IDLE && GaveUp(b.master))
  {
    hide DoState, Waits, Over, Coupled;
    if mid :| Waits(a.master, mid) && NoneOf(a.toMaster, {mid, SlavePresentId}) {
      WaitsMode(a.master, mid);
      WaitStep(a.master, e.env, mid);
      assert b.toSlave <= a.toSlave;
    } else {
      OverStep(a.master, e.env);
      assert NoneOf(b.toSlave, {id});
    }
  }

  ghost predicate IsPairRun(run: seq<Pair>, events: seq<Event>) {
    && |run| == |events| + 1
    && forall i :: 0 <= i < |events| ==>
         WellFormed(run[i].slave) && WellFormed(run[i].master) && Next(run[i], events[i], run[i + 1])
  }

  /** A node that ran a session gave WR up in this step. */
  ghost predicate JustGaveUp(a: Pair, b: Pair) {
    || (a.slave.fsm.wrState != IDLE && GaveUp(b.slave))
    || (a.master.fsm.wrState != IDLE && GaveUp(b.master))
  }

  lemma DeadTurn(a: Pair, e: Event, b: Pair, id: MsgId)
    requires Dead(a, id) && WellFormed(a.slave) && WellFormed(a.master) && Next(a, e, b)
    ensures Dead(b, id) || JustGaveUp(a, b)
  {
    hide Next, DoState, Dead;
    if e.SlaveTurn? {
      DeadSlaveTurn(a, e, b, id);
    } else {
      DeadMasterTurn(a, e, b, id);
    }
  }

  /** Main result: from a dead pair, whatever time passes, however often states are repeated and in
      whatever order the nodes run, the first thing that happens is that a node gives WR up. */
  lemma {:induction false} DeadUntilGivenUp(run: seq<Pair>, events: seq<Event>, n: nat, id: MsgId)
    requires IsPairRun(run, events) && n < |run| && Dead(run[0], id)
    ensures Dead(run[n], id) || exists i :: 0 < i <= n && Dead(run[i - 1], id) && JustGaveUp(run[i - 1], run[i])
  {
    hide Dead, JustGaveUp, Next;
    if n > 0 {
      DeadUntilGivenUp(run, events, n - 1, id);
      if Dead(run[n - 1], id) {
        DeadTurn(run[n - 1], events[n - 1], run[n], id);
      }
    }
  }

  /** The slave of a dead pair is not in WR_LINK_ON. */
  lemma DeadIsNotDone(s: Pair, id: MsgId)
    requires Dead(s, id)
    ensures s.slave.fsm.wrState in {RESP_CALIB_REQ, CALIBRATED} && s.slave.fsm.portState == UNCALIBRATED
  {
  }

  // ---------- the messages whose loss is fatal ----------

  /** The CALIBRATED of the master is lost. */
  lemma LostMasterCalibrated(j: F.Joint)
    requires F.Inv(j) && F.Phase(j) == 7
    ensures j.toSlave == [CalibratedMsgOf(j.master)] && j.toMaster == []
    ensures Dead(Pair(j.slave, j.master, {}, {}), CalibratedId)
  {
    assert Waits(j.master, CalibrateId);
  }

  /** The CALIBRATED of the slave is lost. */
  lemma LostSlaveCalibrated(j: F.Joint)
    requires F.Inv(j) && F.Phase(j) == 12
    ensures j.toMaster == [CalibratedMsgOf(j.slave)] && j.toSlave == []
    ensures Dead(Pair(j.slave, j.master, {}, {}), WrModeOnId)
  {
    assert Waits(j.master, CalibratedId);
  }

  /** The WR_MODE_ON of the master is lost. */
  lemma LostModeOn(j: F.Joint)
    requires F.Inv(j) && F.Phase(j) == 14 && j.master.fsm.wrState == WR_LINK_ON
    ensures j.toSlave == [WrModeOnMsg] && j.toMaster == []
    ensures Dead(Pair(j.slave, j.master, {}, {}), WrModeOnId)
  {
  }
}
