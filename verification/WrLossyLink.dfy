/** Two nodes on a lossy link: the causal chain behind a completed WR link setup. */
module WrLossyLink {
  import opened CTypes
  import opened WrFsm
  import opened WrCoupling
  import opened WrChain

  /** The network is the set of messages ever sent: each may be delivered any number of times,
      in any order, at any later time, or never. */
  datatype Link = Link(slave: Port, master: Port, hs: History, hm: History)

  datatype Event = SlaveStep(env: Env) | MasterStep(env: Env)
                 | SlaveInit(cfg: Config, env: Env) | MasterInit(cfg: Config, env: Env)

  predicate NotForged(rx: Rx, sent: seq<WrMsg>) {
    rx.RxSignaling? && !rx.fromSelf && rx.msg.Some? ==> rx.msg.value in sent
  }

  /** One node takes a turn or is initialised; what it receives was really sent. */
  ghost predicate Possible(a: Link, e: Event, b: Link)
    requires WellFormed(a.slave) && WellFormed(a.master)
  {
    match e
    case SlaveStep(env) =>
      && NotForged(env.rx, a.master.outbox)
      && b == a.(slave := DoState(a.slave, env), hs := Advance(a.hs, a.slave, env))
    case MasterStep(env) =>
      && NotForged(env.rx, a.slave.outbox)
      && b == a.(master := DoState(a.master, env), hm := Advance(a.hm, a.master, env))
    case SlaveInit(cfg, env) => b == a.(slave := DoInit(a.slave, cfg, env))
    case MasterInit(cfg, env) => b == a.(master := DoInit(a.master, cfg, env))
  }

  /** The one premise: the master node never enters WRS_PRESENT. */
  ghost predicate Next(a: Link, e: Event, b: Link)
    requires WellFormed(a.slave) && WellFormed(a.master)
  {
    Possible(a, e, b) && (e.MasterStep? ==> !EntersPresent(a.master, e.env))
  }

  const NO_HISTORY := History({}, false, false)

  ghost predicate Fresh(p: Port) {
    && WellFormed(p) && p.fsm.wrState == IDLE && p.fsm.wrMode == NonWr && p.fsm.portState == INITIALIZING
    && p.fsm.msgId == NullTlv && p.outbox == []
  }

  ghost predicate Initial(l: Link) {
    Fresh(l.slave) && Fresh(l.master) && l.hs == NO_HISTORY == l.hm
  }

  ghost predicate IsLinkRun(run: seq<Link>, events: seq<Event>) {
    && |run| == |events| + 1
    && Initial(run[0])
    && forall i :: 0 <= i < |events| ==>
         WellFormed(run[i].slave) && WellFormed(run[i].master) && Next(run[i], events[i], run[i + 1])
  }

  /** The stages of the handshake, latest first; those with an even number are about the slave, the
      others about the master. */
  ghost predicate Fact(k: nat, l: Link) {
    match k
    case 0 => l.hs.linkOn                       // the slave entered WR_LINK_ON
    case 1 => l.hm.linkOn                       // the master entered WR_LINK_ON
    case 2 => Has(l.slave.outbox, CalibratedId)
    case 3 => Has(l.master.outbox, CalibratedId)
    case 4 => l.hs.passedLock && Has(l.slave.outbox, LockedId)
    case 5 => Has(l.master.outbox, LockId)
    case _ => Has(l.slave.outbox, SlavePresentId)
  }

  const LAST_FACT: nat := 6

  /** Each node is explained by what it heard, and heard only what the other one sent. */
  ghost predicate LinkInv(l: Link) {
    && NodeInv(l.slave, l.hs, false)
    && NodeInv(l.master, l.hm, true)
    && (forall id :: id in l.hs.got ==> Has(l.master.outbox, id))
    && (forall id :: id in l.hm.got ==> Has(l.slave.outbox, id))
  }

  lemma FactImpliesNext(l: Link, k: nat)
    requires LinkInv(l) && k < LAST_FACT && Fact(k, l)
    ensures Fact(k + 1, l)
  {
  }

  // Nothing sent is ever unsent.

  lemma MoveGrows(p: Port, s: WrState, hw: Hw, now: uint64)
    requires WellFormed(p)
    ensures p.outbox <= ToWrState(p, s, hw, now).outbox
  {
  }

  lemma StateGrows(p: Port, s: PtpState, hw: Hw, now: uint64)
    requires WellFormed(p)
    ensures p.outbox <= ToState(p, s, hw, now).outbox
  {
    if s == UNCALIBRATED {
      MoveGrows(LeavePtpState(p), PRESENT, hw, now);
    }
  }

  lemma HandleGrows(p: Port, env: Env)
    requires WellFormed(p)
    ensures p.outbox <= Handle(p, env).outbox
  {
    if env.rx.RxSignaling? && !env.rx.fromSelf {
      var q := if env.rx.msg.Some? then Accept(p, env.rx.msg.value) else p;
      MoveGrows(q.(fsm := q.fsm.(wrMode := WrMaster)), M_LOCK, env.signalHw, env.now);
    }
  }

  lemma RespGrows(p: Port, env: Env)
    requires WellFormed(p) && p.fsm.wrState == RESP_CALIB_REQ
    ensures p.outbox <= DoRespCalibReq(p, env).outbox
  {
    if p.fsm.sub <= 1 {
      var q := p.At(RESP_CALIB_REQ, 1);
      assert p.fsm.sub == 1 ==> q == p;
      HandleGrows(q, env);
      var h := Handle(q, env);
      FinishGrows(h.At(RESP_CALIB_REQ, if h.cal.otherSendPattern == 1 then 2 else 3), env);
    } else {
      FinishGrows(p, env);
    }
  }

  lemma FinishGrows(p: Port, env: Env)
    requires WellFormed(p) && p.fsm.wrState == RESP_CALIB_REQ && 2 <= p.fsm.sub
    ensures p.outbox <= RespFinish(p, env).outbox
  {
    var q := p.At(RESP_CALIB_REQ, 3);
    MoveGrows(q, WR_LINK_ON, env.enterHw, env.now);
    MoveGrows(q, CALIBRATION, env.enterHw, env.now);
    MoveGrows(q, IDLE, env.enterHw, env.now);
  }

  lemma ActionsGrow(p: Port, env: Env)
    requires WellFormed(p)
    ensures p.outbox <= WrActions(p, env).outbox
  {
    HandleGrows(p, env);
    var h := Handle(p, env);
    match p.fsm.wrState {
      case IDLE =>
      case PRESENT => MoveGrows(h, S_LOCK, env.enterHw, env.now);
      case S_LOCK => MoveGrows(p.At(S_LOCK, LockProgress(p.fsm.sub, env.doHw)), LOCKED, env.enterHw, env.now);
      case M_LOCK => MoveGrows(h, CALIBRATION, env.enterHw, env.now);
      case LOCKED => MoveGrows(h, RESP_CALIB_REQ, env.enterHw, env.now);
      case CALIBRATION =>
        var k := CalProgress(p.fsm.sub, env.doHw);
        var q := p.At(CALIBRATION, k).(cal := Measured(p.cal, p.fsm.sub, k, env.doHw));
        MoveGrows(Issue(q, CalibratedMsgOf(q), env.doHw.sendOk), CALIBRATED, env.enterHw, env.now);
      case CALIBRATED =>
        MoveGrows(h, RESP_CALIB_REQ, env.enterHw, env.now);
        MoveGrows(h, WR_LINK_ON, env.enterHw, env.now);
      case RESP_CALIB_REQ => RespGrows(p, env);
      case WR_LINK_ON =>
        MoveGrows(p, IDLE, env.enterHw, env.now);
        var q := ToWrState(p, IDLE, env.enterHw, env.now);
        StateGrows(q, SLAVE, env.retryHw, env.now);
        StateGrows(q, MASTER, env.retryHw, env.now);
    }
  }

  lemma TimeoutGrows(p: Port, env: Env)
    requires WellFormed(p)
    ensures p.outbox <= WrTimeout(p, env).outbox
  {
    if TimedOut(p, env.now) {
      var r := PolledPort(p, env.now);
      MoveGrows(r, p.fsm.wrState, env.retryHw, env.now);
      AbandonGrows(r, env);
    }
  }

  lemma AbandonGrows(p: Port, env: Env)
    requires WellFormed(p)
    ensures p.outbox <= Abandon(p, env).outbox
  {
    var off := p.(fsm := p.fsm.(wrModeOn := false));
    MoveGrows(off, IDLE, env.retryHw, env.now);
    var idle := ToWrState(off, IDLE, env.retryHw, env.now);
    var next := if idle.cfg.disableFallback then DISABLED else if p.fsm.wrMode == WrMaster then MASTER else SLAVE;
    StateGrows(idle, next, env.retryHw, env.now);
  }

  lemma DecideGrows(p: Port, env: Env)
    requires WellFormed(p)
    ensures p.outbox <= Decide(p, env).outbox
  {
    if env.decision.Some? {
      var d := env.decision.value;
      var q := p.(fsm := p.fsm.(role := d.role), parent := d.parent);
      StateGrows(q.(fsm := q.fsm.(wrMode := WrSlave, wrModeOn := false)), UNCALIBRATED, env.signalHw, env.now);
      StateGrows(q, d.state, env.signalHw, env.now);
      StateGrows(q, UNCALIBRATED, env.signalHw, env.now);
    }
  }

  lemma ActGrows(p: Port, env: Env)
    requires WellFormed(p)
    ensures p.outbox <= Act(p, env).outbox
  {
    hide Handle, ToState, AnnounceTimeout, WrTimeout;
    if RunsWrFsm(p) {
      ActionsGrow(p, env);
      TimeoutGrows(WrActions(p, env), env);
    } else {
      HandleGrows(p, env);
      var h := Handle(p, env);
      match p.fsm.portState {
        case FAULTY => StateGrows(p, INITIALIZING, env.retryHw, env.now);
        case UNCALIBRATED => StateGrows(p, SLAVE, env.retryHw, env.now);
        case LISTENING => StateGrows(BecomeMaster(p), MASTER, env.retryHw, env.now); ListeningGrows(h, env);
        case PASSIVE => ListeningGrows(h, env);
        case SLAVE => ListeningGrows(h, env);
        case MASTER => StateGrows(if env.sendFault then ToFaulty(h) else h, LISTENING, env.retryHw, env.now);
        case _ =>
      }
    }
  }

  lemma ListeningGrows(h: Port, env: Env)
    requires WellFormed(h)
    ensures h.outbox <= AnnounceTimeout(h, env).outbox
  {
    var reset := h.(fsm := h.fsm.(wrMode := NonWr, wrModeOn := false));
    StateGrows(BecomeMaster(reset), MASTER, env.retryHw, env.now);
    StateGrows(reset, LISTENING, env.retryHw, env.now);
  }

  lemma OutboxGrows(p: Port, env: Env)
    requires WellFormed(p)
    ensures p.outbox <= DoState(p, env).outbox
  {
    DecideGrows(p, env);
    ActGrows(Decide(p, env), env);
  }

  lemma HasInPrefix(small: seq<WrMsg>, big: seq<WrMsg>, id: MsgId)
    requires small <= big && Has(small, id)
    ensures Has(big, id)
  {
    var m :| m in small && IdOf(m) == id;
    assert m in big;
  }

  lemma InitKeeps(p: Port, cfg: Config, env: Env, h: History, master: bool)
    requires NodeInv(p, h, master)
    ensures var q := DoInit(p, cfg, env); NodeInv(q, h, master) && q.outbox == p.outbox
  {
    DoInitCouples(p, cfg, env);
    var c := BecomeMaster(InitWrData(p.(cfg := cfg), env.doHw));
    assert Explained(c, h, master);
    IdleExplained(c, h, master, LISTENING, env.enterHw, env.now);
  }

  lemma HeardWasSent(got: set<MsgId>, h: History, rx: Rx, sent: seq<WrMsg>)
    requires h.got == got && (forall id :: id in got ==> Has(sent, id)) && NotForged(rx, sent)
    ensures forall id :: id in Hear(h, rx).got ==> Has(sent, id)
  {
  }

  /** The master node never sent SLAVE_PRESENT, so the slave node cannot hear it. */
  lemma SlavePresentUnheard(l: Link, rx: Rx)
    requires LinkInv(l) && NotForged(rx, l.master.outbox)
    ensures !HearsSlavePresent(rx)
  {
    assert HearsSlavePresent(rx) ==> Has(l.master.outbox, SlavePresentId);
  }

  lemma StepKeepsLinkInv(a: Link, e: Event, b: Link)
    requires LinkInv(a) && Next(a, e, b)
    ensures LinkInv(b)
  {
    match e {
      case SlaveStep(env) =>
        SlavePresentUnheard(a, env.rx);
        NodeStep(a.slave, env, a.hs, false);
        OutboxGrows(a.slave, env);
        HeardWasSent(a.hs.got, a.hs, env.rx, a.master.outbox);
        KeepsHas(a.slave.outbox, b.slave.outbox, a.hm.got);
      case MasterStep(env) =>
        NodeStep(a.master, env, a.hm, true);
        OutboxGrows(a.master, env);
        HeardWasSent(a.hm.got, a.hm, env.rx, a.slave.outbox);
        KeepsHas(a.master.outbox, b.master.outbox, a.hs.got);
      case SlaveInit(cfg, env) => InitKeeps(a.slave, cfg, env, a.hs, false);
      case MasterInit(cfg, env) => InitKeeps(a.master, cfg, env, a.hm, true);
    }
  }

  lemma KeepsHas(small: seq<WrMsg>, big: seq<WrMsg>, got: set<MsgId>)
    requires small <= big && forall id :: id in got ==> Has(small, id)
    ensures forall id :: id in got ==> Has(big, id)
  {
    forall id | id in got
      ensures Has(big, id)
    {
      HasInPrefix(small, big, id);
    }
  }

  lemma {:induction false} RunKeepsLinkInv(run: seq<Link>, events: seq<Event>, n: nat)
    requires IsLinkRun(run, events) && n < |run|
    ensures LinkInv(run[n])
  {
    if n > 0 {
      RunKeepsLinkInv(run, events, n - 1);
      StepKeepsLinkInv(run[n - 1], events[n - 1], run[n]);
    }
  }

  /** When a fact holds after a step, its cause held before: the two concern different nodes. */
  lemma CauseComesFirst(a: Link, e: Event, b: Link, k: nat)
    requires LinkInv(a) && Next(a, e, b) && k < LAST_FACT && Fact(k, b)
    ensures Fact(k + 1, a)
  {
    StepKeepsLinkInv(a, e, b);
    FactImpliesNext(b, k);
    if Fact(k, a) {
      FactImpliesNext(a, k);
    }
  }

  lemma NothingYet(l: Link, k: nat)
    requires Initial(l)
    ensures !Fact(k, l)
  {
    assert forall id :: !Has(l.slave.outbox, id) && !Has(l.master.outbox, id);
  }

  /** The time at which a fact first holds, that is, at which its event happened. */
  ghost predicate Happens(run: seq<Link>, k: nat, i: nat) {
    i < |run| && Fact(k, run[i]) && forall j :: 0 <= j < i ==> !Fact(k, run[j])
  }

  lemma {:induction false} FirstTime(run: seq<Link>, k: nat, i: nat) returns (j: nat)
    requires i < |run| && Fact(k, run[i])
    ensures j <= i && Happens(run, k, j)
  {
    if n :| 0 <= n < i && Fact(k, run[n]) {
      j := FirstTime(run, k, n);
    } else {
      j := i;
    }
  }

  lemma CauseHeldBefore(run: seq<Link>, events: seq<Event>, i: nat, k: nat)
    requires IsLinkRun(run, events) && k < LAST_FACT && i < |run| && Fact(k, run[i])
    ensures 0 < i && Fact(k + 1, run[i - 1])
  {
    NothingYet(run[0], k);
    RunKeepsLinkInv(run, events, i - 1);
    CauseComesFirst(run[i - 1], events[i - 1], run[i], k);
  }

  /** Each event happens strictly after its cause. */
  lemma CauseInRun(run: seq<Link>, events: seq<Event>, i: nat, k: nat) returns (j: nat)
    requires IsLinkRun(run, events) && k < LAST_FACT && Happens(run, k, i)
    ensures j < i && Happens(run, k + 1, j)
  {
    CauseHeldBefore(run, events, i, k);
    j := FirstTime(run, k + 1, i - 1);
  }

  /** Main result, for `k == 0`: if the slave enters WR_LINK_ON at time `i`, then at strictly
      earlier and earlier times the master entered WR_LINK_ON, the slave sent CALIBRATED, the
      master sent CALIBRATED, the slave had passed S_LOCK and sent LOCKED, the master sent LOCK,
      and the slave sent SLAVE_PRESENT, each of them for the first time. */
  lemma {:induction false} CausalChain(run: seq<Link>, events: seq<Event>, i: nat, k: nat) returns (times: seq<nat>)
    requires IsLinkRun(run, events) && k <= LAST_FACT && Happens(run, k, i)
    ensures |times| == LAST_FACT - k + 1 && times[0] == i
    ensures forall n :: 0 <= n < |times| ==> Happens(run, k + n, times[n])
    ensures forall n :: 0 <= n < |times| - 1 ==> times[n + 1] < times[n]
    decreases LAST_FACT - k
  {
    if k == LAST_FACT {
      times := [i];
    } else {
      var j := CauseInRun(run, events, i, k);
      var rest := CausalChain(run, events, j, k + 1);
      times := [i] + rest;
    }
  }
}
