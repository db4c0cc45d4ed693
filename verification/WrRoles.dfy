/** Why the causal chain needs nodes that keep their WR roles: if the node called master starts a
    session as WR slave, the other one can enter WR_LINK_ON first (PTPWRd/protocol.c:329-386,
    PTPWRd/wr_protocol.c:282-597). */
module WrRoles {
  import opened CTypes
  import opened WrFsm
  import opened WrCoupling
  import opened WrChain
  import opened WrAgreement
  import F = WrFifoLink
  import L = WrLossyLink
  import opened WrProgress
  import WrTermination

  /** A run of the lossy link without the premise on the roles. */
  ghost predicate PossibleRun(run: seq<L.Link>, events: seq<L.Event>) {
    && |run| == |events| + 1
    && forall i :: 0 <= i < |events| ==>
         WellFormed(run[i].slave) && WellFormed(run[i].master) && L.Possible(run[i], events[i], run[i + 1])
  }

  /** The master node never entered WR_LINK_ON, and the slave node did. */
  ghost predicate BreaksChain(run: seq<L.Link>) {
    run != [] && L.Fact(0, run[|run| - 1]) && forall i :: 0 <= i < |run| ==> !L.Fact(1, run[i])
  }

  // ---------- a setup in exchanged roles ----------

  predicate Within(ms: seq<WrMsg>, sent: seq<WrMsg>) {
    forall i :: 0 <= i < |ms| ==> ms[i] in sent
  }

  /** The setup `j` runs on the link with the roles exchanged, and its slave is not in WR_LINK_ON. */
  ghost predicate Exchanged(j: F.Joint, l: L.Link) {
    && F.Inv(j) && F.Phase(j) <= 14
    && l.slave == j.master && l.master == j.slave
    && NodeInv(l.slave, l.hs, true) && !l.hm.linkOn
    && Within(j.toMaster, j.slave.outbox) && Within(j.toSlave, j.master.outbox)
  }

  lemma WithinGrows(ms: seq<WrMsg>, p: Port, q: Port)
    requires Within(ms, p.outbox) && p.outbox <= q.outbox
    ensures Within(ms + F.News(p, q), q.outbox)
  {
    assert forall m :: m in p.outbox ==> m in q.outbox;
  }

  lemma WithinRest(p: Port, env: Env, inbox: seq<WrMsg>, sent: seq<WrMsg>)
    requires Within(inbox, sent)
    ensures Within(F.Rest(p, env, inbox), sent)
  {
  }

  lemma EagerNotForged(inbox: seq<WrMsg>, sent: seq<WrMsg>)
    requires Within(inbox, sent)
    ensures L.NotForged(EagerEnv(inbox, 0).rx, sent)
  {
  }

  /** The slave cannot be done while its master still waits. */
  lemma SlaveBehind(j: F.Joint)
    requires F.Inv(j) && F.Phase(j) < 14 && SlaveMoves(j) && F.Allowed(j, EagerTurn(j, 0))
    requires F.Inv(F.Next(j, EagerTurn(j, 0)))
    ensures F.Phase(F.Next(j, EagerTurn(j, 0))) < 14
  {
    hide DoState, Quiet;
  }

  /** The master leaves its slave where it is. */
  lemma MasterAhead(j: F.Joint)
    requires F.Inv(j) && F.Phase(j) < 14 && !SlaveMoves(j) && F.Allowed(j, EagerTurn(j, 0))
    requires F.Inv(F.Next(j, EagerTurn(j, 0)))
    ensures F.Phase(F.Next(j, EagerTurn(j, 0))) <= 14
  {
    hide DoState, Quiet;
  }

  /** A quiet turn of a session notes that it entered WR_LINK_ON only if it is there now. */
  lemma NotYetOn(p: Port, env: Env, inbox: seq<WrMsg>, h: History)
    requires Running(p) && Quiet(p, env, inbox) && !h.linkOn && DoState(p, env).fsm.wrState != WR_LINK_ON
    ensures !Advance(h, p, env).linkOn
  {
    hide DoState, WrActions, ToState;
    QuietDoState(p, env, inbox);
  }

  lemma QuietEntersNothing(p: Port, env: Env)
    requires WellFormed(p) && env.decision.None?
    ensures !EntersPresent(p, env)
  {
  }

  ghost function AfterEager(j: F.Joint, l: L.Link): (L.Event, L.Link)
    requires WellFormed(l.slave) && WellFormed(l.master)
  {
    var env := EagerTurn(j, 0).env;
    if SlaveMoves(j) then
      (L.MasterStep(env), l.(master := DoState(l.master, env), hm := Advance(l.hm, l.master, env)))
    else
      (L.SlaveStep(env), l.(slave := DoState(l.slave, env), hs := Advance(l.hs, l.slave, env)))
  }

  lemma SlaveTurnExchanged(j: F.Joint, l: L.Link)
    requires Exchanged(j, l) && F.Phase(j) < 14 && SlaveMoves(j) && F.Allowed(j, EagerTurn(j, 0))
    requires F.Inv(F.Next(j, EagerTurn(j, 0)))
    ensures L.Possible(l, AfterEager(j, l).0, AfterEager(j, l).1)
    ensures Exchanged(F.Next(j, EagerTurn(j, 0)), AfterEager(j, l).1)
  {
    hide DoState, Advance, NodeInv, F.News, F.Rest;
    var env := EagerTurn(j, 0).env;
    SlaveBehind(j);
    EagerNotForged(j.toSlave, j.master.outbox);
    L.OutboxGrows(j.slave, env);
    WithinGrows(j.toMaster, j.slave, DoState(j.slave, env));
    WithinRest(j.slave, env, j.toSlave, j.master.outbox);
    NotYetOn(j.slave, env, j.toSlave, l.hm);
  }

  lemma MasterTurnExchanged(j: F.Joint, l: L.Link)
    requires Exchanged(j, l) && F.Phase(j) < 14 && !SlaveMoves(j) && F.Allowed(j, EagerTurn(j, 0))
    requires F.Inv(F.Next(j, EagerTurn(j, 0)))
    ensures L.Possible(l, AfterEager(j, l).0, AfterEager(j, l).1)
    ensures Exchanged(F.Next(j, EagerTurn(j, 0)), AfterEager(j, l).1)
  {
    hide DoState, Advance, NodeInv, F.News, F.Rest, EntersPresent;
    var env := EagerTurn(j, 0).env;
    MasterAhead(j);
    EagerNotForged(j.toMaster, j.slave.outbox);
    L.OutboxGrows(j.master, env);
    WithinGrows(j.toSlave, j.master, DoState(j.master, env));
    WithinRest(j.master, env, j.toMaster, j.slave.outbox);
    QuietEntersNothing(j.master, env);
    NodeStep(j.master, env, l.hs, true);
  }

  /** In phase 14 the node in the master's role has told the other that WR mode is on. */
  lemma ToldIsOn(j: F.Joint, l: L.Link)
    requires Exchanged(j, l) && F.Phase(j) == 14
    ensures l.hs.linkOn
  {
    assert j.toSlave[0] == WrModeOnMsg;
    assert Has(l.slave.outbox, WrModeOnId);
  }

  lemma {:induction false} FinishExchanged(j: F.Joint, l: L.Link) returns (run: seq<L.Link>, events: seq<L.Event>)
    requires Exchanged(j, l)
    ensures PossibleRun(run, events) && run[0] == l && BreaksChain(run)
    decreases 14 - F.Phase(j)
  {
    hide DoState, F.Inv, F.Phase, F.Allowed, F.Next, F.Willing, L.Possible;
    hide JointTimeoutsLast, SlaveMoves, AfterEager, NodeInv;
    if F.Phase(j) == 14 {
      ToldIsOn(j, l);
      run, events := [l], [];
    } else {
      AllLastAtZero(j);
      NeverStuck(j, 0);
      if SlaveMoves(j) { SlaveTurnExchanged(j, l); } else { MasterTurnExchanged(j, l); }
      BothWellFormed(j, l);
      var (e, l') := AfterEager(j, l);
      var run', events' := FinishExchanged(F.Next(j, EagerTurn(j, 0)), l');
      run, events := [l] + run', [e] + events';
    }
  }

  /** At the origin of time all timeouts last. */
  lemma AllLastAtZero(j: F.Joint)
    requires F.Inv(j)
    ensures JointTimeoutsLast(j, 0)
  {
    hide Lasts, CalTimeout;
    forall t: int32 ensures Lasts(t, 0) { LastsAtZero(t); }
  }

  lemma BothWellFormed(j: F.Joint, l: L.Link)
    requires Exchanged(j, l)
    ensures WellFormed(l.slave) && WellFormed(l.master)
  {
  }

  // ---------- how it starts ----------

  /** The state decision of a port next to a WR master, and of one next to nothing better. */
  const TO_SLAVE := SilentEnv(Some(Decision(SLAVE, PrimarySlave, Parent(WR_M_ONLY, false, false))))
  const TO_MASTER := SilentEnv(Some(Decision(MASTER, NonSlave, Parent(NON_WR, false, false))))

  function SilentEnv(d: Option<Decision>): Env {
    Env(d, true, RxNone, 0, false, false, EAGER, EAGER, EAGER, EAGER)
  }

  /** Configured for both roles. */
  predicate BothRoles(cfg: Config) {
    cfg.wrConfig == WR_M_AND_S && !cfg.slaveOnlyClass
  }

  lemma InitPort(p: Port, cfg: Config)
    requires L.Fresh(p)
    ensures var q := DoInit(p, cfg, SilentEnv(None));
            && q.cfg == cfg && q.fsm.wrState == IDLE && q.fsm.portState == LISTENING && q.fsm.wrMode == NonWr
            && q.fsm.msgId == NullTlv && !q.fsm.wrModeOn && q.outbox == []
  {
  }

  lemma BecomesMaster(p: Port)
    requires WellFormed(p) && p.fsm.wrState == IDLE && p.fsm.portState == LISTENING && BothRoles(p.cfg)
    ensures var q := DoState(p, TO_MASTER); F.MasterOk(q) && q.fsm.wrState == IDLE && q.outbox == p.outbox
    ensures !EntersPresent(p, TO_MASTER)
  {
  }

  lemma PresentIsSilent(p: Port)
    requires WellFormed(p) && p.fsm.wrState == PRESENT && p.fsm.portState == UNCALIBRATED && p.fsm.wrMode == WrSlave
    requires p.fsm.msgId == NullTlv
    ensures WrActions(p, TO_SLAVE) == p && Act(p, TO_SLAVE) == ClearMsg(WrTimeout(p, TO_SLAVE))
  {
    hide ToWrState;
  }

  lemma BecomesSlave(p: Port, m: Port)
    requires WellFormed(p) && p.fsm.wrState == IDLE && p.fsm.portState == LISTENING && BothRoles(p.cfg)
    requires p.fsm.msgId == NullTlv && !p.fsm.wrModeOn && F.MasterOk(m) && m.fsm.wrState == IDLE
    ensures var q := DoState(p, TO_SLAVE);
            F.Start(F.Joint(q, m, [SlavePresentMsg], [])) && q.outbox == p.outbox + [SlavePresentMsg]
    ensures Decide(p, TO_SLAVE).fsm.wrState == PRESENT
    ensures forall h: History :: !h.linkOn ==> !Advance(h, p, TO_SLAVE).linkOn
  {
    hide WrTimeout, Act;
    var a := p.(fsm := p.fsm.(role := PrimarySlave, wrMode := WrSlave), parent := Parent(WR_M_ONLY, false, false));
    F.SetupStarts(a, m, EAGER, 0);
    var d := ToState(a, UNCALIBRATED, EAGER, 0);
    assert Decide(p, TO_SLAVE) == d;
    PresentIsSilent(d);
    PresentLasts(a);
    NewsSent(a, d, SlavePresentMsg);
    assert DoState(p, TO_SLAVE) == Act(d, TO_SLAVE) == ClearMsg(d) == d;
    assert d.outbox == p.outbox + [SlavePresentMsg];
  }

  lemma PresentLasts(p: Port)
    requires WrTermination.Starts(p)
    ensures WrTimeout(ToState(p, UNCALIBRATED, EAGER, 0), TO_SLAVE) == ToState(p, UNCALIBRATED, EAGER, 0)
  {
    hide ToState, Abandon, ToWrState, WrTermination.Starts;
    WrTermination.SessionStarts(p, EAGER, 0);
  }

  lemma NewsSent(p: Port, q: Port, m: WrMsg)
    requires F.News(p, q) == [m]
    ensures q.outbox == p.outbox + [m]
  {
    assert q.outbox == p.outbox + q.outbox[|p.outbox|..];
  }

  lemma FreshExplained(p: Port, cfg: Config)
    requires L.Fresh(p)
    ensures NodeInv(DoInit(p, cfg, SilentEnv(None)), L.NO_HISTORY, true)
  {
    assert forall id :: !Has(p.outbox, id);
    L.InitKeeps(p, cfg, SilentEnv(None), L.NO_HISTORY, true);
  }

  lemma SilentHears(h: History, p: Port, env: Env)
    requires WellFormed(p) && p.fsm.wrState == IDLE && p.fsm.wrMode == NonWr && p.fsm.portState == LISTENING
    requires env == TO_MASTER
    ensures Advance(h, p, env) == h
  {
  }

  lemma PossibleSteps(x: Port, y: Port, cfg: Config) returns (run: seq<L.Link>, events: seq<L.Event>)
    requires L.Fresh(x) && L.Fresh(y) && BothRoles(cfg)
    ensures PossibleRun(run, events) && |run| == 5 && run[0] == L.Link(x, y, L.NO_HISTORY, L.NO_HISTORY)
    ensures forall i :: 0 <= i < 5 ==> !run[i].hm.linkOn
    ensures Exchanged(F.Joint(run[4].master, run[4].slave, [SlavePresentMsg], []), run[4])
  {
    hide DoState, DoInit, EntersPresent, F.SlaveOk, F.MasterOk, F.Inv, F.Phase, NodeInv, Advance;
    var none := SilentEnv(None);
    var h := L.NO_HISTORY;
    var x1, y1 := DoInit(x, cfg, none), DoInit(y, cfg, none);
    InitPort(x, cfg);
    InitPort(y, cfg);
    FreshExplained(x, cfg);
    BecomesMaster(x1);
    SilentHears(h, x1, TO_MASTER);
    NodeStep(x1, TO_MASTER, h, true);
    var x2 := DoState(x1, TO_MASTER);
    BecomesSlave(y1, x2);
    var y2 := DoState(y1, TO_SLAVE);
    events := [L.SlaveInit(cfg, none), L.MasterInit(cfg, none), L.SlaveStep(TO_MASTER), L.MasterStep(TO_SLAVE)];
    run := [L.Link(x, y, h, h), L.Link(x1, y, h, h), L.Link(x1, y1, h, h), L.Link(x2, y1, h, h),
            L.Link(x2, y2, h, Advance(h, y1, TO_SLAVE))];
    var j := F.Joint(y2, x2, [SlavePresentMsg], []);
    StartIsInv(j);
    assert Within(j.toMaster, y2.outbox);
  }

  lemma StartIsInv(j: F.Joint)
    requires F.Start(j)
    ensures F.Inv(j) && F.Phase(j) == 0
  {
  }

  /** Main result: for any two fresh nodes configured for both roles there is a run, without loss, in
      which the node called master becomes WR slave, and in which the slave node enters WR_LINK_ON
      although the master node never did. */
  lemma ExchangedRolesBreakChain(x: Port, y: Port, cfg: Config) returns (run: seq<L.Link>, events: seq<L.Event>)
    requires L.Fresh(x) && L.Fresh(y) && BothRoles(cfg)
    ensures PossibleRun(run, events) && L.Initial(run[0]) && BreaksChain(run)
  {
    hide DoState, DoInit, Exchanged, L.Possible;
    var run1, events1 := PossibleSteps(x, y, cfg);
    var run2, events2 := FinishExchanged(F.Joint(run1[4].master, run1[4].slave, [SlavePresentMsg], []), run1[4]);
    run, events := run1[..4] + run2, events1 + events2;
    forall i | 0 <= i < |events|
      ensures WellFormed(run[i].slave) && WellFormed(run[i].master) && L.Possible(run[i], events[i], run[i + 1])
    {
      if i < 4 {
        assert run[i] == run1[i] && run[i + 1] == run1[i + 1] && events[i] == events1[i];
      } else {
        assert run[i] == run2[i - 4] && run[i + 1] == run2[i - 3] && events[i] == events2[i - 4];
      }
    }
  }
}
