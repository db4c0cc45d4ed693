/** Runs of one master and one slave over a network that loses, duplicates and reorders messages:
    which transmissions the four stamps of a servo update belong to. */
module PairingRuns {
  import opened CTypes
  import opened WrTime
  import opened LinkModel
  import opened Pairing
  import Servo
  import Codec

  type Stamp = WrTimestamp

  /** What one node observed of one numbered message. */
  datatype Heard = Heard(index: nat, rx: Stamp, ok: bool)

  datatype SentFollowUp = SentFollowUp(index: nat, f: FollowUp)
  datatype SentResp = SentResp(index: nat, d: DelayResp)

  /** The two nodes and the history of the wire. Syncs and requests are numbered from 0 without
      bound: element i of `syncs` and `requests` is the transmission stamp of number i. `held` is
      the number of the Sync last taken, `paired` that of the last accepted Follow_Up's Sync; the
      transmission stamps of the requests in `correct` could be read. */
  datatype Link = Link(master: Master, slave: Slave,
                       syncs: seq<Stamp>, followUps: set<SentFollowUp>, syncsHeard: set<Heard>,
                       requests: seq<Stamp>, requestsHeard: set<Heard>, responses: set<SentResp>,
                       held: nat, paired: nat, correct: set<nat>)

  /** `sent` and `ok` are the outcome of a transmission and of reading its stamp; `junk` is what an
      unset local variable holds. Every delivery may happen at any time and any number of times. */
  datatype Event =
    | SyncTimer(sent: bool, tx: Stamp, ok: bool)
    | SyncArrives(i: nat, twoStep: bool, rx: Stamp, ok: bool)
    | FollowUpArrives(m: SentFollowUp, junk: Stamp, sent: bool, tx: Stamp, ok: bool)
    | RequestTimer(sent: bool, tx: Stamp, ok: bool)
    | RequestArrives(k: nat, rx: Stamp)
    | ResponseArrives(r: SentResp, junk: Stamp)
    | SlaveEntered(servoOk: bool)

  /** A stamp of this side of 2038 whose nanoseconds are in range. */
  predicate Plain(t: Stamp) {
    0 <= t.sec < INT_MAX && 0 <= t.nsec < 1000_000_000
  }

  /** Message number `i` is younger than one wrap of its sequence counter. */
  predicate Young(i: nat, count: nat) {
    i < count <= i + TWO16
  }

  /** The premises: stamps are plain, a transmission that failed has no correct stamp, and neither a
      message nor the Sync that a Follow_Up completes is older than one wrap. */
  predicate Enabled(l: Link, e: Event) {
    match e
    case SyncTimer(sent, tx, ok) => (ok ==> sent && Plain(tx))
    case SyncArrives(i, _, _, _) => i < |l.syncs|
    case FollowUpArrives(m, _, sent, tx, ok) =>
      && m in l.followUps && Young(m.index, |l.syncs|) && (ok ==> sent)
      && (l.slave.waiting ==> Young(l.held, |l.syncs|))
    case RequestTimer(sent, tx, ok) => (ok ==> sent)
    case RequestArrives(k, rx) => k < |l.requests| && Plain(rx)
    case ResponseArrives(r, _) => r in l.responses && Young(r.index, |l.requests|)
    case SlaveEntered(_) => true
  }

  function Requested(l: Link, slave: Slave, sent: bool, tx: Stamp, ok: bool): Link {
    l.(slave := slave, requests := if sent then l.requests + [tx] else l.requests,
       correct := if sent && ok then l.correct + {|l.requests|} else l.correct)
  }

  function Next(l: Link, e: Event): Link {
    match e
    case SyncTimer(sent, tx, ok) =>
      var m := SyncSent(l.master, sent, tx, ok);
      l.(master := m,
         syncs := if sent then l.syncs + [tx] else l.syncs,
         followUps := if ok then l.followUps + {SentFollowUp(|l.syncs|, FollowUpOf(m))} else l.followUps)
    case SyncArrives(i, twoStep, rx, ok) =>
      l.(slave := HearSync(l.slave, i % TWO16, twoStep, rx, ok), syncsHeard := l.syncsHeard + {Heard(i, rx, ok)},
         held := i)
    case FollowUpArrives(m, junk, sent, tx, ok) =>
      if AcceptsFollowUp(l.slave, m.f)
      then Requested(l, HearFollowUp(l.slave, m.f, junk, sent, tx, ok), sent, tx, ok).(paired := m.index)
      else l
    case RequestTimer(sent, tx, ok) => Requested(l, Request(l.slave, sent, tx, ok), sent, tx, ok)
    case RequestArrives(k, rx) =>
      l.(requestsHeard := l.requestsHeard + {Heard(k, rx, true)},
         responses := l.responses + {SentResp(k, RespTo(k % TWO16, rx))})
    case ResponseArrives(r, junk) => l.(slave := HearDelayResp(l.slave, r.d, junk))
    case SlaveEntered(servoOk) => l.(slave := EnterSlave(l.slave, servoOk))
  }

  predicate Initial(l: Link) {
    && l.syncs == [] && l.requests == [] && l.followUps == {} && l.responses == {}
    && l.syncsHeard == {} && l.requestsHeard == {}
    && l.master.sentSync == 0 && l.slave.sentReq == 0
    && !l.slave.waiting && !l.slave.reqTxOk && !l.slave.m.gotSync
  }

  // ---------- what holds in every state ----------

  ghost predicate MasterInv(l: Link) {
    && l.master.sentSync == |l.syncs| % TWO16
    && (forall m :: m in l.followUps ==>
          m.index < |l.syncs| && Plain(l.syncs[m.index])
          && m.f == FollowUp(m.index % TWO16, OnWire(l.syncs[m.index])))
    && (forall r :: r in l.responses ==> r.index < |l.requests| && AnswersHeard(l, r))
  }

  ghost predicate AnswersHeard(l: Link, r: SentResp) {
    exists h :: h in l.requestsHeard && h.index == r.index && Plain(h.rx) && r.d == RespTo(h.index % TWO16, h.rx)
  }

  ghost predicate SlaveInv(l: Link) {
    var s := l.slave;
    && s.sentReq == |l.requests| % TWO16
    && (s.reqTxOk ==> && l.requests != [] && s.reqTx == l.requests[|l.requests| - 1]
                      && |l.requests| - 1 in l.correct)
    && (s.waiting ==> l.held < |l.syncs| && s.recvSeq == l.held % TWO16 && HeardAs(l, l.held, s.syncRx, s.syncRxOk))
    && (s.m.gotSync ==> SyncHalf(l, l.paired, s.m.stamps, s.m.ok2))
  }

  /** t1 is the transmission stamp of Sync `i` as a message carries it, t2 a reception stamp of it that was
      read as `ok` says. */
  ghost predicate SyncHalf(l: Link, i: nat, st: Stamps, ok: bool) {
    && i < |l.syncs|
    && st.t1 == l.syncs[i].(phase := 0)
    && HeardAs(l, i, st.t2, ok)
  }

  /** `t` is a reception stamp of Sync `i`, its seconds kept in 32 bits. */
  ghost predicate HeardAs(l: Link, i: nat, t: Stamp, ok: bool) {
    exists h :: h in l.syncsHeard && h.index == i && h.ok == ok && t == h.rx.(sec := ToInt32(h.rx.sec))
  }

  /** t3 is the transmission stamp of request `k`, which could be read, and t4 a reception stamp of it whose
      phase went through the correction field. */
  ghost predicate RequestHalf(l: Link, k: nat, st: Stamps) {
    && k < |l.requests| && st.t3 == l.requests[k] && k in l.correct
    && exists h :: h in l.requestsHeard && h.index == k
                   && st.t4 == h.rx.(phase := Servo.CfToPhase(Codec.PhaseToCf(h.rx.phase)))
  }

  ghost predicate Inv(l: Link) {
    MasterInv(l) && SlaveInv(l)
  }

  lemma WireRoundTrip(t: Stamp, phase: int32, junk: Stamp)
    requires Plain(t)
    ensures FromWire(OnWire(t), phase, junk) == t.(phase := phase)
  {}

  /** A stamp with nanoseconds in range survives the wire exactly until 2038: from then on the receiver keeps
      whatever its memory held. */
  lemma WireExactlyUntil2038(t: Stamp, phase: int32)
    requires 0 <= t.sec < TWO32 && 0 <= t.nsec < 1000_000_000
    ensures (forall junk :: FromWire(OnWire(t), phase, junk) == t.(phase := phase)) <==> t.sec < 0x7FFF_FFFF
    ensures 0x7FFF_FFFF <= t.sec ==> forall junk :: FromWire(OnWire(t), phase, junk) == junk.(phase := phase)
  {
    if 0x7FFF_FFFF <= t.sec {
      var junk := WrTimestamp(0, 0, 0);
      assert FromWire(OnWire(t), phase, junk) == junk.(phase := phase);
    }
  }

  /** Young numbers with the same sequence id are the same number. */
  lemma YoungUnique(i: nat, j: nat, count: nat)
    requires Young(i, count) && Young(j, count) && i % TWO16 == j % TWO16
    ensures i == j
  {
    var d := i / TWO16 - j / TWO16;
    assert i - j == d * TWO16;
    SmallMultiple(d, TWO16);
  }

  lemma NextSeqId(n: nat)
    ensures (n % TWO16 + 1) % TWO16 == (n + 1) % TWO16
    ensures ((n + 1) % TWO16 - 1) % TWO16 == n % TWO16
  {}

  lemma SyncTimerKeeps(l: Link, e: Event)
    requires Inv(l) && Enabled(l, e) && e.SyncTimer?
    ensures Inv(Next(l, e))
  {
    var q := Next(l, e);
    NextSeqId(|l.syncs|);
    forall r | r in q.responses
      ensures AnswersHeard(q, r)
    {
      assert AnswersHeard(l, r);
    }
  }

  lemma RequestKeeps(l: Link, slave: Slave, sent: bool, tx: Stamp, ok: bool)
    requires Inv(l.(slave := slave)) && (ok ==> sent)
    ensures Inv(Requested(l, Request(slave, sent, tx, ok), sent, tx, ok))
  {
    var p, q := l.(slave := slave), Requested(l, Request(slave, sent, tx, ok), sent, tx, ok);
    NextSeqId(|l.requests|);
    forall r | r in q.responses
      ensures AnswersHeard(q, r)
    {
      assert AnswersHeard(p, r);
    }
  }

  /** An accepted Follow_Up belongs to the Sync that is held. */
  lemma FollowUpKeeps(l: Link, e: Event)
    requires Inv(l) && Enabled(l, e) && e.FollowUpArrives? && AcceptsFollowUp(l.slave, e.m.f)
    ensures Inv(Next(l, e)) && e.m.index == l.held
  {
    YoungUnique(l.held, e.m.index, |l.syncs|);
    WireRoundTrip(l.syncs[l.held], 0, e.junk);
    var s := l.slave;
    var st := s.m.stamps.(t1 := FromWire(e.m.f.origin, 0, e.junk), t2 := s.syncRx);
    var half := s.(waiting := false, m := s.m.(stamps := st, ok1 := true, ok2 := s.syncRxOk, gotSync := true));
    var p := l.(paired := e.m.index);
    forall r | r in p.responses
      ensures AnswersHeard(p.(slave := half), r)
    {
      assert AnswersHeard(l, r);
    }
    RequestKeeps(p, half, e.sent, e.tx, e.ok);
  }

  lemma ArrivalKeeps(l: Link, e: Event)
    requires Inv(l) && Enabled(l, e) && (e.SyncArrives? || e.RequestArrives? || e.ResponseArrives? || e.SlaveEntered?)
    ensures Inv(Next(l, e))
  {
    var q := Next(l, e);
    forall r | r in q.responses
      ensures r.index < |q.requests| && AnswersHeard(q, r)
    {
      if e.RequestArrives? && r == SentResp(e.k, RespTo(e.k % TWO16, e.rx)) {
        assert Heard(e.k, e.rx, true) in q.requestsHeard;
      } else {
        assert AnswersHeard(l, r);
        var h :| h in l.requestsHeard && h.index == r.index && Plain(h.rx) && r.d == RespTo(h.index % TWO16, h.rx);
        assert h in q.requestsHeard;
      }
    }
  }

  lemma NextKeepsInv(l: Link, e: Event)
    requires Inv(l) && Enabled(l, e)
    ensures Inv(Next(l, e))
  {
    match e
    case SyncTimer(_, _, _) => SyncTimerKeeps(l, e);
    case RequestTimer(sent, tx, ok) => RequestKeeps(l, l.slave, sent, tx, ok);
    case FollowUpArrives(m, _, _, _, _) =>
      if AcceptsFollowUp(l.slave, m.f) {
        FollowUpKeeps(l, e);
      }
    case _ => ArrivalKeeps(l, e);
  }

  // ---------- runs ----------

  /** The state after the first `n` events. */
  function After(l: Link, run: seq<Event>, n: nat): Link
    requires n <= |run|
  {
    if n == 0 then l else Next(After(l, run, n - 1), run[n - 1])
  }

  ghost predicate Run(l: Link, run: seq<Event>) {
    Initial(l) && forall n :: 0 <= n < |run| ==> Enabled(After(l, run, n), run[n])
  }

  lemma {:induction false} RunKeepsInv(l: Link, run: seq<Event>, n: nat)
    requires Run(l, run) && n <= |run|
    ensures Inv(After(l, run, n))
  {
    if n > 0 {
      RunKeepsInv(l, run, n - 1);
      NextKeepsInv(After(l, run, n - 1), run[n - 1]);
    }
  }

  /** The numbers that `handleDelayResp` compares. */
  lemma ResponseNumbers(l: Link, r: SentResp, junk: Stamp)
    requires Inv(l) && Enabled(l, ResponseArrives(r, junk))
    ensures Young(r.index, |l.requests|) && r.d.seqId == r.index % TWO16 && l.slave.sentReq == |l.requests| % TWO16
  {
    assert AnswersHeard(l, r);
  }

  lemma BeforeWrap(n: nat)
    ensures n % TWO16 != 0 ==> 0 < n && (n - 1) % TWO16 == n % TWO16 - 1
  {
  }

  /** A young response is accepted exactly when it answers the latest request and the request counter
      did not just wrap: one request in 65536 never gets its answer accepted. */
  lemma ResponseAcceptance(l: Link, r: SentResp, junk: Stamp)
    requires Inv(l) && Enabled(l, ResponseArrives(r, junk))
    ensures AcceptsResp(l.slave, r.d) <==> r.index == |l.requests| - 1 && |l.requests| % TWO16 != 0
  {
    hide Inv, Enabled;
    ResponseNumbers(l, r, junk);
    BeforeWrap(|l.requests|);
    if AcceptsResp(l.slave, r.d) {
      YoungUnique(r.index, |l.requests| - 1, |l.requests|);
    }
  }

  /** An update in any reachable state. */
  lemma UpdateIsPaired(l: Link, r: SentResp, junk: Stamp)
    requires Inv(l) && Enabled(l, ResponseArrives(r, junk)) && Used(l.slave, r.d, junk).Some?
    ensures var st := Used(l.slave, r.d, junk).value;
            l.requests != [] && SyncHalf(l, l.paired, st, true) && RequestHalf(l, |l.requests| - 1, st)
  {
    ResponseAcceptance(l, r, junk);
    assert AnswersHeard(l, r);
    var h :| h in l.requestsHeard && h.index == r.index && Plain(h.rx) && r.d == RespTo(h.index % TWO16, h.rx);
    WireRoundTrip(h.rx, Servo.CfToPhase(r.d.cf), junk);
  }

  /** Main result: in every run, whatever is lost, duplicated, delayed or reordered and however
      receive times are overwritten and extra requests sent, each servo update uses t1 and t2 of one
      Sync and t3 and t4 of the latest request, all of which could be read. */
  lemma EveryUpdateIsPaired(l: Link, run: seq<Event>, n: nat)
    requires Run(l, run) && n < |run| && run[n].ResponseArrives?
    requires Used(After(l, run, n).slave, run[n].r.d, run[n].junk).Some?
    ensures var at := After(l, run, n);
            var st := Used(at.slave, run[n].r.d, run[n].junk).value;
            at.requests != [] && SyncHalf(at, at.paired, st, true) && RequestHalf(at, |at.requests| - 1, st)
  {
    hide After, Inv, Enabled, Used, SyncHalf, RequestHalf;
    RunKeepsInv(l, run, n);
    assert run[n] == ResponseArrives(run[n].r, run[n].junk);
    UpdateIsPaired(After(l, run, n), run[n].r, run[n].junk);
  }

  // ---------- what an update consumes ----------

  /** The servo computes at step `n`. */
  predicate Updates(l: Link, run: seq<Event>, n: nat) {
    n < |run| && run[n].ResponseArrives? && Used(After(l, run, n).slave, run[n].r.d, run[n].junk).Some?
  }

  predicate TakesFollowUp(l: Link, run: seq<Event>, k: nat) {
    k < |run| && run[k].FollowUpArrives? && AcceptsFollowUp(After(l, run, k).slave, run[k].m.f)
  }

  /** A slave that waits for a Follow_Up has heard a two-step Sync. */
  lemma {:induction false} WaitHasCause(l: Link, run: seq<Event>, i: nat, n: nat) returns (j: nat)
    requires i <= n <= |run| && !After(l, run, i).slave.waiting
    ensures After(l, run, n).slave.waiting ==> i <= j < n && run[j].SyncArrives? && run[j].twoStep
  {
    j := 0;
    if i < n {
      j := WaitHasCause(l, run, i, n - 1);
      if run[n - 1].SyncArrives? {
        j := n - 1;
      }
    }
  }

  lemma GotSyncStep(l: Link, e: Event)
    ensures Next(l, e).slave.m.gotSync ==>
              l.slave.m.gotSync || (e.FollowUpArrives? && AcceptsFollowUp(l.slave, e.m.f))
  {
    hide FromWire, ToInt32, OnWire, RespTo, Codec.PhaseToCf, Servo.CfToPhase, AcceptsResp;
  }

  /** A servo that has a Sync has got it with an accepted Follow_Up. */
  lemma {:induction false} SyncHasCause(l: Link, run: seq<Event>, i: nat, n: nat) returns (k: nat)
    requires i <= n <= |run| && !After(l, run, i).slave.m.gotSync
    ensures After(l, run, n).slave.m.gotSync ==> i <= k < n && TakesFollowUp(l, run, k)
  {
    hide Next, AcceptsFollowUp;
    k := 0;
    if i < n {
      k := SyncHasCause(l, run, i, n - 1);
      GotSyncStep(After(l, run, n - 1), run[n - 1]);
      if TakesFollowUp(l, run, n - 1) {
        k := n - 1;
      }
    }
  }

  lemma UpdateFacts(l: Link, run: seq<Event>, n: nat)
    requires Updates(l, run, n)
    ensures n < |run| && After(l, run, n).slave.m.gotSync && !After(l, run, n + 1).slave.m.gotSync
  {
  }

  /** Main result: every update consumes the Sync it computes with. Between two updates the slave accepts
      another Follow_Up. */
  lemma UpdatesConsume(l: Link, run: seq<Event>, m: nat, n: nat) returns (k: nat)
    requires m < n && Updates(l, run, m) && Updates(l, run, n)
    ensures m < k < n && TakesFollowUp(l, run, k)
  {
    hide After, Updates;
    UpdateFacts(l, run, m);
    UpdateFacts(l, run, n);
    k := SyncHasCause(l, run, m + 1, n);
  }

  /** And every Follow_Up consumes its Sync: between two that are accepted a two-step Sync arrives. */
  lemma FollowUpsConsume(l: Link, run: seq<Event>, m: nat, n: nat) returns (j: nat)
    requires m < n && TakesFollowUp(l, run, m) && TakesFollowUp(l, run, n)
    ensures m < j < n && run[j].SyncArrives? && run[j].twoStep
  {
    hide FromWire, ToInt32;
    assert After(l, run, m + 1) == Next(After(l, run, m), run[m]);
    j := WaitHasCause(l, run, m + 1, n);
  }

  /** Main result: what was measured before a port became slave is not used afterwards. Once the servo is
      initialised, an update needs a two-step Sync and then its Follow_Up, both received since. */
  lemma EntryForgets(l: Link, run: seq<Event>, i: nat, n: nat) returns (j: nat, k: nat)
    requires i < n && Updates(l, run, n) && i < |run| && run[i] == SlaveEntered(true)
    ensures i < j < k < n && run[j].SyncArrives? && run[j].twoStep && TakesFollowUp(l, run, k)
  {
    UpdateFacts(l, run, n);
    assert After(l, run, i + 1) == Next(After(l, run, i), run[i]);
    k := SyncHasCause(l, run, i + 1, n);
    j := WaitHasCause(l, run, i + 1, k);
  }

  // ---------- what the premises are for ----------

  /** Without the age limits a Follow_Up is accepted exactly when it is a whole number of wraps away
      from the Sync held: so it pairs t2 with a t1 of another Sync exactly after a full wrap. */
  lemma FollowUpAcceptance(l: Link, m: SentFollowUp)
    requires Inv(l) && m in l.followUps && l.slave.waiting
    ensures AcceptsFollowUp(l.slave, m.f) <==> (m.index - l.held) % TWO16 == 0
  {
    var i, j := m.index, l.held;
    assert i == i / TWO16 * TWO16 + i % TWO16 && j == j / TWO16 * TWO16 + j % TWO16;
    if i % TWO16 == j % TWO16 {
      DivUnique(i - j, TWO16, i / TWO16 - j / TWO16, 0);
    }
    if (i - j) % TWO16 == 0 {
      SmallMultiple(i / TWO16 - j / TWO16 - (i - j) / TWO16, TWO16);
    }
  }

  /** One undisturbed round from any reachable state ends in an update, exactly when the request
      counter did not just wrap: so the runs above do contain updates. */
  lemma RoundCompletes(l: Link, tx1: Stamp, rx2: Stamp, tx3: Stamp, rx4: Stamp, junk: Stamp)
    requires Inv(l) && Plain(tx1) && Plain(rx4)
    ensures var i, k := |l.syncs|, |l.requests|;
            var l1 := Next(l, SyncTimer(true, tx1, true));
            var l2 := Next(l1, SyncArrives(i, true, rx2, true));
            var f := SentFollowUp(i, FollowUpOf(l1.master));
            var l3 := Next(l2, FollowUpArrives(f, junk, true, tx3, true));
            var l4 := Next(l3, RequestArrives(k, rx4));
            var r := SentResp(k, RespTo(k % TWO16, rx4));
            && Enabled(l2, FollowUpArrives(f, junk, true, tx3, true))
            && Enabled(l4, ResponseArrives(r, junk))
            && (Used(l4.slave, r.d, junk).Some? <==> (k + 1) % TWO16 != 0)
            && ((k + 1) % TWO16 != 0 ==>
                  Used(l4.slave, r.d, junk).value ==
                  Stamps(tx1.(phase := 0), rx2.(sec := ToInt32(rx2.sec)), tx3,
                         rx4.(phase := Servo.CfToPhase(Codec.PhaseToCf(rx4.phase)))))
  {
    var i, k := |l.syncs|, |l.requests|;
    NextSeqId(i);
    NextSeqId(k);
    WireRoundTrip(tx1, 0, junk);
    WireRoundTrip(rx4, Servo.CfToPhase(Codec.PhaseToCf(rx4.phase)), junk);
  }
}
