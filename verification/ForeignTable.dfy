/** The foreign master table of a port (PTPWRd/protocol.c:620-627, 863-1036, 1909-1987,
    2033-2046, PTPWRd/bmc.c:776-812): a ring of records that behaves as a bounded FIFO of distinct
    port identities. */
module ForeignTable {
  import opened CTypes
  import opened Bmc
  import opened BestScan
  import W = WrFsm

  datatype Entry = Entry(identity: PortIdentity, messages: uint16, record: Record)

  // ----- the rotated search of addForeign -----

  /** Index looked at in turn `i`: start at the best record, then go round the first `n`. */
  function Visit(best: nat, n: nat, i: nat): nat
    requires 0 < n
  {
    if i == 0 then best else (Visit(best, n, i - 1) + 1) % n
  }

  lemma VisitStarts(best: nat, n: nat)
    requires 0 < n
    ensures Visit(best, n, 0) == best
  {
  }

  lemma VisitStep(best: nat, n: nat, i: nat)
    requires 0 < n
    ensures Visit(best, n, i + 1) == (Visit(best, n, i) + 1) % n < n
  {
  }

  function RingPos(start: nat, i: nat, n: nat): nat
    requires start < n && i < n
  {
    if start + i < n then start + i else start + i - n
  }

  lemma NextOnRing(x: nat, n: nat)
    requires x < n
    ensures (x + 1) % n == if x + 1 < n then x + 1 else 0
  {
    if x + 1 < n {
      DivUnique(x + 1, n, 0, x + 1);
    } else {
      DivUnique(x + 1, n, 1, 0);
    }
  }

  lemma {:induction false} VisitIsRing(best: nat, n: nat, i: nat)
    requires best < n && i < n
    ensures Visit(best, n, i) == RingPos(best, i, n)
  {
    if i > 0 {
      VisitIsRing(best, n, i - 1);
      NextOnRing(Visit(best, n, i - 1), n);
    }
  }

  /** Started at a record in use, the search sees every record in use. */
  lemma SearchIsExhaustive(best: nat, n: nat, k: nat) returns (i: nat)
    requires best < n && k < n
    ensures i < n && Visit(best, n, i) == k
  {
    i := if best <= k then k - best else k + n - best;
    VisitIsRing(best, n, i);
  }

  lemma {:induction false} VisitFromOutside(best: nat, n: nat, i: nat)
    requires 0 < n <= best && 0 < i < n
    ensures Visit(best, n, i) == RingPos(best % n, i, n)
  {
    var b := best % n;
    if i == 1 {
      assert best == (best / n) * n + b;
      if b + 1 < n {
        DivUnique(best + 1, n, best / n, b + 1);
      } else {
        assert best + 1 == (best / n + 1) * n;
        DivUnique(best + 1, n, best / n + 1, 0);
      }
      assert Visit(best, n, 1) == (Visit(best, n, 0) + 1) % n;
    } else {
      VisitFromOutside(best, n, i - 1);
      NextOnRing(Visit(best, n, i - 1), n);
    }
  }

  /** Started at a record out of use, it never sees record `best % n`: a known master may then be
      taken for a new one. */
  lemma SearchMissesOne(best: nat, n: nat, i: nat)
    requires 0 < n <= best && i < n
    ensures Visit(best, n, i) != best % n
  {
    if i > 0 {
      VisitFromOutside(best, n, i);
    }
  }

  // ----- a bounded FIFO of identities -----

  function Push(q: seq<PortIdentity>, id: PortIdentity, max: nat): seq<PortIdentity>
    requires 0 < max
  {
    (if |q| >= max then q[1..] else q) + [id]
  }

  function Identities(es: seq<Entry>): (ids: seq<PortIdentity>)
    ensures |ids| == |es| && forall i :: 0 <= i < |es| ==> ids[i] == es[i].identity
  {
    seq(|es|, i requires 0 <= i < |es| => es[i].identity)
  }

  predicate Distinct(ids: seq<PortIdentity>) {
    forall i, j :: 0 <= i < j < |ids| ==> ids[i] != ids[j]
  }

  /** Slots of a ring in order of insertion, oldest first. */
  function InOrder(es: seq<Entry>, count: nat, next: nat): seq<PortIdentity>
    requires count <= |es| && next < |es|
  {
    if count < |es| then Identities(es[..count]) else Identities(es[next..]) + Identities(es[..next])
  }

  /** Writing the next slot of the ring is a push. */
  lemma InsertIsPush(es: seq<Entry>, count: nat, next: nat, e: Entry)
    requires next < |es| && count <= |es| && (count < |es| ==> next == count)
    ensures var next' := if next + 1 < |es| then next + 1 else 0;
            var count' := if count < |es| then count + 1 else count;
            InOrder(es[next := e], count', next') == Push(InOrder(es, count, next), e.identity, |es|)
  {
    var es', q := es[next := e], InOrder(es, count, next);
    var next' := if next + 1 < |es| then next + 1 else 0;
    if count + 1 < |es| {
      assert Identities(es'[..count + 1]) == Identities(es[..count]) + [e.identity];
    } else if count < |es| {
      assert Identities(es'[0..]) + Identities(es'[..0]) == Identities(es[..count]) + [e.identity];
    } else if next + 1 < |es| {
      assert Identities(es'[next + 1..]) + Identities(es'[..next + 1]) == q[1..] + [e.identity];
    } else {
      assert Identities(es'[0..]) + Identities(es'[..0]) == q[1..] + [e.identity];
    }
  }

  class PortTable {
    const foreign: array<Entry>
    const portNumber: uint16
    const clockIdentity: ClockId
    var numberForeignRecords: nat
    var foreignRecordI: nat
    var foreignRecordBest: nat
    var recordUpdate: bool

    /** max_foreign_records is the length of the table. */
    ghost predicate Valid()
      reads this, foreign
    {
      && 0 < foreign.Length < 0x8000
      && numberForeignRecords <= foreign.Length
      && foreignRecordI < foreign.Length && foreignRecordBest < foreign.Length
      && (numberForeignRecords < foreign.Length ==> foreignRecordI == numberForeignRecords)
      && Distinct(Identities(foreign[..numberForeignRecords]))
      && forall k :: 0 <= k < numberForeignRecords ==> foreign[k].record.receptionPort == portNumber
    }

    /** The table is empty or its best record is in use. */
    ghost predicate Ready()
      reads this
    {
      numberForeignRecords == 0 || foreignRecordBest < numberForeignRecords
    }

    ghost function Fifo(): seq<PortIdentity>
      requires Valid()
      reads this, foreign
    {
      InOrder(foreign[..], numberForeignRecords, foreignRecordI)
    }

    ghost predicate Known(id: PortIdentity)
      requires Valid()
      reads this, foreign
    {
      exists k :: 0 <= k < numberForeignRecords && foreign[k].identity == id
    }

    constructor (max: nat, portNumber: uint16, clockIdentity: ClockId, blank: Entry)
      requires 0 < max < 0x8000
      ensures Valid() && Ready() && numberForeignRecords == 0 && !recordUpdate
      ensures foreign.Length == max && fresh(foreign)
    {
      foreign := new Entry[max](_ => blank);
      this.portNumber, this.clockIdentity := portNumber, clockIdentity;
      numberForeignRecords, foreignRecordI, foreignRecordBest, recordUpdate := 0, 0, 0, false;
    }

    /** The search loop of `addForeign`. */
    method Search(id: PortIdentity) returns (found: bool, j: nat)
      requires Valid() && Ready()
      ensures found <==> Known(id)
      ensures found ==> j < numberForeignRecords && foreign[j].identity == id
    {
      hide InOrder, Identities, Distinct, Visit;
      if numberForeignRecords > 0 {
        VisitStarts(foreignRecordBest, numberForeignRecords);
      }
      j := foreignRecordBest;
      var i := 0;
      while i < numberForeignRecords
        invariant i <= numberForeignRecords && j < foreign.Length
        invariant numberForeignRecords > 0 ==>
                    j < numberForeignRecords && j == Visit(foreignRecordBest, numberForeignRecords, i)
        invariant forall k :: 0 <= k < i ==>
                    Visit(foreignRecordBest, numberForeignRecords, k) < numberForeignRecords
                    && foreign[Visit(foreignRecordBest, numberForeignRecords, k)].identity != id
      {
        if foreign[j].identity == id {
          return true, j;
        }
        VisitStep(foreignRecordBest, numberForeignRecords, i);
        j := (j + 1) % numberForeignRecords;
        i := i + 1;
      }
      forall k | 0 <= k < numberForeignRecords
        ensures foreign[k].identity != id
      {
        var t := SearchIsExhaustive(foreignRecordBest, numberForeignRecords, k);
      }
      return false, 0;
    }

    /** What `addForeign` changes: the entry of a known master is refreshed and counted, a new master takes
        the slot of the oldest one or the next free one. */
    twostate predicate Adds(source: PortIdentity, announce: Announce)
      requires old(Valid()) && Valid()
      reads this, foreign
    {
      var record := Record(source, announce, portNumber);
      && (old(Known(source)) ==>
            && Fifo() == old(Fifo()) && numberForeignRecords == old(numberForeignRecords)
            && foreignRecordI == old(foreignRecordI)
            && exists k :: 0 <= k < numberForeignRecords && old(foreign[k]).identity == source
                           && foreign[..] ==
                              old(foreign[..])[k := Entry(source, (old(foreign[k]).messages + 1) % 0x1_0000, record)])
      && (!old(Known(source)) ==>
            && Fifo() == Push(old(Fifo()), source, foreign.Length)
            && foreign[..] == old(foreign[..])[old(foreignRecordI) := Entry(source, 0, record)]
            && numberForeignRecords ==
               (if old(numberForeignRecords) < foreign.Length then old(numberForeignRecords) + 1 else foreign.Length))
    }

    /** The table has in use what `source` announced. */
    ghost predicate Stores(source: PortIdentity, announce: Announce)
      requires Valid()
      reads this, foreign
    {
      Record(source, announce, portNumber) in Records()
    }

    /** The part of `addForeign` for a known master. */
    method Refresh(j: nat, source: PortIdentity, announce: Announce)
      requires Valid() && j < numberForeignRecords && foreign[j].identity == source
      modifies foreign
      ensures Valid() && Fifo() == old(Fifo())
      ensures var record := Record(source, announce, portNumber);
              foreign[..] == old(foreign[..])[j := Entry(source, (old(foreign[j]).messages + 1) % 0x1_0000, record)]
    {
      hide InOrder, Identities, Distinct;
      ghost var before := foreign[..];
      foreign[j] := foreign[j].(messages := (foreign[j].messages + 1) % 0x1_0000);
      foreign[j] := foreign[j].(record := foreign[j].record.(source := source, announce := announce));
      assert foreign[..] == before[j := foreign[j]];
      SameIdentities(before, foreign[..], numberForeignRecords, foreignRecordI);
    }

    /** `addForeign` for an Announce message from `source`. */
    method AddForeign(source: PortIdentity, announce: Announce)
      requires Valid() && Ready()
      modifies this`numberForeignRecords, this`foreignRecordI, foreign
      ensures Valid() && Adds(source, announce) && Stores(source, announce)
    {
      hide InOrder, Identities, Distinct, Push, RecordsOf;
      var found, j := Search(source);
      ghost var slot := if found then j else foreignRecordI;
      if found {
        Refresh(j, source, announce);
      } else {
        InsertNew(source, announce);
      }
      assert Records()[slot] == Record(source, announce, portNumber);
    }

    /** The part of `addForeign` that stores a new master. */
    method InsertNew(source: PortIdentity, announce: Announce)
      requires Valid() && !Known(source)
      modifies this`numberForeignRecords, this`foreignRecordI, foreign
      ensures Valid()
      ensures Fifo() == Push(old(Fifo()), source, foreign.Length)
      ensures var record := Record(source, announce, portNumber);
              foreign[..] == old(foreign[..])[old(foreignRecordI) := Entry(source, 0, record)]
      ensures numberForeignRecords ==
              if old(numberForeignRecords) < foreign.Length then old(numberForeignRecords) + 1 else foreign.Length
    {
      ghost var before, count, next := foreign[..], numberForeignRecords, foreignRecordI;
      if numberForeignRecords < foreign.Length {
        numberForeignRecords := numberForeignRecords + 1;
      }
      var j := foreignRecordI;
      foreign[j] := Entry(source, 0, Record(source, announce, portNumber));
      NextOnRing(foreignRecordI, foreign.Length);
      foreignRecordI := (foreignRecordI + 1) % foreign.Length;
      InsertIsPush(before, count, next, foreign[j]);
      assert foreign[..] == before[next := foreign[next]];
      InsertKeepsDistinct(before, count, next, foreign[next]);
    }

    /** `clearForeignMasters`. */
    method ClearForeignMasters()
      requires Valid()
      modifies this, foreign
      ensures Valid() && Ready() && Fifo() == [] && recordUpdate == old(recordUpdate)
      ensures numberForeignRecords == foreignRecordI == foreignRecordBest == 0
      ensures forall k :: 0 <= k < old(numberForeignRecords) ==> foreign[k].record.receptionPort == 0
    {
      for i := 0 to numberForeignRecords
        modifies foreign
        invariant forall k :: 0 <= k < i ==> foreign[k].record.receptionPort == 0
      {
        foreign[i] := foreign[i].(record := foreign[i].record.(receptionPort := 0));
      }
      foreignRecordI := 0;
      numberForeignRecords := 0;
      foreignRecordBest := 0;
      EmptyFifo(foreign[..]);
    }

    /** The announce receipt timeout forgets all masters but not which one was best. */
    method AnnounceTimeout()
      requires Valid()
      modifies this`numberForeignRecords, this`foreignRecordI
      ensures Valid() && Ready() && Fifo() == [] && numberForeignRecords == foreignRecordI == 0
    {
      numberForeignRecords := 0;
      foreignRecordI := 0;
      EmptyFifo(foreign[..]);
    }

    /** The records in use. */
    ghost function Records(): (rs: seq<Record>)
      requires Valid()
      reads this, foreign
      ensures |rs| == numberForeignRecords
      ensures forall i :: 0 <= i < |rs| ==> rs[i] == foreign[i].record
    {
      RecordsOf(foreign[..numberForeignRecords])
    }

    /** What the scan over all ports sees of this one. */
    ghost function View(): (v: PortView)
      requires Valid() && Ready()
      reads this, foreign
      ensures ViewOk(v) && v.best == foreignRecordBest && |v.records| == numberForeignRecords
    {
      PortView(Records(), foreignRecordBest)
    }

    /** The record of the best master. */
    function Best(): Record
      requires Valid() && Ready() && numberForeignRecords > 0
      reads this, foreign
      ensures Best() == BestOf(View())
    {
      foreign[foreignRecordBest].record
    }

    /** `ErBest`; on regular records it finds the first one that no other one of the port beats. */
    method ErBest()
      requires Valid()
      modifies this`foreignRecordBest
      ensures Valid() && Ready() && Fifo() == old(Fifo()) && Records() == old(Records())
      ensures numberForeignRecords > 0 && AllRegular(Records(), clockIdentity) ==>
                FirstBest(Records(), numberForeignRecords, foreignRecordBest, clockIdentity)
      ensures foreignRecordBest == if numberForeignRecords == 0 then 0
                                   else ScanBest(Records(), numberForeignRecords, clockIdentity)
    {
      hide InOrder, Identities, Distinct, RecordsOf, Compare, AllRegular, FirstBest;
      if numberForeignRecords == 0 {
        foreignRecordBest := 0;
        return;
      }
      if AllRegular(Records(), clockIdentity) {
        ScanFindsFirstBest(Records(), numberForeignRecords, clockIdentity);
      }
      var i, best := 1, 0;
      while i < numberForeignRecords
        invariant 1 <= i <= numberForeignRecords && best == ScanBest(Records(), i, clockIdentity)
      {
        if Compare(foreign[i].record, foreign[best].record, clockIdentity) < 0 {
          best := i;
        }
        i := i + 1;
      }
      foreignRecordBest := best;
    }

    /** `handleAnnounce`: a message of the current parent is written over the best record, whichever
        master that is of; any other one goes through `addForeign`. */
    method HandleAnnounce(m: AnnounceIn)
      requires Valid() && Ready()
      modifies this, foreign
      ensures Valid() && foreignRecordBest == old(foreignRecordBest)
      ensures recordUpdate == (!Dropped(m) || old(recordUpdate))
      ensures Dropped(m) || FromParent(m) ==>
                numberForeignRecords == old(numberForeignRecords) && foreignRecordI == old(foreignRecordI)
      ensures m.fromSelf || m.portState in {W.INITIALIZING, W.FAULTY, W.DISABLED} ==> foreign[..] == old(foreign[..])
      ensures !m.fromSelf && m.portState in {W.UNCALIBRATED, W.SLAVE} && m.source == m.parent ==>
                var b := old(foreignRecordBest);
                var record := Record(m.source, m.announce, old(foreign[b]).record.receptionPort);
                foreign[..] == old(foreign[..])[b := old(foreign[b]).(record := record)]
      ensures !m.fromSelf && (m.portState in {W.LISTENING, W.PRE_MASTER, W.MASTER, W.PASSIVE}
                              || (m.portState in {W.UNCALIBRATED, W.SLAVE} && m.source != m.parent)) ==>
                Adds(m.source, m.announce)
      ensures !Dropped(m) ==>
                (FromParent(m) && numberForeignRecords == 0) || Stores(m.source, m.announce)
      ensures Fifo() == if Dropped(m) || FromParent(m) || m.source in old(Fifo()) then old(Fifo())
                        else Push(old(Fifo()), m.source, foreign.Length)
    {
      hide InOrder, Identities, Distinct, Push;
      KnownIsMember(foreign[..], numberForeignRecords, foreignRecordI, m.source);
      if m.portState in {W.INITIALIZING, W.FAULTY, W.DISABLED} || m.fromSelf {
        return;
      }
      if (m.portState == W.UNCALIBRATED || m.portState == W.SLAVE) && m.source == m.parent {
        ghost var before := foreign[..];
        var b := foreignRecordBest;
        foreign[b] := foreign[b].(record := foreign[b].record.(source := m.source, announce := m.announce));
        assert foreign[..] == before[b := foreign[b]];
        SameIdentities(before, foreign[..], numberForeignRecords, foreignRecordI);
        assert numberForeignRecords > 0 ==> Records()[b] == Record(m.source, m.announce, portNumber);
      } else {
        AddForeign(m.source, m.announce);
      }
      recordUpdate := true;
    }

    /** What a turn does before the update: a link change, a state decision, and at most one Announce. */
    method TakeEvents(linkChange: bool, decision: bool, message: Option<AnnounceIn>)
      requires Valid() && Ready()
      modifies this, foreign
      ensures Valid() && (recordUpdate || Ready())
      ensures Fifo() == TurnEffect(old(Fifo()), linkChange, message, false, foreign.Length)
      ensures !Heard(message) && !linkChange ==>
                && foreign[..] == old(foreign[..]) && numberForeignRecords == old(numberForeignRecords)
                && foreignRecordBest == old(foreignRecordBest)
      ensures linkChange && !Heard(message) ==> numberForeignRecords == 0
      ensures Heard(message) ==>
                if FromParent(message.value) && (linkChange || old(numberForeignRecords) == 0)
                then numberForeignRecords == 0
                else Stores(message.value.source, message.value.announce)
      ensures recordUpdate == (Heard(message) || (old(recordUpdate) && !decision))
    {
      hide InOrder, Identities, Distinct, Push, RecordsOf, Adds, Known;
      if linkChange {
        ClearForeignMasters();
      }
      if decision {
        recordUpdate := false;
      }
      if message.Some? {
        HandleAnnounce(message.value);
      }
    }

    /** One turn of the main loop with a single port: its events, an announce timeout, and the global
        update of the best master. Valid and Ready together are what every turn keeps, so `AddForeign`
        always finds its table ready. What was announced is in the table at the end of the turn, and on
        regular records the best index is then that of the first record that no other one beats. */
    method LoopTurn(linkChange: bool, decision: bool, message: Option<AnnounceIn>, timeout: bool)
      requires Valid() && Ready()
      modifies this, foreign
      ensures Valid() && Ready()
      ensures Fifo() == TurnEffect(old(Fifo()), linkChange, message, timeout, foreign.Length)
      ensures !Heard(message) && !linkChange ==> foreign[..] == old(foreign[..])
      ensures timeout || (linkChange && !Heard(message)) ==> numberForeignRecords == 0
      ensures Heard(message) && !timeout ==>
                if FromParent(message.value) && (linkChange || old(numberForeignRecords) == 0)
                then numberForeignRecords == 0
                else Stores(message.value.source, message.value.announce)
      ensures recordUpdate == (Heard(message) || (old(recordUpdate) && !decision))
      ensures recordUpdate && numberForeignRecords > 0 && AllRegular(Records(), clockIdentity) ==>
                FirstBest(Records(), numberForeignRecords, foreignRecordBest, clockIdentity)
    {
      hide InOrder, Identities, Distinct, Push, RecordsOf, AllRegular, FirstBest;
      TakeEvents(linkChange, decision, message);
      if timeout {
        AnnounceTimeout();
      }
      if recordUpdate {
        ErBest();
      }
    }
  }

  /** A received Announce, with the state and the current parent of the port it arrives at. */
  datatype AnnounceIn = AnnounceIn(portState: W.PtpState, parent: PortIdentity, fromSelf: bool,
                                   source: PortIdentity, announce: Announce)

  /** The port is not running, or the message is its own. */
  predicate Dropped(m: AnnounceIn) {
    m.fromSelf || m.portState in {W.INITIALIZING, W.FAULTY, W.DISABLED}
  }

  /** The port follows a master, and this is it. */
  predicate FromParent(m: AnnounceIn) {
    !Dropped(m) && m.portState in {W.UNCALIBRATED, W.SLAVE} && m.source == m.parent
  }

  predicate Heard(message: Option<AnnounceIn>) {
    message.Some? && !Dropped(message.value)
  }

  function RecordsOf(es: seq<Entry>): (rs: seq<Record>)
    ensures |rs| == |es| && forall i :: 0 <= i < |es| ==> rs[i] == es[i].record
  {
    seq(|es|, i requires 0 <= i < |es| => es[i].record)
  }

  /** What one turn of the loop does to the FIFO. */
  function TurnEffect(q: seq<PortIdentity>, linkChange: bool, message: Option<AnnounceIn>,
                      timeout: bool, max: nat): seq<PortIdentity>
    requires 0 < max
  {
    var q1 := if linkChange then [] else q;
    var q2 := if !Heard(message) || FromParent(message.value) || message.value.source in q1 then q1
              else Push(q1, message.value.source, max);
    if timeout then [] else q2
  }

  lemma EmptyFifo(es: seq<Entry>)
    requires es != []
    ensures InOrder(es, 0, 0) == []
  {
  }

  lemma SameIdentities(es: seq<Entry>, fs: seq<Entry>, count: nat, next: nat)
    requires |es| == |fs| && count <= |es| && next < |es|
    requires forall i :: 0 <= i < |es| ==> fs[i].identity == es[i].identity
    ensures Identities(fs[..count]) == Identities(es[..count])
    ensures InOrder(fs, count, next) == InOrder(es, count, next)
  {
    assert Identities(fs[next..]) == Identities(es[next..]);
    assert Identities(fs[..next]) == Identities(es[..next]);
  }

  lemma KnownIsMember(es: seq<Entry>, count: nat, next: nat, id: PortIdentity)
    requires count <= |es| && next < |es|
    ensures id in InOrder(es, count, next) <==> exists k :: 0 <= k < count && es[k].identity == id
  {
    hide Identities;
    if count == |es| {
      var q := InOrder(es, count, next);
      assert forall k :: 0 <= k < |es| ==> es[k].identity == (if next <= k then q[k - next] else q[k + |es| - next]);
      assert forall i :: 0 <= i < |q| ==> q[i] == es[if i < |es| - next then i + next else i - (|es| - next)].identity;
    } else {
      var q := InOrder(es, count, next);
      assert forall k :: 0 <= k < count ==> q[k] == es[k].identity;
    }
  }

  lemma InsertKeepsDistinct(es: seq<Entry>, count: nat, next: nat, e: Entry)
    requires next < |es| && count <= |es| && (count < |es| ==> next == count)
    requires Distinct(Identities(es[..count])) && forall k :: 0 <= k < count ==> es[k].identity != e.identity
    ensures Distinct(Identities(es[next := e][..if count < |es| then count + 1 else count]))
  {
    var fs := es[next := e][..if count < |es| then count + 1 else count];
    forall i, j | 0 <= i < j < |fs|
      ensures fs[i].identity != fs[j].identity
    {
      assert i != next && j != next ==> Identities(es[..count])[i] != Identities(es[..count])[j];
    }
  }

  /** Main result for the abstract table: a turn keeps the FIFO bounded and free of duplicates. */
  lemma TurnKeepsFifo(q: seq<PortIdentity>, linkChange: bool, message: Option<AnnounceIn>,
                      timeout: bool, max: nat)
    requires 0 < max && |q| <= max && Distinct(q)
    ensures var r := TurnEffect(q, linkChange, message, timeout, max); |r| <= max && Distinct(r)
  {
  }
}
