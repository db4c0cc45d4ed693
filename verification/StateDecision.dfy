/** The state decision algorithm (PTPWRd/bmc.c:140-301, 611-769, 823-874; section 9.3.3 of IEEE
    1588-2008, figure 26). */
module StateDecision {
  import opened CTypes
  import opened Bmc
  import opened BestScan
  import opened ForeignTable
  import Codec
  import WrFsm
  import WrCoupling

  type PtpState = WrFsm.PtpState
  type SlaveRole = WrFsm.SlaveRole

  /** Clock members used by the decision: its own attributes and the global best record. */
  datatype ClockView = ClockView(priority1: uint8, quality: ClockQuality, priority2: uint8, bestForeign: Record)

  /** Port members used by the decision. `erBest` is the best record of the port's own table. */
  datatype DecisionPort = DecisionPort(wrConfig: WrFsm.WrConfig, portState: PtpState, identity: PortIdentity,
                                       foreignCount: nat, erBest: Record)

  /** What a decision writes to the data sets (section 9.3.5 of IEEE 1588-2008). */
  datatype Action = DoM1 | DoM3 | DoP1 | DoS1 | DoS2 | DoNothing

  /** A recommendation, and the action taken on the way. */
  datatype Outcome = Outcome(state: PtpState, action: Action)
  {
    /** The slave role assigned, if any. */
    function Role(): Option<SlaveRole> {
      match action
      case DoS1 => Some(WrFsm.PrimarySlave)
      case DoS2 => Some(WrFsm.SecondarySlave)
      case DoNothing => None
      case _ => Some(WrFsm.NonSlave)
    }
  }

  /** The local clock as a record (`copyD0`). */
  function LocalRecord(c: ClockView, p: DecisionPort): Record {
    Record(p.identity, Announce(c.priority1, c.quality, c.priority2, p.identity.clockIdentity, 0, 0),
           p.identity.portNumber)
  }

  function Master(): Outcome { Outcome(WrFsm.MASTER, DoM1) }

  /** Clocks that must not be slaves: compare the local clock with the port's own best. */
  function DecideGrandmaster(c: ClockView, p: DecisionPort): Outcome {
    var cmp := Compare(LocalRecord(c, p), p.erBest, p.identity.clockIdentity);
    if cmp < 0 then Master()
    else if cmp > 0 then Outcome(WrFsm.PASSIVE, DoP1)
    else Outcome(WrFsm.PASSIVE, DoNothing)
  }

  /** Other clocks: compare with the global best, and prefer the port that received it. */
  function DecideOrdinary(c: ClockView, p: DecisionPort): Outcome {
    var cmp := Compare(LocalRecord(c, p), c.bestForeign, p.identity.clockIdentity);
    if cmp < 0 then Master()
    else if cmp == 0 then Outcome(WrFsm.PASSIVE, DoNothing)
    else if c.bestForeign.receptionPort == p.identity.portNumber then Outcome(WrFsm.SLAVE, DoS1)
    else if Compare(c.bestForeign, p.erBest, p.identity.clockIdentity) == A_BETTER_BY_TOPOLOGY then
      Outcome(WrFsm.SLAVE, DoS2)
    else Outcome(WrFsm.MASTER, DoM3)
  }

  /** `bmcStateDecision`. */
  function Decide(c: ClockView, p: DecisionPort): Outcome {
    if p.wrConfig == WrFsm.WR_S_ONLY then Outcome(WrFsm.SLAVE, DoS1)
    else if p.wrConfig == WrFsm.WR_M_ONLY then Master()
    else if p.foreignCount == 0 && p.portState == WrFsm.LISTENING then Outcome(WrFsm.LISTENING, DoNothing)
    else if c.quality.clockClass < 128 then DecideGrandmaster(c, p)
    else DecideOrdinary(c, p)
  }

  /** `bmc`: a master stays one while no port has ever heard a foreign master. */
  function Recommend(noMasters: bool, c: ClockView, p: DecisionPort): Outcome {
    if noMasters && p.portState == WrFsm.MASTER then Master() else Decide(c, p)
  }

  /** The parent members of a port that decided to be slave of `r` (`s1`). */
  function ParentOf(r: Record): WrFsm.Parent {
    Codec.ParentOf(r.announce.wrFlags)
  }

  /** What the port FSM is told (see WrFsm.Decide). */
  function ForFsm(o: Outcome, role: SlaveRole, parent: WrFsm.Parent): WrFsm.Decision {
    WrFsm.Decision(o.state, if o.Role().Some? then o.Role().value else role, parent)
  }

  /** A SLAVE recommendation always comes with a slave role; this is what the coupling of the
      state machines relies on. */
  lemma DecisionIsGood(noMasters: bool, c: ClockView, p: DecisionPort, role: SlaveRole, parent: WrFsm.Parent,
                       env: WrFsm.Env)
    requires env.decision == Some(ForFsm(Recommend(noMasters, c, p), role, parent))
    ensures WrCoupling.GoodDecision(env)
  {
  }

  // ----- the decision in terms of the attributes -----

  /** What the local clock is ranked by, most significant first: its own attributes and identity, no
      steps, and its own identity and port as sender. */
  function OwnKey(c: ClockView, p: DecisionPort): seq<int> {
    [c.priority1, c.quality.clockClass, c.quality.clockAccuracy, c.quality.variance % 256, c.priority2]
    + (p.identity.clockIdentity + ([0] + p.identity.clockIdentity + [p.identity.portNumber]))
  }

  lemma LocalRecordKey(c: ClockView, p: DecisionPort)
    ensures Key(LocalRecord(c, p)) == OwnKey(c, p)
    ensures LocalRecord(c, p).receptionPort == p.identity.portNumber
    ensures LocalRecord(c, p).announce.gmIdentity == p.identity.clockIdentity
  {
  }

  /** Neither the configuration nor an empty table settles the decision in advance. */
  predicate Open(p: DecisionPort) {
    p.wrConfig in {WrFsm.NON_WR, WrFsm.WR_M_AND_S} && !(p.foreignCount == 0 && p.portState == WrFsm.LISTENING)
  }

  /** The local clock outranks the record, seen from the port. */
  predicate OwnWins(c: ClockView, p: DecisionPort, r: Record) {
    Outranks(LocalRecord(c, p), r, p.identity.clockIdentity)
  }

  predicate OwnLoses(c: ClockView, p: DecisionPort, r: Record) {
    Outranks(r, LocalRecord(c, p), p.identity.clockIdentity)
  }

  /** Main result: for every clock and port, which of the six actions is taken, in terms of ranks, paths
      and configuration. */
  lemma ActionExactlyWhen(c: ClockView, p: DecisionPort)
    ensures var action, grandmaster := Decide(c, p).action, c.quality.clockClass < 128;
            var here := c.bestForeign.receptionPort == p.identity.portNumber;
            var behind := BetterPath(c.bestForeign, p.erBest, p.identity.clockIdentity);
            && (action.DoM1? <==> p.wrConfig == WrFsm.WR_M_ONLY
                                  || (Open(p) && OwnWins(c, p, if grandmaster then p.erBest else c.bestForeign)))
            && (action.DoS1? <==> p.wrConfig == WrFsm.WR_S_ONLY
                                  || (Open(p) && !grandmaster && OwnLoses(c, p, c.bestForeign) && here))
            && (action.DoS2? <==> Open(p) && !grandmaster && OwnLoses(c, p, c.bestForeign) && !here && behind)
            && (action.DoM3? <==> Open(p) && !grandmaster && OwnLoses(c, p, c.bestForeign) && !here && !behind)
            && (action.DoP1? <==> Open(p) && grandmaster && OwnLoses(c, p, p.erBest))
  {
    hide Compare, Outranks, BetterPath;
    var own := LocalRecord(c, p);
    CompareMeaning(own, p.erBest, p.identity.clockIdentity);
    CompareMeaning(own, c.bestForeign, p.identity.clockIdentity);
    CompareMeaning(c.bestForeign, p.erBest, p.identity.clockIdentity);
    CompareMeaning(p.erBest, own, p.identity.clockIdentity);
    CompareMeaning(c.bestForeign, own, p.identity.clockIdentity);
  }

  /** The state that comes with each action; without one, the port listens on if it has heard nobody,
      and else is passive, which takes equal records or a blind spot of the comparison. */
  lemma StateOfAction(c: ClockView, p: DecisionPort)
    ensures var o := Decide(c, p);
            && (o.state == WrFsm.SLAVE <==> o.action in {DoS1, DoS2})
            && (o.state == WrFsm.MASTER <==> o.action in {DoM1, DoM3})
            && (o.state == WrFsm.LISTENING <==> !Open(p) && o.action.DoNothing?)
            && (o.state == WrFsm.PASSIVE <==> Open(p) && o.action in {DoP1, DoNothing})
            && o.Role() == (if o.action.DoNothing? then None
                            else if o.action.DoS1? then Some(WrFsm.PrimarySlave)
                            else if o.action.DoS2? then Some(WrFsm.SecondarySlave)
                            else Some(WrFsm.NonSlave))
  {
    hide Compare;
  }

  /** A clock that must not be slave, on regular records: the port is master exactly when the attributes of
      the clock rank before those of the port's best record, and passive exactly when they do not; only
      when they rank behind it is the slave role taken away. */
  lemma GrandmasterExactlyWhen(c: ClockView, p: DecisionPort)
    requires Open(p) && c.quality.clockClass < 128
    requires Regular(LocalRecord(c, p), p.erBest, p.identity.clockIdentity)
    ensures Decide(c, p).state == WrFsm.MASTER <==> Memcmp(OwnKey(c, p), Key(p.erBest)) < 0
    ensures Decide(c, p).state == WrFsm.PASSIVE <==> Memcmp(OwnKey(c, p), Key(p.erBest)) >= 0
    ensures Decide(c, p).action.DoP1? <==> Memcmp(OwnKey(c, p), Key(p.erBest)) > 0
  {
    hide Compare, Outranks, Regular, Key, OwnKey, Decide;
    LocalRecordKey(c, p);
    OutranksByKey(LocalRecord(c, p), p.erBest, p.identity.clockIdentity);
    ActionExactlyWhen(c, p);
    StateOfAction(c, p);
  }

  /** Any other clock, on regular records: the port is passive exactly when the clock and the best of all
      ports rank equal, slave exactly when the clock ranks behind that record and the port received it or
      is only a worse path to it, and master in all other cases. */
  lemma OrdinaryExactlyWhen(c: ClockView, p: DecisionPort)
    requires Open(p) && 128 <= c.quality.clockClass
    requires Regular(LocalRecord(c, p), c.bestForeign, p.identity.clockIdentity)
    ensures var order, state := Memcmp(OwnKey(c, p), Key(c.bestForeign)), Decide(c, p).state;
            var onPath := c.bestForeign.receptionPort == p.identity.portNumber
                          || BetterPath(c.bestForeign, p.erBest, p.identity.clockIdentity);
            && (state == WrFsm.PASSIVE <==> order == 0)
            && (state == WrFsm.SLAVE <==> order > 0 && onPath)
            && (state == WrFsm.MASTER <==> order < 0 || (order > 0 && !onPath))
            && (Decide(c, p).action.DoM1? <==> order < 0)
  {
    hide Compare, Outranks, BetterPath, Regular, Key, OwnKey, Decide;
    LocalRecordKey(c, p);
    OutranksByKey(LocalRecord(c, p), c.bestForeign, p.identity.clockIdentity);
    ActionExactlyWhen(c, p);
    StateOfAction(c, p);
  }

  /** When exactly a port that is not slave-only becomes the primary slave. */
  lemma PrimarySlaveWhen(c: ClockView, p: DecisionPort)
    requires p.wrConfig != WrFsm.WR_S_ONLY
    ensures Decide(c, p).Role() == Some(WrFsm.PrimarySlave) <==>
            && Open(p) && 128 <= c.quality.clockClass
            && p.identity.portNumber == c.bestForeign.receptionPort
            && OwnLoses(c, p, c.bestForeign)
  {
    hide Compare, Outranks, BetterPath, Decide;
    ActionExactlyWhen(c, p);
  }

  /** When exactly a port becomes a secondary slave: the best of all ports was received elsewhere and
      outranks the local clock, and the port's own best is the same grandmaster on a worse path. */
  lemma SecondarySlaveWhen(c: ClockView, p: DecisionPort)
    ensures Decide(c, p).Role() == Some(WrFsm.SecondarySlave) <==>
            && Open(p) && 128 <= c.quality.clockClass
            && p.identity.portNumber != c.bestForeign.receptionPort
            && OwnLoses(c, p, c.bestForeign)
            && BetterPath(c.bestForeign, p.erBest, p.identity.clockIdentity)
  {
    hide Compare, Outranks, BetterPath, Decide;
    ActionExactlyWhen(c, p);
  }

  /** Two links to one master: with the same announce from the same sender on two ports of a clock that
      it outranks, the lower port becomes primary and the other one secondary slave. */
  lemma RedundantLinks(c: ClockView, p: DecisionPort, q: DecisionPort)
    requires Open(p) && Open(q) && 128 <= c.quality.clockClass && OwnLoses(c, p, c.bestForeign)
    requires p.identity.clockIdentity == q.identity.clockIdentity
    requires 0 < p.identity.portNumber == c.bestForeign.receptionPort < q.identity.portNumber
    requires q.erBest == c.bestForeign.(receptionPort := q.identity.portNumber)
    requires c.bestForeign.announce.gmIdentity != q.identity.clockIdentity
    ensures Decide(c, p) == Outcome(WrFsm.SLAVE, DoS1) && Decide(c, q) == Outcome(WrFsm.SLAVE, DoS2)
  {
    hide Compare, Decide, TopologyKey, QualityKey, Memcmp;
    ActionExactlyWhen(c, p);
    ActionExactlyWhen(c, q);
    StateOfAction(c, p);
    StateOfAction(c, q);
    PathOrder(c.bestForeign, q.erBest);
    MemcmpZero(c.bestForeign.source.clockIdentity, c.bestForeign.source.clockIdentity);
    assert LocalRecord(c, p).announce == LocalRecord(c, q).announce;
  }

  /** Main result: when all ports decide with the same global best record, at most one of those
      that are not slave-only becomes the primary slave, and it is the one that received that
      record. */
  lemma OnePrimarySlave(c: ClockView, ports: seq<DecisionPort>, i: nat, j: nat)
    requires i < |ports| && j < |ports|
    requires forall a, b :: 0 <= a < b < |ports| ==> ports[a].identity.portNumber != ports[b].identity.portNumber
    requires ports[i].wrConfig != WrFsm.WR_S_ONLY && ports[j].wrConfig != WrFsm.WR_S_ONLY
    requires Decide(c, ports[i]).Role() == Some(WrFsm.PrimarySlave)
    ensures ports[i].identity.portNumber == c.bestForeign.receptionPort
    ensures Decide(c, ports[j]).Role() == Some(WrFsm.PrimarySlave) ==> i == j
    ensures 128 <= c.quality.clockClass
  {
  }

  /** A grandmaster-class clock gets no slave port at all, unless the port is slave-only. */
  lemma GrandmasterHasNoSlave(c: ClockView, p: DecisionPort)
    requires p.wrConfig != WrFsm.WR_S_ONLY && c.quality.clockClass < 128
    ensures Decide(c, p).state != WrFsm.SLAVE
  {
  }

  /** Main result for a round: after `EBest`, the primary slave is the port whose own best record is
      the global best, a record that none on any port beats. */
  lemma PrimarySlaveHasBest(ports: seq<PortTable>, vs: seq<PortView>, c: ClockView, p: DecisionPort, i: nat)
    requires Represents(ports, vs) && i < |ports|
    requires forall a, b :: 0 <= a < b < |ports| ==> ports[a].portNumber != ports[b].portNumber
    requires AllPortsRegular(vs, ports[0].clockIdentity) && PortBestsCorrect(vs, ports[0].clockIdentity)
    requires IsBest(c.bestForeign, vs, ports[0].clockIdentity)
    requires p.identity.portNumber == ports[i].portNumber && p.wrConfig != WrFsm.WR_S_ONLY
    requires ports[i].numberForeignRecords > 0 ==> p.erBest == ports[i].Best()
    requires Decide(c, p).Role() == Some(WrFsm.PrimarySlave)
    ensures ports[i].numberForeignRecords > 0 && p.erBest == c.bestForeign
    ensures forall r :: InSome(r, vs) ==> !Beats(r, p.erBest, ports[0].clockIdentity)
  {
    hide Compare, PortTable.Ready;
    var e := ScanPorts(vs, |vs|, ports[0].clockIdentity).value;
    ReceivedOn(ports, vs, e);
    ScanPortsFindsBest(vs, ports[0].clockIdentity);
  }

  /** What `EBest` stores. */
  ghost predicate IsBest(r: Record, vs: seq<PortView>, receiver: ClockId)
    requires forall i :: 0 <= i < |vs| ==> ViewOk(vs[i])
  {
    var e := ScanPorts(vs, |vs|, receiver);
    e.Some? && r == BestOf(vs[e.value])
  }

  lemma ReceivedOn(ports: seq<PortTable>, vs: seq<PortView>, i: nat)
    requires Represents(ports, vs) && i < |vs| && vs[i].records != []
    ensures BestOf(vs[i]).receptionPort == ports[i].portNumber
    ensures ports[i].numberForeignRecords > 0 && BestOf(vs[i]) == ports[i].Best()
  {
    assert |vs[i].records| == ports[i].numberForeignRecords;
    assert BestOf(vs[i]) == ports[i].foreign[ports[i].foreignRecordBest].record;
  }

  // ----- the data sets -----

  class ClockDS {
    var priority1: uint8
    var quality: ClockQuality
    var priority2: uint8
    var stepsRemoved: uint16
    var parentPortIdentity: PortIdentity
    var grandmasterIdentity: ClockId
    var grandmasterQuality: ClockQuality
    var grandmasterPriority1: uint8
    var grandmasterPriority2: uint8
    var primarySlavePortNumber: uint16
    var eBest: int
    var bestForeign: Record

    ghost function View(): ClockView
      reads this
    {
      ClockView(priority1, quality, priority2, bestForeign)
    }

    /** The parent and grandmaster members describe record `r`, one step closer. */
    ghost predicate Follows(r: Record)
      reads this
    {
      && parentPortIdentity == r.source
      && grandmasterIdentity == r.announce.gmIdentity && grandmasterQuality == r.announce.quality
      && grandmasterPriority1 == r.announce.priority1 && grandmasterPriority2 == r.announce.priority2
      && stepsRemoved == (r.announce.stepsRemoved + 1) % 0x1_0000
    }

    constructor (p1: uint8, q: ClockQuality, p2: uint8, self: PortIdentity, none: Record)
      ensures View() == ClockView(p1, q, p2, none) && eBest == -1
    {
      priority1, quality, priority2 := p1, q, p2;
      stepsRemoved, parentPortIdentity := 0, self;
      grandmasterIdentity, grandmasterQuality := self.clockIdentity, q;
      grandmasterPriority1, grandmasterPriority2 := p1, p2;
      primarySlavePortNumber, eBest, bestForeign := 0, -1, none;
    }

    /** `EBest`: the ports are those of this clock, and the first one lends its identity. */
    method EBest(ports: seq<PortTable>, ghost vs: seq<PortView>)
      requires Represents(ports, vs) && exists i :: 0 <= i < |vs| && vs[i].records != []
      modifies this`eBest, this`bestForeign
      ensures ScanPorts(vs, |vs|, ports[0].clockIdentity) == Some(eBest) && bestForeign == BestOf(vs[eBest])
    {
      hide ScanPorts, Compare, PortTable.Valid, PortTable.Ready;
      var e := FirstPort(ports, vs);
      e := ScanFrom(ports, vs, e);
      var best := BestRecord(ports, vs, e);
      eBest := e;
      bestForeign := best;
    }
  }

  /** `vs` is what the scan sees of the ports. */
  ghost predicate Represents(ports: seq<PortTable>, vs: seq<PortView>)
    reads set p | p in ports, set p | p in ports :: p.foreign
  {
    && |ports| == |vs|
    && forall i :: 0 <= i < |vs| ==>
         ViewOk(vs[i]) && ports[i].Valid() && ports[i].Ready() && ports[i].View() == vs[i]
  }

  /** The first loop of `EBest`: the first port with a foreign master. */
  method FirstPort(ports: seq<PortTable>, ghost vs: seq<PortView>) returns (e: nat)
    requires Represents(ports, vs) && exists i :: 0 <= i < |vs| && vs[i].records != []
    ensures e < |vs| && ScanPorts(vs, e + 1, ports[0].clockIdentity) == Some(e as nat)
  {
    e := 0;
    while e < |ports| && ports[e].numberForeignRecords == 0
      invariant e <= |ports| && forall k :: 0 <= k < e ==> vs[k].records == []
    {
      assert |vs[e].records| == 0;
      e := e + 1;
    }
    assert e < |vs| ==> vs[e].records != [];
    FirstNonEmpty(vs, e, ports[0].clockIdentity);
  }

  /** The second loop of `EBest`: compare the bests of the later ports. */
  method ScanFrom(ports: seq<PortTable>, ghost vs: seq<PortView>, first: nat) returns (e: nat)
    requires Represents(ports, vs) && first < |vs|
    requires ScanPorts(vs, first + 1, ports[0].clockIdentity) == Some(first as nat)
    ensures e < |vs| && vs[e].records != [] && ScanPorts(vs, |vs|, ports[0].clockIdentity) == Some(e as nat)
  {
    hide Compare, BestOf, PortTable.Valid, PortTable.Ready;
    e := first;
    var i := e + 1;
    while i < |ports|
      invariant i <= |ports| && e < |ports| && ScanPorts(vs, i, ports[0].clockIdentity) == Some(e as nat)
    {
      if ports[i].numberForeignRecords > 0 {
        assert |vs[i].records| > 0;
        var ri := BestRecord(ports, vs, i);
        var rb := BestRecord(ports, vs, e);
        if Compare(ri, rb, ports[0].clockIdentity) < 0 {
          e := i;
        }
      } else {
        assert |vs[i].records| == 0;
      }
      i := i + 1;
    }
  }

  /** `ptpPortDS[i].foreign[ptpPortDS[i].foreign_record_best]`. */
  method BestRecord(ports: seq<PortTable>, ghost vs: seq<PortView>, i: nat) returns (r: Record)
    requires Represents(ports, vs) && i < |vs| && vs[i].records != []
    ensures r == BestOf(vs[i])
  {
    r := ports[i].Best();
  }

  /** The scan keeps the first non-empty port until one beats it. */
  lemma {:induction false} FirstNonEmpty(vs: seq<PortView>, e: nat, receiver: ClockId)
    requires e < |vs| && vs[e].records != [] && forall i :: 0 <= i < |vs| ==> ViewOk(vs[i])
    requires forall k :: 0 <= k < e ==> vs[k].records == []
    ensures ScanPorts(vs, e + 1, receiver) == Some(e)
  {
    assert ScanPorts(vs, e, receiver).None?;
  }

  class BmcPort {
    const clock: ClockDS
    var wrConfig: WrFsm.WrConfig
    var portState: PtpState
    var identity: PortIdentity
    var foreignCount: nat
    var wrModeOn: bool
    var calibrated: bool
    var parent: WrFsm.Parent
    var wrSlaveRole: SlaveRole
    var secondaryMaster: PortIdentity

    constructor (clock: ClockDS, wrConfig: WrFsm.WrConfig, identity: PortIdentity)
      ensures this.clock == clock && this.wrConfig == wrConfig && this.identity == identity
    {
      this.clock, this.wrConfig, this.identity := clock, wrConfig, identity;
      portState, foreignCount, wrModeOn, calibrated := WrFsm.INITIALIZING, 0, false, false;
      parent, wrSlaveRole, secondaryMaster := WrFsm.Parent(WrFsm.NON_WR, false, false), WrFsm.NonSlave, identity;
    }

    ghost function View(erBest: Record): DecisionPort
      reads this
    {
      DecisionPort(wrConfig, portState, identity, foreignCount, erBest)
    }

    /** What an action leaves in the data sets: parent, role, secondary master and primary slave port. */
    twostate predicate Does(action: Action, erBest: Record)
      reads this, clock
    {
      && parent == (match action
                    case DoM1 => WrFsm.Parent(wrConfig, wrModeOn, calibrated)
                    case DoS1 => ParentOf(erBest)
                    case _ => old(parent))
      && wrSlaveRole == (var role := Outcome(portState, action).Role();
                         if role.Some? then role.value else old(wrSlaveRole))
      && secondaryMaster == (if action.DoS2? then erBest.source else old(secondaryMaster))
      && clock.primarySlavePortNumber == (match action
                                          case DoM1 => 0
                                          case DoS1 => identity.portNumber
                                          case _ => old(clock.primarySlavePortNumber))
      && (action.DoS1? ==> clock.Follows(erBest))
    }

    method M1()
      modifies this`parent, this`wrSlaveRole, clock`primarySlavePortNumber
      ensures parent == WrFsm.Parent(wrConfig, wrModeOn, calibrated) && wrSlaveRole == WrFsm.NonSlave
      ensures clock.primarySlavePortNumber == 0
    {
      parent := WrFsm.Parent(wrConfig, wrModeOn, calibrated);
      wrSlaveRole := WrFsm.NonSlave;
      clock.primarySlavePortNumber := 0;
    }

    method S1(r: Record)
      modifies this`parent, this`wrSlaveRole, clock`stepsRemoved, clock`parentPortIdentity, clock`grandmasterIdentity,
               clock`grandmasterQuality, clock`grandmasterPriority1, clock`grandmasterPriority2,
               clock`primarySlavePortNumber
      ensures clock.Follows(r) && parent == ParentOf(r) && wrSlaveRole == WrFsm.PrimarySlave
      ensures forall w :: r.announce.wrFlags == Codec.WrFlags(w) ==> parent == w
      ensures clock.primarySlavePortNumber == identity.portNumber
    {
      clock.stepsRemoved := (r.announce.stepsRemoved + 1) % 0x1_0000;
      clock.parentPortIdentity := r.source;
      clock.grandmasterIdentity := r.announce.gmIdentity;
      clock.grandmasterQuality := r.announce.quality;
      clock.grandmasterPriority1 := r.announce.priority1;
      clock.grandmasterPriority2 := r.announce.priority2;
      parent := ParentOf(r);
      forall w | r.announce.wrFlags == Codec.WrFlags(w) ensures parent == w { Codec.FlagsRoundTrip(w); }
      clock.primarySlavePortNumber := identity.portNumber;
      wrSlaveRole := WrFsm.PrimarySlave;
    }

    method S2(r: Record)
      modifies this`wrSlaveRole, this`secondaryMaster
      ensures wrSlaveRole == WrFsm.SecondarySlave && secondaryMaster == r.source
    {
      wrSlaveRole := WrFsm.SecondarySlave;
      secondaryMaster := r.source;
    }

    /** `bmc`: while no port has heard a foreign master, a master stays one. */
    method Bmc(erBest: Record) returns (state: PtpState)
      modifies this`parent, this`wrSlaveRole, this`secondaryMaster, clock
      ensures old(clock.eBest) < 0 && old(portState) == WrFsm.MASTER ==> state == WrFsm.MASTER && Does(DoM1, erBest)
      ensures 0 <= old(clock.eBest) || old(portState) != WrFsm.MASTER ==>
                var o := Decide(old(clock.View()), old(View(erBest))); state == o.state && Does(o.action, erBest)
      ensures var o := Recommend(old(clock.eBest) < 0, old(clock.View()), old(View(erBest)));
              && state == o.state && Does(o.action, erBest)
              && ForFsm(o, old(wrSlaveRole), parent) == WrFsm.Decision(state, wrSlaveRole, parent)
      ensures clock.View() == old(clock.View()) && clock.eBest == old(clock.eBest)
    {
      if clock.eBest < 0 && portState == WrFsm.MASTER {
        M1();
        return portState;
      }
      state := BmcStateDecision(erBest);
    }

    /** The decision event of a port after `EBest`: a port that becomes primary slave makes its clock
        follow a record that no record on any port beats. */
    method BmcRound(ports: seq<PortTable>, ghost vs: seq<PortView>, i: nat) returns (state: PtpState)
      requires Represents(ports, vs) && i < |ports|
      requires forall a, b :: 0 <= a < b < |ports| ==> ports[a].portNumber != ports[b].portNumber
      requires AllPortsRegular(vs, ports[0].clockIdentity) && PortBestsCorrect(vs, ports[0].clockIdentity)
      requires IsBest(clock.bestForeign, vs, ports[0].clockIdentity) && 0 <= clock.eBest
      requires identity.portNumber == ports[i].portNumber && wrConfig != WrFsm.WR_S_ONLY
      modifies this`parent, this`wrSlaveRole, this`secondaryMaster, clock
      ensures var erBest := ports[i].foreign[ports[i].foreignRecordBest].record;
              var o := Decide(old(clock.View()), old(View(erBest)));
              && state == o.state && Does(o.action, erBest)
              && (o.action.DoS1? ==>
                    && clock.Follows(clock.bestForeign)
                    && forall r :: InSome(r, vs) ==> !Beats(r, clock.bestForeign, ports[0].clockIdentity))
      ensures clock.bestForeign == old(clock.bestForeign)
    {
      hide Decide, Compare;
      var erBest := ports[i].foreign[ports[i].foreignRecordBest].record;
      ghost var c, p := clock.View(), View(erBest);
      if Decide(c, p).Role() == Some(WrFsm.PrimarySlave) {
        PrimarySlaveHasBest(ports, vs, c, p, i);
      }
      state := Bmc(erBest);
    }

    /** `bmcStateDecision`; `erBest` is the best record of the port's table. */
    method BmcStateDecision(erBest: Record) returns (state: PtpState)
      modifies this`parent, this`wrSlaveRole, this`secondaryMaster, clock
      ensures var o := Decide(old(clock.View()), old(View(erBest))); state == o.state && Does(o.action, erBest)
      ensures clock.View() == old(clock.View()) && clock.eBest == old(clock.eBest)
    {
      hide Compare;
      if wrConfig == WrFsm.WR_S_ONLY {
        S1(erBest);
        return WrFsm.SLAVE;
      }
      if wrConfig == WrFsm.WR_M_ONLY {
        M1();
        return WrFsm.MASTER;
      }
      if foreignCount == 0 && portState == WrFsm.LISTENING {
        return WrFsm.LISTENING;
      }
      var d0 := CopyD0(erBest);
      if clock.quality.clockClass < 128 {
        state := GrandmasterDecision(d0, erBest);
      } else {
        state := OrdinaryDecision(d0, erBest);
      }
    }

    /** The branch for clocks that must not be slaves. */
    method GrandmasterDecision(d0: Record, erBest: Record) returns (state: PtpState)
      requires d0 == LocalRecord(clock.View(), View(erBest))
      modifies this`parent, this`wrSlaveRole, clock`primarySlavePortNumber
      ensures var o := DecideGrandmaster(old(clock.View()), old(View(erBest)));
              state == o.state && Does(o.action, erBest)
    {
      hide Compare;
      var comp := Compare(d0, erBest, identity.clockIdentity);
      if comp < 0 {
        M1();
        return WrFsm.MASTER;
      } else if comp > 0 {
        wrSlaveRole := WrFsm.NonSlave;
        return WrFsm.PASSIVE;
      }
      return WrFsm.PASSIVE;
    }

    /** The branch for all others. */
    method OrdinaryDecision(d0: Record, erBest: Record) returns (state: PtpState)
      requires d0 == LocalRecord(clock.View(), View(erBest))
      modifies this`parent, this`wrSlaveRole, this`secondaryMaster, clock
      ensures var o := DecideOrdinary(old(clock.View()), old(View(erBest)));
              state == o.state && Does(o.action, erBest)
      ensures clock.View() == old(clock.View()) && clock.eBest == old(clock.eBest)
    {
      hide Compare;
      var comp := Compare(d0, clock.bestForeign, identity.clockIdentity);
      if comp < 0 {
        M1();
        return WrFsm.MASTER;
      } else if comp > 0 {
        if clock.bestForeign.receptionPort == identity.portNumber {
          S1(erBest);
          return WrFsm.SLAVE;
        }
        comp := Compare(clock.bestForeign, erBest, identity.clockIdentity);
        if comp == A_BETTER_BY_TOPOLOGY {
          S2(erBest);
          return WrFsm.SLAVE;
        }
        wrSlaveRole := WrFsm.NonSlave;
        return WrFsm.MASTER;
      }
      return WrFsm.PASSIVE;
    }

    /** `copyD0`. */
    method CopyD0(ghost erBest: Record) returns (d0: Record)
      ensures d0 == LocalRecord(clock.View(), View(erBest))
    {
      d0 := Record(identity, Announce(clock.priority1, clock.quality, clock.priority2, identity.clockIdentity, 0, 0),
                   identity.portNumber);
    }
  }
}
