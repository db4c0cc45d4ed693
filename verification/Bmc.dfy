/** Data set comparison (PTPWRd/bmc.c:316-604; section 9.3.4 of IEEE 1588-2008, figures 27 and
    28) and what it means. */
module Bmc {
  import opened CTypes

  type ClockId = s: seq<uint8> | |s| == 8 witness [0, 0, 0, 0, 0, 0, 0, 0]

  datatype ClockQuality = ClockQuality(clockClass: uint8, clockAccuracy: uint8, variance: uint16)

  datatype Announce = Announce(priority1: uint8, quality: ClockQuality, priority2: uint8, gmIdentity: ClockId,
                               stepsRemoved: uint16, wrFlags: uint8)

  datatype PortIdentity = PortIdentity(clockIdentity: ClockId, portNumber: uint16)

  /** A foreign master record; reception port 0 marks an empty one. */
  datatype Record = Record(source: PortIdentity, announce: Announce, receptionPort: uint16)

  const A_BETTER_BY_TOPOLOGY: int := -2
  const A_BETTER: int := -1
  const EQUAL_OR_ERROR: int := 0
  const B_BETTER: int := 1
  const B_BETTER_BY_TOPOLOGY: int := 2

  /** C's `memcmp`, reduced to its sign. */
  function Memcmp(a: seq<int>, b: seq<int>): (r: int)
    requires |a| == |b|
    ensures r in {-1, 0, 1}
    decreases |a|
  {
    if a == [] then 0
    else if a[0] < b[0] then -1
    else if a[0] > b[0] then 1
    else Memcmp(a[1..], b[1..])
  }

  function CompareBytes(a: int, b: int): int {
    if a < b then A_BETTER else if a > b then B_BETTER else EQUAL_OR_ERROR
  }

  /** The variance is compared by its first byte in memory only, on a little-endian host. */
  function FirstByte(v: uint16): uint8 {
    v % 256
  }

  /** Different grandmasters: figure 27. */
  function CompareQuality(a: Announce, b: Announce): int {
    if a.priority1 != b.priority1 then CompareBytes(a.priority1, b.priority1)
    else if a.quality.clockClass != b.quality.clockClass then
              CompareBytes(a.quality.clockClass, b.quality.clockClass)
    else if a.quality.clockAccuracy != b.quality.clockAccuracy then
      CompareBytes(a.quality.clockAccuracy, b.quality.clockAccuracy)
    else if a.quality.variance != b.quality.variance then
      CompareBytes(FirstByte(a.quality.variance), FirstByte(b.quality.variance))
    else if a.priority2 != b.priority2 then CompareBytes(a.priority2, b.priority2)
    else Memcmp(a.gmIdentity, b.gmIdentity)
  }

  /** Same grandmaster: figure 28. `receiver` is the identity of the port that compares. */
  function CompareTopology(a: Record, b: Record, receiver: ClockId): int {
    var sa, sb := a.announce.stepsRemoved, b.announce.stepsRemoved;
    if sa > sb + 1 then B_BETTER
    else if sb > sa + 1 then A_BETTER
    else if sa > sb then
      var c := Memcmp(a.source.clockIdentity, receiver);
      if c == 0 then EQUAL_OR_ERROR else if c > 0 then B_BETTER else B_BETTER_BY_TOPOLOGY
    else if sb > sa then
      var c := Memcmp(b.source.clockIdentity, receiver);
      if c == 0 then EQUAL_OR_ERROR else if c > 0 then A_BETTER else A_BETTER_BY_TOPOLOGY
    else
      var c := Memcmp(a.source.clockIdentity, b.source.clockIdentity);
      if c == 0 then
        if a.receptionPort < b.receptionPort then A_BETTER_BY_TOPOLOGY
        else if a.receptionPort > b.receptionPort then B_BETTER_BY_TOPOLOGY
        else EQUAL_OR_ERROR
      else if c < 0 then A_BETTER_BY_TOPOLOGY
      else B_BETTER_BY_TOPOLOGY
  }

  /** `bmcDataSetComparison`. */
  function Compare(a: Record, b: Record, receiver: ClockId): int {
    if a.receptionPort == 0 && b.receptionPort == 0 then EQUAL_OR_ERROR
    else if b.receptionPort == 0 then A_BETTER
    else if a.receptionPort == 0 then B_BETTER
    else if Memcmp(a.announce.gmIdentity, b.announce.gmIdentity) == 0 then CompareTopology(a, b, receiver)
    else CompareQuality(a.announce, b.announce)
  }

  function Sign(x: int): int {
    if x < 0 then -1 else if x > 0 then 1 else 0
  }

  // ----- Memcmp is a total order -----

  lemma {:induction false} MemcmpAntisymmetric(a: seq<int>, b: seq<int>)
    requires |a| == |b|
    ensures Memcmp(b, a) == -Memcmp(a, b)
    decreases |a|
  {
    if a != [] {
      MemcmpAntisymmetric(a[1..], b[1..]);
    }
  }

  lemma {:induction false} MemcmpZero(a: seq<int>, b: seq<int>)
    requires |a| == |b|
    ensures Memcmp(a, b) == 0 <==> a == b
    decreases |a|
  {
    if a != [] {
      MemcmpZero(a[1..], b[1..]);
      assert a == [a[0]] + a[1..] && b == [b[0]] + b[1..];
    }
  }

  lemma {:induction false} MemcmpTransitive(a: seq<int>, b: seq<int>, c: seq<int>)
    requires |a| == |b| == |c| && Memcmp(a, b) <= 0 && Memcmp(b, c) <= 0
    ensures Memcmp(a, c) <= 0
    ensures Memcmp(a, b) < 0 || Memcmp(b, c) < 0 ==> Memcmp(a, c) < 0
    decreases |a|
  {
    if a != [] && a[0] == b[0] == c[0] {
      MemcmpTransitive(a[1..], b[1..], c[1..]);
    }
  }

  /** A common prefix does not matter, and a differing one decides. */
  lemma {:induction false} MemcmpConcat(p: seq<int>, q: seq<int>, a: seq<int>, b: seq<int>)
    requires |p| == |q| && |a| == |b|
    ensures Memcmp(p + a, q + b) == if Memcmp(p, q) != 0 then Memcmp(p, q) else Memcmp(a, b)
    decreases |p|
  {
    if p == [] {
      assert p + a == a && q + b == b;
    } else {
      assert (p + a)[1..] == p[1..] + a && (q + b)[1..] == q[1..] + b;
      MemcmpConcat(p[1..], q[1..], a, b);
    }
  }

  // ----- the comparison as a lexicographic order -----

  /** Quality attributes in the order in which they count. */
  function QualityKey(a: Announce): seq<int> {
    [a.priority1, a.quality.clockClass, a.quality.clockAccuracy, FirstByte(a.quality.variance), a.priority2]
  }

  function TopologyKey(r: Record): seq<int> {
    [r.announce.stepsRemoved] + r.source.clockIdentity + [r.receptionPort]
  }

  /** What a record is ranked by, most significant first. */
  function Key(r: Record): (k: seq<int>)
    ensures |k| == 23
  {
    QualityKey(r.announce) + (r.announce.gmIdentity + TopologyKey(r))
  }

  /** One grandmaster is always announced with the same attributes. */
  predicate SameMasterSameQuality(a: Record, b: Record) {
    a.announce.gmIdentity == b.announce.gmIdentity ==> QualityKey(a.announce) == QualityKey(b.announce)
  }

  /** Two different variances that the byte comparison cannot tell apart decide the comparison. */
  predicate VarianceBlind(a: Announce, b: Announce) {
    && a.gmIdentity != b.gmIdentity
    && a.priority1 == b.priority1
    && a.quality.clockClass == b.quality.clockClass
    && a.quality.clockAccuracy == b.quality.clockAccuracy
    && a.quality.variance != b.quality.variance
    && FirstByte(a.quality.variance) == FirstByte(b.quality.variance)
  }

  /** The record that is one step further away was sent by the comparing clock itself. */
  predicate OwnEcho(a: Record, b: Record, receiver: ClockId) {
    && a.announce.gmIdentity == b.announce.gmIdentity
    && ((a.announce.stepsRemoved == b.announce.stepsRemoved + 1 && a.source.clockIdentity == receiver)
        || (b.announce.stepsRemoved == a.announce.stepsRemoved + 1 && b.source.clockIdentity == receiver))
  }

  lemma TopologyIsLexicographic(a: Record, b: Record, receiver: ClockId)
    requires a.announce.gmIdentity == b.announce.gmIdentity
    ensures Sign(CompareTopology(a, b, receiver)) == Memcmp(TopologyKey(a), TopologyKey(b))
            <==> !OwnEcho(a, b, receiver)
  {
    var sa, sb := [a.announce.stepsRemoved as int], [b.announce.stepsRemoved as int];
    var ra, rb := [a.receptionPort as int], [b.receptionPort as int];
    MemcmpConcat(sa + a.source.clockIdentity, sb + b.source.clockIdentity, ra, rb);
    MemcmpConcat(sa, sb, a.source.clockIdentity, b.source.clockIdentity);
    assert sa[1..] == [] && sb[1..] == [] && ra[1..] == [] && rb[1..] == [];
    MemcmpZero(a.source.clockIdentity, receiver);
    MemcmpZero(b.source.clockIdentity, receiver);
  }

  lemma QualityKeyOrder(a: Announce, b: Announce)
    ensures Memcmp(QualityKey(a), QualityKey(b)) ==
            if a.priority1 != b.priority1 then CompareBytes(a.priority1, b.priority1)
            else if a.quality.clockClass != b.quality.clockClass then
              CompareBytes(a.quality.clockClass, b.quality.clockClass)
            else if a.quality.clockAccuracy != b.quality.clockAccuracy then
              CompareBytes(a.quality.clockAccuracy, b.quality.clockAccuracy)
            else if FirstByte(a.quality.variance) != FirstByte(b.quality.variance) then
              CompareBytes(FirstByte(a.quality.variance), FirstByte(b.quality.variance))
            else CompareBytes(a.priority2, b.priority2)
  {
    var p, q := a.quality, b.quality;
    MemcmpCons(a.priority2, [], b.priority2, []);
    MemcmpCons(FirstByte(p.variance), [a.priority2], FirstByte(q.variance), [b.priority2]);
    MemcmpCons(p.clockAccuracy, [FirstByte(p.variance), a.priority2],
               q.clockAccuracy, [FirstByte(q.variance), b.priority2]);
    MemcmpCons(p.clockClass, [p.clockAccuracy, FirstByte(p.variance), a.priority2],
               q.clockClass, [q.clockAccuracy, FirstByte(q.variance), b.priority2]);
    MemcmpCons(a.priority1, [p.clockClass, p.clockAccuracy, FirstByte(p.variance), a.priority2],
               b.priority1, [q.clockClass, q.clockAccuracy, FirstByte(q.variance), b.priority2]);
  }

  lemma MemcmpCons(x: int, a: seq<int>, y: int, b: seq<int>)
    requires |a| == |b|
    ensures Memcmp([x] + a, [y] + b) == if x != y then CompareBytes(x, y) else Memcmp(a, b)
  {
    assert ([x] + a)[1..] == a && ([y] + b)[1..] == b;
  }

  lemma QualityIsLexicographic(a: Announce, b: Announce)
    requires a.gmIdentity != b.gmIdentity
    ensures CompareQuality(a, b) == Memcmp(QualityKey(a) + a.gmIdentity, QualityKey(b) + b.gmIdentity)
            <==> !VarianceBlind(a, b)
  {
    MemcmpConcat(QualityKey(a), QualityKey(b), a.gmIdentity, b.gmIdentity);
    QualityKeyOrder(a, b);
    MemcmpZero(a.gmIdentity, b.gmIdentity);
  }

  /** Main result: for non-empty records, the sign of the comparison is the lexicographic order of
      the keys exactly when neither of the two blind spots of the code is hit. */
  lemma CompareIsLexicographic(a: Record, b: Record, receiver: ClockId)
    requires a.receptionPort != 0 && b.receptionPort != 0 && SameMasterSameQuality(a, b)
    ensures Sign(Compare(a, b, receiver)) == Memcmp(Key(a), Key(b))
            <==> !VarianceBlind(a.announce, b.announce) && !OwnEcho(a, b, receiver)
  {
    var qa, qb := QualityKey(a.announce), QualityKey(b.announce);
    var ga, gb := a.announce.gmIdentity, b.announce.gmIdentity;
    MemcmpConcat(qa, qb, ga + TopologyKey(a), gb + TopologyKey(b));
    MemcmpConcat(ga, gb, TopologyKey(a), TopologyKey(b));
    MemcmpConcat(qa, qb, ga, gb);
    MemcmpZero(ga, gb);
    MemcmpZero(qa, qb);
    if ga == gb {
      TopologyIsLexicographic(a, b, receiver);
    } else {
      QualityIsLexicographic(a.announce, b.announce);
    }
  }

  // ----- the comparison in terms of the attributes alone -----

  /** The order of two records: quality and identity of different grandmasters, or else the path to
      the same one by steps, sender and reception port. */
  function Rank(a: Record, b: Record): int {
    if a.announce.gmIdentity == b.announce.gmIdentity then Memcmp(TopologyKey(a), TopologyKey(b))
    else Memcmp(QualityKey(a.announce) + a.announce.gmIdentity, QualityKey(b.announce) + b.announce.gmIdentity)
  }

  /** `a` is a record, and `b` is empty or ranks behind it outside the blind spots. */
  predicate Outranks(a: Record, b: Record, receiver: ClockId) {
    && a.receptionPort != 0
    && (b.receptionPort == 0
        || (Rank(a, b) < 0 && !VarianceBlind(a.announce, b.announce) && !OwnEcho(a, b, receiver)))
  }

  /** `a` and `b` lead to one grandmaster, and only the path decides for `a`: as many steps from a smaller
      sender or on a smaller port, or one step less than a record whose sender is below the receiver. */
  predicate BetterPath(a: Record, b: Record, receiver: ClockId) {
    && a.receptionPort != 0 && b.receptionPort != 0
    && a.announce.gmIdentity == b.announce.gmIdentity
    && ((a.announce.stepsRemoved == b.announce.stepsRemoved
         && Memcmp(a.source.clockIdentity + [a.receptionPort], b.source.clockIdentity + [b.receptionPort]) < 0)
        || (b.announce.stepsRemoved == a.announce.stepsRemoved + 1 && Memcmp(b.source.clockIdentity, receiver) < 0))
  }

  lemma EmptyRecords(a: Record, b: Record, receiver: ClockId)
    requires a.receptionPort == 0 || b.receptionPort == 0
    ensures Compare(a, b, receiver) == if Outranks(a, b, receiver) then A_BETTER
                                       else if Outranks(b, a, receiver) then B_BETTER else EQUAL_OR_ERROR
    ensures !BetterPath(a, b, receiver) && !BetterPath(b, a, receiver)
  {
  }

  lemma RankAntisymmetric(a: Record, b: Record)
    ensures Rank(b, a) == -Rank(a, b)
  {
    MemcmpAntisymmetric(TopologyKey(a), TopologyKey(b));
    MemcmpAntisymmetric(QualityKey(a.announce) + a.announce.gmIdentity, QualityKey(b.announce) + b.announce.gmIdentity);
  }

  /** Different grandmasters. */
  lemma QualityMeaning(a: Record, b: Record, receiver: ClockId)
    requires a.receptionPort != 0 && b.receptionPort != 0 && a.announce.gmIdentity != b.announce.gmIdentity
    ensures Compare(a, b, receiver) == if Outranks(a, b, receiver) then A_BETTER
                                       else if Outranks(b, a, receiver) then B_BETTER else EQUAL_OR_ERROR
  {
    MemcmpZero(a.announce.gmIdentity, b.announce.gmIdentity);
    MemcmpZero(QualityKey(a.announce) + a.announce.gmIdentity, QualityKey(b.announce) + b.announce.gmIdentity);
    QualityIsLexicographic(a.announce, b.announce);
    RankAntisymmetric(a, b);
    CompareAntisymmetric(a, b, receiver);
  }

  /** The path part of the topology key. */
  lemma PathOrder(a: Record, b: Record)
    ensures var c, d := Memcmp(a.source.clockIdentity, b.source.clockIdentity), a.receptionPort - b.receptionPort;
            var path := Memcmp(a.source.clockIdentity + [a.receptionPort], b.source.clockIdentity + [b.receptionPort]);
            && path == (if c != 0 then c else Sign(d))
            && Memcmp(TopologyKey(a), TopologyKey(b)) ==
               (if a.announce.stepsRemoved != b.announce.stepsRemoved
                then Sign(a.announce.stepsRemoved - b.announce.stepsRemoved) else path)
  {
    var pa, pb := a.source.clockIdentity + [a.receptionPort], b.source.clockIdentity + [b.receptionPort];
    MemcmpConcat(a.source.clockIdentity, b.source.clockIdentity, [a.receptionPort], [b.receptionPort]);
    MemcmpCons(a.receptionPort, [], b.receptionPort, []);
    MemcmpCons(a.announce.stepsRemoved, pa, b.announce.stepsRemoved, pb);
    assert [a.receptionPort] + [] == [a.receptionPort] && [b.receptionPort] + [] == [b.receptionPort];
    assert TopologyKey(a) == [a.announce.stepsRemoved] + pa && TopologyKey(b) == [b.announce.stepsRemoved] + pb;
  }

  /** One grandmaster. */
  lemma TopologyMeaning(a: Record, b: Record, receiver: ClockId)
    requires a.receptionPort != 0 && b.receptionPort != 0 && a.announce.gmIdentity == b.announce.gmIdentity
    ensures Compare(a, b, receiver) == if BetterPath(a, b, receiver) then A_BETTER_BY_TOPOLOGY
                                       else if Outranks(a, b, receiver) then A_BETTER
                                       else if BetterPath(b, a, receiver) then B_BETTER_BY_TOPOLOGY
                                       else if Outranks(b, a, receiver) then B_BETTER
                                       else EQUAL_OR_ERROR
  {
    hide TopologyKey, Memcmp;
    MemcmpZero(a.announce.gmIdentity, b.announce.gmIdentity);
    MemcmpZero(a.source.clockIdentity, receiver);
    MemcmpZero(b.source.clockIdentity, receiver);
    MemcmpAntisymmetric(a.source.clockIdentity, b.source.clockIdentity);
    PathOrder(a, b);
    PathOrder(b, a);
  }

  /** Main result: the exact answer for any two records, empty ones and blind spots included, in terms of
      their attributes: by topology for a better path, otherwise by rank, and no answer for equals. */
  lemma CompareMeaning(a: Record, b: Record, receiver: ClockId)
    ensures Compare(a, b, receiver) == if BetterPath(a, b, receiver) then A_BETTER_BY_TOPOLOGY
                                       else if Outranks(a, b, receiver) then A_BETTER
                                       else if BetterPath(b, a, receiver) then B_BETTER_BY_TOPOLOGY
                                       else if Outranks(b, a, receiver) then B_BETTER
                                       else EQUAL_OR_ERROR
    ensures !(Outranks(a, b, receiver) && Outranks(b, a, receiver))
    ensures BetterPath(a, b, receiver) ==> Outranks(a, b, receiver)
  {
    hide Compare, Rank;
    RankAntisymmetric(a, b);
    PathIsRank(a, b, receiver);
    if a.receptionPort == 0 || b.receptionPort == 0 {
      EmptyRecords(a, b, receiver);
    } else if a.announce.gmIdentity == b.announce.gmIdentity {
      TopologyMeaning(a, b, receiver);
    } else {
      QualityMeaning(a, b, receiver);
    }
  }

  /** The two answers by topology, for records that are not empty: the grandmaster is the same, and
      either the steps are equal and sender or reception port differ, or the steps differ by one and the
      further record was sent by a clock below the receiver. */
  lemma ByTopologyExactlyWhen(a: Record, b: Record, receiver: ClockId)
    requires a.receptionPort != 0 && b.receptionPort != 0
    ensures Compare(a, b, receiver) in {A_BETTER_BY_TOPOLOGY, B_BETTER_BY_TOPOLOGY} <==>
            var sa, sb := a.announce.stepsRemoved, b.announce.stepsRemoved;
            && a.announce.gmIdentity == b.announce.gmIdentity
            && (|| (sa == sb && a.source.clockIdentity != b.source.clockIdentity)
                || (sa == sb && a.receptionPort != b.receptionPort)
                || (sb == sa + 1 && Memcmp(b.source.clockIdentity, receiver) < 0)
                || (sa == sb + 1 && Memcmp(a.source.clockIdentity, receiver) < 0))
  {
    hide Compare, Rank, Outranks;
    CompareMeaning(a, b, receiver);
    CompareMeaning(b, a, receiver);
    PathOrder(a, b);
    PathOrder(b, a);
    MemcmpZero(a.source.clockIdentity, b.source.clockIdentity);
    MemcmpAntisymmetric(a.source.clockIdentity, b.source.clockIdentity);
  }

  lemma PathIsRank(a: Record, b: Record, receiver: ClockId)
    ensures BetterPath(a, b, receiver) ==> Outranks(a, b, receiver)
  {
    hide TopologyKey;
    PathOrder(a, b);
    MemcmpZero(b.source.clockIdentity, receiver);
  }

  /** On regular records outranking is the lexicographic order of the keys. */
  lemma OutranksByKey(a: Record, b: Record, receiver: ClockId)
    requires Regular(a, b, receiver)
    ensures Outranks(a, b, receiver) <==> Memcmp(Key(a), Key(b)) < 0
    ensures Outranks(b, a, receiver) <==> Memcmp(Key(a), Key(b)) > 0
  {
    hide Compare, Rank, BetterPath;
    CompareMeaning(a, b, receiver);
    CompareMeaning(b, a, receiver);
    CompareIsLexicographic(a, b, receiver);
  }

  /** Swapping the records negates the result, for any records whatever. */
  lemma CompareAntisymmetric(a: Record, b: Record, receiver: ClockId)
    ensures Compare(b, a, receiver) == -Compare(a, b, receiver)
  {
    MemcmpAntisymmetric(a.announce.gmIdentity, b.announce.gmIdentity);
    MemcmpAntisymmetric(a.source.clockIdentity, b.source.clockIdentity);
  }

  /** Two records on which the comparison is sound. */
  predicate Regular(a: Record, b: Record, receiver: ClockId) {
    && a.receptionPort != 0 && b.receptionPort != 0 && SameMasterSameQuality(a, b)
    && !VarianceBlind(a.announce, b.announce) && !OwnEcho(a, b, receiver)
  }

  /** On regular records "not worse than" is transitive, and strictly so if one step is strict. */
  lemma CompareTransitive(a: Record, b: Record, c: Record, receiver: ClockId)
    requires Regular(a, b, receiver) && Regular(b, c, receiver) && Regular(a, c, receiver)
    requires Compare(a, b, receiver) <= 0 && Compare(b, c, receiver) <= 0
    ensures Compare(a, c, receiver) <= 0
    ensures Compare(a, b, receiver) < 0 || Compare(b, c, receiver) < 0 ==> Compare(a, c, receiver) < 0
  {
    CompareIsLexicographic(a, b, receiver);
    CompareIsLexicographic(b, c, receiver);
    CompareIsLexicographic(a, c, receiver);
    MemcmpTransitive(Key(a), Key(b), Key(c));
  }

  /** A master next to the receiver, with all attributes but two equal to zero. */
  function Sample(gm: ClockId, variance: uint16, priority2: uint8): Record {
    Record(PortIdentity(gm, 1), Announce(0, ClockQuality(0, 0, variance), priority2, gm, 0, 0), 1)
  }

  /** Regularity is needed: for any three different masters, two variances that differ in the
      unseen byte make the comparison rank the masters in a cycle. */
  lemma VarianceBreaksTransitivity(i: ClockId, j: ClockId, k: ClockId, receiver: ClockId)
    requires i != j && j != k && i != k
    ensures var a, b, c := Sample(i, 0, 1), Sample(j, 256, 0), Sample(k, 0, 0);
            Compare(a, b, receiver) <= 0 && Compare(b, c, receiver) <= 0 && Compare(a, c, receiver) > 0
  {
    MemcmpZero(i, j);
    MemcmpZero(j, k);
    MemcmpZero(i, k);
    var a, b, c := Sample(i, 0, 1), Sample(j, 256, 0), Sample(k, 0, 0);
    DifferentMasters(a, b, receiver);
    DifferentMasters(b, c, receiver);
    DifferentMasters(a, c, receiver);
  }

  lemma DifferentMasters(a: Record, b: Record, receiver: ClockId)
    requires a.receptionPort != 0 && b.receptionPort != 0
    requires Memcmp(a.announce.gmIdentity, b.announce.gmIdentity) != 0
    ensures Compare(a, b, receiver) == CompareQuality(a.announce, b.announce)
  {
  }
}
