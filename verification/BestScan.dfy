/** The linear scans for the best foreign master (PTPWRd/bmc.c:776-874) as functions, and what
    they find. */
module BestScan {
  import opened CTypes
  import opened Bmc

  /** The scan of `ErBest` over the first `n` records: the current best is replaced by a record
      that beats it. */
  function ScanBest(rs: seq<Record>, n: nat, receiver: ClockId): (best: nat)
    requires 0 < n <= |rs|
    ensures best < n
  {
    if n == 1 then 0
    else
      var b := ScanBest(rs, n - 1, receiver);
      if Beats(rs[n - 1], rs[b], receiver) then n - 1 else b
  }

  predicate AllRegular(rs: seq<Record>, receiver: ClockId) {
    forall i, j :: 0 <= i < |rs| && 0 <= j < |rs| && i != j ==> Regular(rs[i], rs[j], receiver)
  }

  predicate Beats(a: Record, b: Record, receiver: ClockId) {
    Compare(a, b, receiver) < 0
  }

  /** `best` is beaten by none of the first `n` records, and beats every record before it. */
  predicate FirstBest(rs: seq<Record>, n: nat, best: nat, receiver: ClockId)
    requires n <= |rs|
  {
    && best < n
    && (forall k :: 0 <= k < n && k != best ==> !Beats(rs[k], rs[best], receiver))
    && (forall k :: 0 <= k < best ==> Beats(rs[best], rs[k], receiver))
  }

  /** If `a` is not beaten by `b` then `a` is at least as good. */
  lemma NotBeaten(a: Record, b: Record, receiver: ClockId)
    ensures !Beats(b, a, receiver) <==> Compare(a, b, receiver) <= 0
    ensures Beats(a, b, receiver) ==> !Beats(b, a, receiver)
  {
    CompareAntisymmetric(a, b, receiver);
  }

  /** A record that beats one that `c` does not beat beats `c`. */
  lemma BeatsChain(a: Record, b: Record, c: Record, receiver: ClockId)
    requires Regular(a, b, receiver) && Regular(b, c, receiver) && Regular(a, c, receiver)
    requires Beats(a, b, receiver) && !Beats(c, b, receiver)
    ensures Beats(a, c, receiver)
  {
    NotBeaten(b, c, receiver);
    CompareTransitive(a, b, c, receiver);
  }

  /** Main result for one port: on regular records the scan finds the first record that no other
      record of the port beats. */
  lemma {:induction false} ScanFindsFirstBest(rs: seq<Record>, n: nat, receiver: ClockId)
    requires 0 < n <= |rs| && AllRegular(rs, receiver)
    ensures FirstBest(rs, n, ScanBest(rs, n, receiver), receiver)
  {
    hide Beats, Regular;
    if n > 1 {
      ScanFindsFirstBest(rs, n - 1, receiver);
      var b := ScanBest(rs, n - 1, receiver);
      if Beats(rs[n - 1], rs[b], receiver) {
        forall k | 0 <= k < n - 1
          ensures Beats(rs[n - 1], rs[k], receiver) && !Beats(rs[k], rs[n - 1], receiver)
        {
          if k != b {
            BeatsChain(rs[n - 1], rs[b], rs[k], receiver);
          }
          NotBeaten(rs[n - 1], rs[k], receiver);
        }
      }
    }
  }

  /** What `EBest` sees of a port: its records in use and the index of its own best. */
  datatype PortView = PortView(records: seq<Record>, best: nat)

  predicate ViewOk(p: PortView) {
    p.records != [] ==> p.best < |p.records|
  }

  function BestOf(p: PortView): Record
    requires ViewOk(p) && p.records != []
  {
    p.records[p.best]
  }

  /** The scan of `EBest` over the first `n` ports; None as long as all are empty. */
  function ScanPorts(ps: seq<PortView>, n: nat, receiver: ClockId): (e: Option<nat>)
    requires n <= |ps| && forall i :: 0 <= i < |ps| ==> ViewOk(ps[i])
    ensures e.Some? ==> e.value < n && ps[e.value].records != []
    ensures e.None? <==> forall i :: 0 <= i < n ==> ps[i].records == []
  {
    if n == 0 then None
    else
      var e := ScanPorts(ps, n - 1, receiver);
      if ps[n - 1].records == [] then e
      else if e.None? || Beats(BestOf(ps[n - 1]), BestOf(ps[e.value]), receiver) then Some(n - 1)
      else e
  }

  /** All records of all ports. */
  ghost predicate InSome(r: Record, ps: seq<PortView>) {
    exists i :: 0 <= i < |ps| && r in ps[i].records
  }

  ghost predicate AllPortsRegular(ps: seq<PortView>, receiver: ClockId) {
    forall a, b :: InSome(a, ps) && InSome(b, ps) && a != b ==> Regular(a, b, receiver)
  }

  /** Each port's own best is beaten by none of its records. */
  ghost predicate PortBestsCorrect(ps: seq<PortView>, receiver: ClockId) {
    forall i, r :: 0 <= i < |ps| && r in ps[i].records ==>
                     ViewOk(ps[i]) && !Beats(r, BestOf(ps[i]), receiver)
  }

  lemma SelfCompare(r: Record, receiver: ClockId)
    ensures Compare(r, r, receiver) == 0
  {
    CompareAntisymmetric(r, r, receiver);
  }

  lemma AtLeastTransitive(a: Record, b: Record, c: Record, ps: seq<PortView>, receiver: ClockId)
    requires AllPortsRegular(ps, receiver) && InSome(a, ps) && InSome(b, ps) && InSome(c, ps)
    requires !Beats(b, a, receiver) && !Beats(c, b, receiver)
    ensures !Beats(c, a, receiver)
  {
    if a == b || b == c {
    } else if a == c {
      SelfCompare(a, receiver);
    } else {
      NotBeaten(a, b, receiver);
      NotBeaten(b, c, receiver);
      CompareTransitive(a, b, c, receiver);
      NotBeaten(a, c, receiver);
    }
  }

  /** The winner among the first `n` ports is beaten by none of their records. */
  ghost predicate BeatsAllUpTo(ps: seq<PortView>, n: nat, e: nat, receiver: ClockId)
    requires n <= |ps| && e < |ps| && ViewOk(ps[e]) && ps[e].records != []
  {
    forall i, r :: 0 <= i < n && r in ps[i].records ==> !Beats(r, BestOf(ps[e]), receiver)
  }

  lemma {:induction false} ScanPrefix(ps: seq<PortView>, n: nat, receiver: ClockId)
    requires n <= |ps| && forall i :: 0 <= i < |ps| ==> ViewOk(ps[i])
    requires AllPortsRegular(ps, receiver) && PortBestsCorrect(ps, receiver)
    ensures var e := ScanPorts(ps, n, receiver);
            e.Some? ==> BeatsAllUpTo(ps, n, e.value, receiver)
  {
    if n > 0 {
      ScanPrefix(ps, n - 1, receiver);
      var e, f := ScanPorts(ps, n - 1, receiver), ScanPorts(ps, n, receiver);
      if f.Some? {
        forall i, r | 0 <= i < n && r in ps[i].records
          ensures !Beats(r, BestOf(ps[f.value]), receiver)
        {
          if i < n - 1 {
            FrontStep(ps, receiver, r, i, e.value, f.value);
          } else {
            LastStep(ps, receiver, r, n - 1, f.value);
          }
        }
      }
    }
  }

  /** A record of an earlier port: not better than the earlier winner, hence than the new one. */
  lemma FrontStep(ps: seq<PortView>, receiver: ClockId, r: Record, i: nat, e: nat, f: nat)
    requires AllPortsRegular(ps, receiver) && i < |ps| && r in ps[i].records
    requires e < |ps| && ViewOk(ps[e]) && ps[e].records != []
    requires f < |ps| && ViewOk(ps[f]) && ps[f].records != []
    requires !Beats(r, BestOf(ps[e]), receiver)
    requires f == e || Beats(BestOf(ps[f]), BestOf(ps[e]), receiver)
    ensures !Beats(r, BestOf(ps[f]), receiver)
  {
    if f != e {
      NotBeaten(BestOf(ps[f]), BestOf(ps[e]), receiver);
      AtLeastTransitive(BestOf(ps[f]), BestOf(ps[e]), r, ps, receiver);
    }
  }

  /** A record of the last port: not better than that port's best, hence than the winner. */
  lemma LastStep(ps: seq<PortView>, receiver: ClockId, r: Record, n: nat, f: nat)
    requires AllPortsRegular(ps, receiver) && PortBestsCorrect(ps, receiver)
    requires n < |ps| && ViewOk(ps[n]) && r in ps[n].records
    requires f < |ps| && ViewOk(ps[f]) && ps[f].records != []
    requires f == n || !Beats(BestOf(ps[n]), BestOf(ps[f]), receiver)
    ensures !Beats(r, BestOf(ps[f]), receiver)
  {
    if f != n {
      AtLeastTransitive(BestOf(ps[f]), BestOf(ps[n]), r, ps, receiver);
    }
  }

  /** Among ports that are equally good the first one stays: the winner beats what all earlier ports have. */
  lemma {:induction false} ScanKeepsFirst(ps: seq<PortView>, n: nat, receiver: ClockId)
    requires n <= |ps| && forall i :: 0 <= i < |ps| ==> ViewOk(ps[i])
    requires AllPortsRegular(ps, receiver) && PortBestsCorrect(ps, receiver)
    ensures var e := ScanPorts(ps, n, receiver);
            e.Some? ==> forall i :: 0 <= i < e.value && ps[i].records != [] ==>
                          BestOf(ps[i]) == BestOf(ps[e.value]) || Beats(BestOf(ps[e.value]), BestOf(ps[i]), receiver)
  {
    if n > 0 {
      ScanKeepsFirst(ps, n - 1, receiver);
      ScanPrefix(ps, n - 1, receiver);
      var e, f := ScanPorts(ps, n - 1, receiver), ScanPorts(ps, n, receiver);
      if e.Some? && f != e {
        forall i | 0 <= i < f.value && ps[i].records != []
          ensures BestOf(ps[i]) == BestOf(ps[f.value]) || Beats(BestOf(ps[f.value]), BestOf(ps[i]), receiver)
        {
          ChainOrSame(BestOf(ps[f.value]), BestOf(ps[e.value]), BestOf(ps[i]), ps, receiver);
        }
      }
    }
  }

  lemma ChainOrSame(a: Record, b: Record, c: Record, ps: seq<PortView>, receiver: ClockId)
    requires AllPortsRegular(ps, receiver) && InSome(a, ps) && InSome(b, ps) && InSome(c, ps)
    requires Beats(a, b, receiver) && !Beats(c, b, receiver)
    ensures c == a || Beats(a, c, receiver)
  {
    SelfCompare(b, receiver);
    if c != b && c != a {
      BeatsChain(a, b, c, receiver);
    }
  }

  /** Main result for all ports: with correct per-port bests and at least one non-empty port, the
      scan finds the first record that no record on any port beats. */
  lemma ScanPortsFindsBest(ps: seq<PortView>, receiver: ClockId)
    requires forall i :: 0 <= i < |ps| ==> ViewOk(ps[i])
    requires AllPortsRegular(ps, receiver) && PortBestsCorrect(ps, receiver)
    requires exists i :: 0 <= i < |ps| && ps[i].records != []
    ensures var e := ScanPorts(ps, |ps|, receiver);
            && e.Some?
            && (forall r :: InSome(r, ps) ==> !Beats(r, BestOf(ps[e.value]), receiver))
            && forall i :: 0 <= i < e.value && ps[i].records != [] ==>
                 BestOf(ps[i]) == BestOf(ps[e.value]) || Beats(BestOf(ps[e.value]), BestOf(ps[i]), receiver)
  {
    ScanPrefix(ps, |ps|, receiver);
    ScanKeepsFirst(ps, |ps|, receiver);
  }
}
