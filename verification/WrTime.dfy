/** The timestamp arithmetic of PTPWRd/dep/wr_servo.c:46-161. */
module WrTime {
  import opened CTypes

  datatype WrTimestamp = WrTimestamp(sec: int64, nsec: int32, phase: int32)

  const PS_PER_NS: int := 1000
  const NS_PER_SEC: int := 1_000_000_000
  const PS_PER_SEC: int := 1_000_000_000_000

  /** `ts_to_picos`. */
  function Picos(t: WrTimestamp): int {
    t.sec * PS_PER_SEC + t.nsec * PS_PER_NS + t.phase
  }

  /** Phase below one nanosecond, nanoseconds below one second, neither negative. */
  predicate Canonical(t: WrTimestamp) {
    0 <= t.phase < PS_PER_NS && 0 <= t.nsec < NS_PER_SEC
  }

  lemma CanonicalUnique(a: WrTimestamp, b: WrTimestamp)
    requires Canonical(a) && Canonical(b) && Picos(a) == Picos(b)
    ensures a == b
  {
  }

  /** `picos_to_ts`: C remainders, so all three parts have the sign of `p`. */
  function PicosToTs(p: int64): (t: WrTimestamp)
    ensures Picos(t) == p
    ensures -PS_PER_NS < t.phase < PS_PER_NS && -NS_PER_SEC < t.nsec < NS_PER_SEC
    ensures 0 <= p ==> Canonical(t)
    ensures p <= 0 ==> t.phase <= 0 && t.nsec <= 0 && t.sec <= 0
  {
    var phase := TruncMod(p, 1000);
    var ns := TruncDiv(p - phase, 1000);
    var nsec := TruncMod(ns, 1_000_000_000);
    var sec := TruncDiv(ns - nsec, 1_000_000_000);
    WrTimestamp(sec, nsec, phase)
  }

  // ----- ts_add and ts_sub -----

  /** Units carried out of a part that must stay below `unit`; a negative part is left alone. */
  function CarryNs(x: int): int { if x >= 1000 then x / 1000 else 0 }
  function CarrySec(x: int): int { if x >= 1_000_000_000 then x / 1_000_000_000 else 0 }
  /** Units borrowed by a negative part; a part that is too large is left alone. */
  function BorrowNs(x: int): int { if x < 0 then -(x / 1000) else 0 }
  function BorrowSec(x: int): int { if x < 0 then -(x / 1_000_000_000) else 0 }

  /** The additions of `ts_add` stay within their C types. */
  predicate AddFits(a: WrTimestamp, b: WrTimestamp) {
    && -0x8000_0000 <= a.phase + b.phase < 0x8000_0000
    && -0x8000_0000 <= a.nsec + b.nsec < 0x8000_0000
    && -0x8000_0000 <= CarryNs(a.phase + b.phase) + a.nsec + b.nsec < 0x8000_0000
    && -0x8000_0000_0000_0000 <= a.sec + b.sec < 0x8000_0000_0000_0000 - 2
  }

  function SumTs(a: WrTimestamp, b: WrTimestamp): WrTimestamp
    requires AddFits(a, b)
  {
    var phase := a.phase + b.phase;
    var nsec := CarryNs(phase) + a.nsec + b.nsec;
    WrTimestamp(CarrySec(nsec) + a.sec + b.sec, nsec - CarrySec(nsec) * 1_000_000_000, phase - CarryNs(phase) * 1000)
  }

  lemma SumTsExact(a: WrTimestamp, b: WrTimestamp)
    requires AddFits(a, b)
    ensures Picos(SumTs(a, b)) == Picos(a) + Picos(b)
    ensures SumTs(a, b).phase < PS_PER_NS && SumTs(a, b).nsec < NS_PER_SEC
    ensures Canonical(a) && Canonical(b) ==> Canonical(SumTs(a, b))
  {
  }

  method TsAdd(a: WrTimestamp, b: WrTimestamp) returns (c: WrTimestamp)
    requires AddFits(a, b)
    ensures c == SumTs(a, b)
  {
    var sec: int64, nsec: int32, phase: int32 := 0, 0, a.phase + b.phase;
    while phase >= 1000
      invariant phase + nsec * 1000 == a.phase + b.phase
      invariant 0 <= nsec && (nsec > 0 ==> 0 <= phase)
    {
      phase := phase - 1000;
      nsec := nsec + 1;
    }
    assert nsec == CarryNs(a.phase + b.phase);
    nsec := nsec + (a.nsec + b.nsec);
    ghost var total := nsec;
    while nsec >= 1_000_000_000
      invariant nsec + sec * 1_000_000_000 == total
      invariant 0 <= sec <= 2 && (sec > 0 ==> 0 <= nsec)
    {
      nsec := nsec - 1_000_000_000;
      sec := sec + 1;
    }
    sec := sec + (a.sec + b.sec);
    c := WrTimestamp(sec, nsec, phase);
  }

  predicate SubFits(a: WrTimestamp, b: WrTimestamp) {
    && -0x8000_0000 <= a.phase - b.phase < 0x8000_0000
    && -0x8000_0000 <= a.nsec - b.nsec < 0x8000_0000
    && -0x8000_0000 <= a.nsec - b.nsec - BorrowNs(a.phase - b.phase) < 0x8000_0000
    && -0x8000_0000_0000_0000 + 3 <= a.sec - b.sec < 0x8000_0000_0000_0000
  }

  function DiffTs(a: WrTimestamp, b: WrTimestamp): WrTimestamp
    requires SubFits(a, b)
  {
    var phase := a.phase - b.phase;
    var nsec := a.nsec - b.nsec - BorrowNs(phase);
    WrTimestamp(a.sec - b.sec - BorrowSec(nsec), nsec + BorrowSec(nsec) * 1_000_000_000, phase + BorrowNs(phase) * 1000)
  }

  lemma DiffTsExact(a: WrTimestamp, b: WrTimestamp)
    requires SubFits(a, b)
    ensures Picos(DiffTs(a, b)) == Picos(a) - Picos(b)
    ensures 0 <= DiffTs(a, b).phase && 0 <= DiffTs(a, b).nsec
    ensures a.phase - b.phase < PS_PER_NS && a.nsec - b.nsec < NS_PER_SEC ==> Canonical(DiffTs(a, b))
  {
  }

  method TsSub(a: WrTimestamp, b: WrTimestamp) returns (c: WrTimestamp)
    requires SubFits(a, b)
    ensures c == DiffTs(a, b)
  {
    var sec: int64, nsec: int32, phase: int32 := 0, 0, a.phase - b.phase;
    while phase < 0
      invariant phase + nsec * 1000 == a.phase - b.phase
      invariant nsec <= 0 && (nsec < 0 ==> phase < 1000)
      invariant -3_000_000 <= nsec
      decreases -(phase as int)
    {
      phase := phase + 1000;
      nsec := nsec - 1;
    }
    assert nsec == -BorrowNs(a.phase - b.phase);
    nsec := nsec + (a.nsec - b.nsec);
    ghost var total := nsec;
    while nsec < 0
      invariant nsec + sec * 1_000_000_000 == total
      invariant -3 <= sec <= 0 && (sec < 0 ==> nsec < 1_000_000_000)
      decreases -(nsec as int)
    {
      nsec := nsec + 1_000_000_000;
      sec := sec - 1;
    }
    sec := sec + (a.sec - b.sec);
    c := WrTimestamp(sec, nsec, phase);
  }

  /** For canonical operands the two operations undo each other. */
  lemma AddSubInverse(a: WrTimestamp, b: WrTimestamp)
    requires Canonical(a) && Canonical(b) && AddFits(a, b) && SubFits(SumTs(a, b), b)
    ensures DiffTs(SumTs(a, b), b) == a
  {
    SumTsExact(a, b);
    DiffTsExact(SumTs(a, b), b);
    CanonicalUnique(DiffTs(SumTs(a, b), b), a);
  }

  // ----- ts_hardwarize -----

  /** Length of a reference clock cycle in nanoseconds, rounded up. */
  function CycleNs(period: int32): (q: int)
    requires 0 < period
    ensures 1 <= q
  {
    (period + 999) / 1000
  }

  /** `ts_hardwarize`: whole cycles stay in the nanoseconds, the rest goes to the phase. */
  function Hardwarize(t: WrTimestamp, period: int32): (r: WrTimestamp)
    requires HardwarizeFits(t, period)
    ensures Picos(r) == Picos(t)
  {
    var q := CycleNs(period);
    var extra := if t.nsec > 0 then t.nsec % q else 0;
    var nsec1, phase1 := t.nsec - extra, t.phase + extra * 1000;
    var sec2, nsec2 := if nsec1 < 0 then t.sec - 1 else t.sec, if nsec1 < 0 then nsec1 + 1_000_000_000 else nsec1;
    var sec3, nsec3 := if sec2 == -1 && nsec2 > 0 then 0 else sec2,
                       if sec2 == -1 && nsec2 > 0 then nsec2 - 1_000_000_000 else nsec2;
    if nsec3 < 0 && nsec3 >= -q && sec3 == 0 then WrTimestamp(sec3, nsec3 + q, phase1 - q * 1000)
    else WrTimestamp(sec3, nsec3, phase1)
  }

  /** No field overflows while a timestamp is hardwarized. */
  predicate HardwarizeFits(t: WrTimestamp, period: int32) {
    && 0 < period
    && -0x8000_0000 + CycleNs(period) * 1000 <= t.phase < 0x8000_0000 - CycleNs(period) * 1000
    && -0x8000_0000_0000_0000 < t.sec
    && CycleNs(period) * 1000 < 0x8000_0000
  }

  /** A cycle length that divides one second into more than one cycle. */
  predicate ProperCycle(period: int32)
    requires 0 < period
  {
    NS_PER_SEC % CycleNs(period) == 0 && CycleNs(period) < NS_PER_SEC
  }

  lemma ModOfMultiple(k: int, q: int)
    requires 0 < q
    ensures (k * q) % q == 0
  {
    DivUnique(k * q, q, k, 0);
  }

  lemma RoundDown(n: int, q: int)
    requires 0 < q && 0 <= n
    ensures (n - n % q) % q == 0 && 0 <= n - n % q
  {
    assert n - n % q == (n / q) * q;
    ModOfMultiple(n / q, q);
  }

  lemma DiffOfMultiples(a: int, b: int, q: int)
    requires 0 < q && a % q == 0 && b % q == 0
    ensures (a - b) % q == 0
  {
    assert a - b == (a / q - b / q) * q by {
      assert a == (a / q) * q && b == (b / q) * q;
    }
    ModOfMultiple(a / q - b / q, q);
  }

  /** The only multiple of `q` in (-q, q) is zero. */
  lemma SmallIsZero(n: int, q: int)
    requires 0 < q && n % q == 0 && -q < n < q
    ensures n == 0
  {
    if 0 <= n {
      DivUnique(n, q, 0, n);
    } else {
      DivUnique(n, q, -1, n + q);
    }
  }

  lemma MultipleGap(n: int, m: int, q: int)
    requires 0 < q && n % q == 0 && m % q == 0 && n < m
    ensures n + q <= m
  {
    DiffOfMultiples(m, n, q);
    if m - n < q {
      SmallIsZero(m - n, q);
    }
  }

  /** The whole cycles in the nanoseconds of a canonical timestamp. */
  function WholeCycles(t: WrTimestamp, q: int): int
    requires 0 < q && 0 <= t.nsec
  {
    t.nsec - t.nsec % q
  }

  lemma WholeCyclesBounds(t: WrTimestamp, q: int)
    requires 0 < q < NS_PER_SEC && NS_PER_SEC % q == 0 && Canonical(t)
    ensures var n := WholeCycles(t, q);
            && n % q == 0 && (n - NS_PER_SEC) % q == 0
            && (n == 0 || q <= n) && 2 * q <= NS_PER_SEC
            && (n == NS_PER_SEC - q || n <= NS_PER_SEC - 2 * q)
            && n <= t.nsec < n + q
  {
    var n := WholeCycles(t, q);
    RoundDown(t.nsec, q);
    DiffOfMultiples(n, NS_PER_SEC, q);
    ModOfMultiple(0, q);
    MultipleGap(n, NS_PER_SEC, q);
    if n > 0 {
      MultipleGap(0, n, q);
    }
    ModOfMultiple(1, q);
    MultipleGap(q, NS_PER_SEC, q);
    DiffOfMultiples(NS_PER_SEC, q, q);
    if n < NS_PER_SEC - q {
      MultipleGap(n, NS_PER_SEC - q, q);
    }
  }

  /** The result of `ts_hardwarize` for canonical `t` with whole cycles `n`. */
  function CycleShape(t: WrTimestamp, n: int, q: int): WrTimestamp
    requires 0 < q && 0 <= n <= t.nsec < n + q && q * 1000 < 0x8000_0000 && Canonical(t)
    requires t.phase + q * 1000 < 0x8000_0000
  {
    var phase := t.phase + (t.nsec - n) * 1000;
    if t.sec == -1 && n > 0 then
      if n - NS_PER_SEC >= -q then WrTimestamp(0, n - NS_PER_SEC + q, phase - q * 1000)
      else WrTimestamp(0, n - NS_PER_SEC, phase)
    else WrTimestamp(t.sec, n, phase)
  }

  lemma HardwarizeShape(t: WrTimestamp, period: int32)
    requires HardwarizeFits(t, period) && Canonical(t)
    ensures var n := WholeCycles(t, CycleNs(period));
            0 <= n <= t.nsec < n + CycleNs(period) && Hardwarize(t, period) == CycleShape(t, n, CycleNs(period))
  {
    RoundDown(t.nsec, CycleNs(period));
  }

  lemma CycleShapeArithmetic(t: WrTimestamp, n: int, q: int)
    requires 0 < q && 0 <= n <= t.nsec < n + q && q * 1000 < 0x8000_0000 && Canonical(t)
    requires t.phase + q * 1000 < 0x8000_0000
    requires (n == 0 || q <= n) && 2 * q <= NS_PER_SEC
    requires n == NS_PER_SEC - q || n <= NS_PER_SEC - 2 * q
    ensures var r := CycleShape(t, n, q);
            && r.nsec in {n, n - NS_PER_SEC, 0}
            && -1000 * q <= r.phase < 1000 * q
            && (r.sec == 0 && r.nsec == 0 <==> -1000 * q <= Picos(t) < 1000 * q)
            && (r.sec != 0 ==> r.sec == t.sec && 0 <= r.nsec && 0 <= r.phase)
            && (r.sec == 0 ==> -NS_PER_SEC < r.nsec < NS_PER_SEC && (r.nsec != 0 ==> 0 <= r.phase))
  {
    var c := t.nsec - n;
    assert Picos(t) == t.sec * PS_PER_SEC + n * 1000 + (c * 1000 + t.phase);
    assert 0 <= c * 1000 + t.phase < q * 1000;
  }

  /** Main result: for canonical input and a cycle that properly divides a second, the
      nanoseconds are whole cycles, and the seconds and nanoseconds vanish together exactly for
      offsets of less than one cycle. */
  lemma HardwarizeExact(t: WrTimestamp, period: int32)
    requires HardwarizeFits(t, period) && Canonical(t) && ProperCycle(period)
    ensures var r, q := Hardwarize(t, period), CycleNs(period);
            && r.nsec % q == 0
            && -1000 * q <= r.phase < 1000 * q
            && (r.sec == 0 && r.nsec == 0 <==> -1000 * q <= Picos(t) < 1000 * q)
            && (r.sec != 0 ==> r.sec == t.sec && 0 <= r.nsec && 0 <= r.phase)
            && (r.sec == 0 ==> -NS_PER_SEC < r.nsec < NS_PER_SEC && (r.nsec != 0 ==> 0 <= r.phase))
  {
    var q := CycleNs(period);
    var n := WholeCycles(t, q);
    WholeCyclesBounds(t, q);
    HardwarizeShape(t, period);
    CycleShapeArithmetic(t, n, q);
    ModOfMultiple(0, q);
    assert Hardwarize(t, period).nsec % q == 0;
  }
}
