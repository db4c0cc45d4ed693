/** Time arithmetic on (seconds, nanoseconds) pairs (PTPWRd/arith.c). */
module Arith {
  import opened CTypes

  const BILLION: int := 1_000_000_000

  /** The value of a 64-bit integer kept as a signed high and an unsigned low half. */
  function Value64(msb: int32, lsb: uint32): int {
    msb * TWO32 + lsb
  }

  function TotalNs(s: int, n: int): int {
    s * BILLION + n
  }

  /** Less than a second of nanoseconds, and no part against the other's sign. */
  predicate Normal(s: int, n: int) {
    -BILLION < n < BILLION && (s > 0 ==> 0 <= n) && (s < 0 ==> n <= 0)
  }

  /** There is only one normal form of a time. */
  lemma NormalIsUnique(s: int, n: int, t: int, m: int)
    requires Normal(s, n) && Normal(t, m) && TotalNs(s, n) == TotalNs(t, m)
    ensures s == t && n == m
  {
  }

  /** The normal form of a time. */
  function NormalForm(total: int): (r: (int, int))
    ensures Normal(r.0, r.1) && TotalNs(r.0, r.1) == total
  {
    (TruncDiv(total, 1_000_000_000), TruncMod(total, 1_000_000_000))
  }

  class TimeInternal {
    var seconds: int32
    var nanoseconds: int32

    constructor (s: int32, n: int32)
      ensures seconds == s && nanoseconds == n
    {
      seconds, nanoseconds := s, n;
    }

    ghost function Total(): int
      reads this
    {
      TotalNs(seconds, nanoseconds)
    }
  }

  /** Adding the whole seconds of `n` to `s` does not overflow. */
  predicate CarryFits(s: int32, n: int32) {
    -0x8000_0000 <= s + TruncDiv(n, 1_000_000_000) < 0x8000_0000
  }

  /** `normalizeTime`. */
  method NormalizeTime(r: TimeInternal)
    requires CarryFits(r.seconds, r.nanoseconds)
    modifies r
    ensures (r.seconds as int, r.nanoseconds as int) == NormalForm(old(r.Total()))
  {
    var total := TotalNs(r.seconds, r.nanoseconds);
    r.seconds := r.seconds + TruncDiv(r.nanoseconds, 1_000_000_000);
    r.nanoseconds := r.nanoseconds - TruncDiv(r.nanoseconds, 1_000_000_000) * 1_000_000_000;
    if r.seconds > 0 && r.nanoseconds < 0 {
      r.seconds := r.seconds - 1;
      r.nanoseconds := r.nanoseconds + 1_000_000_000;
    } else if r.seconds < 0 && r.nanoseconds > 0 {
      r.seconds := r.seconds + 1;
      r.nanoseconds := r.nanoseconds - 1_000_000_000;
    }
    var nf := NormalForm(total);
    NormalIsUnique(r.seconds, r.nanoseconds, nf.0, nf.1);
  }

  /** The component sums stay in 32 bits. */
  predicate SumFits(s: int, n: int) {
    && -0x8000_0000 <= s < 0x8000_0000 && -0x8000_0000 <= n < 0x8000_0000
    && -0x8000_0000 <= s + TruncDiv(n, 1_000_000_000) < 0x8000_0000
  }

  /** `addTime`; the result may be stored over an operand. */
  method AddTime(r: TimeInternal, x: TimeInternal, y: TimeInternal)
    requires SumFits(x.seconds + y.seconds, x.nanoseconds + y.nanoseconds)
    modifies r
    ensures (r.seconds as int, r.nanoseconds as int) == NormalForm(old(x.Total()) + old(y.Total()))
  {
    ghost var sum := x.Total() + y.Total();
    r.seconds, r.nanoseconds := x.seconds + y.seconds, x.nanoseconds + y.nanoseconds;
    assert r.Total() == sum;
    NormalizeTime(r);
  }

  /** `subTime`. */
  method SubTime(r: TimeInternal, x: TimeInternal, y: TimeInternal)
    requires SumFits(x.seconds - y.seconds, x.nanoseconds - y.nanoseconds)
    modifies r
    ensures (r.seconds as int, r.nanoseconds as int) == NormalForm(old(x.Total()) - old(y.Total()))
  {
    ghost var difference := x.Total() - y.Total();
    r.seconds, r.nanoseconds := x.seconds - y.seconds, x.nanoseconds - y.nanoseconds;
    assert r.Total() == difference;
    NormalizeTime(r);
  }

  /** On normal operands addition commutes and subtraction undoes it, exactly. */
  lemma AddSubLaws(s: int, n: int, t: int, m: int)
    requires Normal(s, n) && Normal(t, m)
    ensures var sum := NormalForm(TotalNs(s, n) + TotalNs(t, m));
            && sum == NormalForm(TotalNs(t, m) + TotalNs(s, n))
            && NormalForm(TotalNs(sum.0, sum.1) - TotalNs(t, m)) == (s, n)
  {
    var sum := NormalForm(TotalNs(s, n) + TotalNs(t, m));
    var back := NormalForm(TotalNs(sum.0, sum.1) - TotalNs(t, m));
    NormalIsUnique(back.0, back.1, s, n);
  }

  /** The operands of a sum whose seconds fit never overflow on the way. */
  lemma NormalSumsFit(s: int32, n: int32, t: int32, m: int32)
    requires Normal(s, n) && Normal(t, m) && -0x8000_0000 < s + t < 0x8000_0000 - 1
    ensures SumFits(s + t, n + m)
  {
  }

  /** The common part of the conversion: a non-negative value, as high and low halves. */
  method FromPositive(msb: int32, lsb: uint32, internal: TimeInternal)
    requires 0 <= msb
    modifies internal
    ensures (internal.seconds as int, internal.nanoseconds as int) == NormalForm(Value64(msb, lsb) / TWO16)
    ensures 0 <= internal.seconds && 0 <= internal.nanoseconds
  {
    var low: uint32 := lsb / TWO16 + (msb % TWO16) * TWO16;
    var high: int32 := msb / TWO16;
    internal.nanoseconds := low % 1_000_000_000;
    internal.seconds := low / 1_000_000_000;
    var sMsb: int32 := 4 * high;
    var nsMsb: int64 := high * 294967296;
    var entire: int32 := TruncDiv(nsMsb, 1_000_000_000);
    sMsb := sMsb + entire;
    nsMsb := TruncMod(nsMsb, 1_000_000_000);
    internal.nanoseconds := internal.nanoseconds + nsMsb;
    internal.seconds := internal.seconds + sMsb;
    assert internal.Total() == low + high * TWO32;
    assert low + high * TWO32 == Value64(msb, lsb) / TWO16 by {
      DivUnique(Value64(msb, lsb), TWO16, low + high * TWO32, lsb % TWO16);
    }
    NormalizeTime(internal);
  }

  /** `integer64_to_internalTime`: scaled nanoseconds (units of 2^-16 ns) to a time, dropping the
      fraction toward zero; section 5.3.2 of IEEE 1588-2008. All intermediate values fit their C
      types for every input but -2^63, whose negation does not exist. */
  method Integer64ToInternalTime(msb: int32, lsb: uint32, internal: TimeInternal)
    requires !(msb == -0x8000_0000 && lsb == 0)
    modifies internal
    ensures (internal.seconds as int, internal.nanoseconds as int) == NormalForm(TruncDiv(Value64(msb, lsb), TWO16))
  {
    if 0 <= msb {
      FromPositive(msb, lsb, internal);
    } else {
      var l: uint32 := TWO32 - 1 - lsb;
      var m: int32 := -1 - msb;
      if l == 0xFFFF_FFFF {
        l := 0;
        m := m + 1;
      } else {
        l := l + 1;
      }
      assert Value64(m, l) == -Value64(msb, lsb);
      FromPositive(m, l, internal);
      internal.nanoseconds := -internal.nanoseconds;
      internal.seconds := -internal.seconds;
      var nf := NormalForm(TruncDiv(Value64(msb, lsb), TWO16));
      NormalIsUnique(internal.seconds, internal.nanoseconds, nf.0, nf.1);
    }
  }
}
