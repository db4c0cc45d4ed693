/** The asymmetric link model inside `wr_servo_update` (PTPWRd/dep/wr_servo.c:301-311): 64-bit
    fixed-point arithmetic, and how close the computed offset is to the true one. */
module LinkModel {
  import opened CTypes
  import opened WrTime

  /** Fixed delays of master and slave, as `wr_servo_init` stores them. */
  datatype Deltas = Deltas(txM: int32, rxM: int32, txS: int32, rxS: int32)

  datatype Stamps = Stamps(t1: WrTimestamp, t2: WrTimestamp, t3: WrTimestamp, t4: WrTimestamp)

  const ALPHA_ONE: int := 0x100_0000_0000 // 2 to the power FIX_ALPHA_FRACBITS

  /** The sum of the four fixed delays, computed in C's `int`. */
  function BigDelta(d: Deltas): int32 {
    ToInt32(d.txM + d.txS + d.rxM + d.rxS)
  }

  /** The four fixed delays add up within a C `int`. */
  predicate DeltasFit(d: Deltas) {
    -0x8000_0000 <= d.txM + d.txS + d.rxM + d.rxS < 0x8000_0000
  }

  lemma BigDeltaExact(d: Deltas)
    requires DeltasFit(d)
    ensures BigDelta(d) == d.txM + d.txS + d.rxM + d.rxS
  {
  }

  /** `delay_ms_fix`: unsigned 64-bit arithmetic, with one product and one shift done signed. */
  function DelayMs(mu: int64, d: Deltas, alpha: int32, phAdjust: int32): int64 {
    var rest := ToUint64(mu - BigDelta(d));
    var scaled := ToInt64(ToInt64(rest) * alpha) / ALPHA_ONE;
    ToInt64(ToUint64(scaled + rest / 2 + d.txM + d.rxS + phAdjust))
  }

  /** The subtractions behind `mu` and the sum behind `ts_offset` stay within their C types. */
  predicate StampsFit(s: Stamps) {
    && SubFits(s.t4, s.t1) && SubFits(s.t3, s.t2)
    && SubFits(DiffTs(s.t4, s.t1), DiffTs(s.t3, s.t2))
    && SubFits(s.t1, s.t2)
    && -0x8000_0000_0000_0000 <= Picos(DiffTs(DiffTs(s.t4, s.t1), DiffTs(s.t3, s.t2))) < 0x8000_0000_0000_0000
  }

  function Mu(s: Stamps): WrTimestamp
    requires StampsFit(s)
  {
    DiffTs(DiffTs(s.t4, s.t1), DiffTs(s.t3, s.t2))
  }

  lemma MuExact(s: Stamps)
    requires StampsFit(s)
    ensures Picos(Mu(s)) == Picos(s.t4) - Picos(s.t1) - Picos(s.t3) + Picos(s.t2)
  {
    DiffTsExact(s.t4, s.t1);
    DiffTsExact(s.t3, s.t2);
    DiffTsExact(DiffTs(s.t4, s.t1), DiffTs(s.t3, s.t2));
  }

  predicate OffsetFits(s: Stamps, delay: int64) {
    StampsFit(s) && AddFits(DiffTs(s.t1, s.t2), PicosToTs(delay))
  }

  /** `ts_offset`. */
  function Offset(s: Stamps, delay: int64): WrTimestamp
    requires OffsetFits(s, delay)
  {
    SumTs(DiffTs(s.t1, s.t2), PicosToTs(delay))
  }

  lemma OffsetExact(s: Stamps, delay: int64)
    requires OffsetFits(s, delay)
    ensures Picos(Offset(s, delay)) == Picos(s.t1) - Picos(s.t2) + delay
  {
    DiffTsExact(s.t1, s.t2);
    SumTsExact(DiffTs(s.t1, s.t2), PicosToTs(delay));
  }

  /** With timestamps as the receiver and transmitter produce them, the offset is canonical. */
  lemma OffsetCanonical(s: Stamps, delay: int64)
    requires OffsetFits(s, delay) && 0 <= delay
    requires s.t1.phase == 0 && 0 <= s.t1.nsec < NS_PER_SEC && 0 <= s.t2.phase && 0 <= s.t2.nsec
    ensures Canonical(Offset(s, delay))
  {
    DiffTsExact(s.t1, s.t2);
    SumTsExact(DiffTs(s.t1, s.t2), PicosToTs(delay));
  }

  lemma NonNegProduct(a: int, b: int)
    requires 0 <= a && 0 <= b
    ensures 0 <= a * b
  {
  }

  lemma ProductBound(a: int, alpha: int32)
    requires 0 <= a < TWO32
    ensures -0x8000_0000 * a <= a * alpha <= 0x7FFF_FFFF * a
  {
    NonNegProduct(a, alpha + 0x8000_0000);
    NonNegProduct(a, 0x7FFF_FFFF - alpha);
    assert a * (alpha + 0x8000_0000) == a * alpha + 0x8000_0000 * a;
    assert a * (0x7FFF_FFFF - alpha) == 0x7FFF_FFFF * a - a * alpha;
  }

  lemma SmallSurvives(x: int)
    requires -0x4000_0000_0000_0000 <= x < 0x4000_0000_0000_0000
    ensures ToInt64(ToUint64(x)) == x
  {
  }

  lemma ScaledBound(p: int)
    requires -0x8000_0000_0000_0000 <= p < 0x8000_0000_0000_0000
    ensures -0x80_0000 <= p / ALPHA_ONE <= 0x80_0000
  {
  }

  /** The product and the shift of `DelayMs` on a round trip below 2^32 ps. */
  lemma ScaledExact(rest: int, alpha: int32)
    requires 0 <= rest < TWO32
    ensures ToUint64(rest) == rest && ToInt64(rest) == rest
    ensures ToInt64(rest * alpha) == rest * alpha && -0x80_0000 <= rest * alpha / ALPHA_ONE <= 0x80_0000
  {
    ProductBound(rest, alpha);
    ScaledBound(rest * alpha);
  }

  /** No 64-bit operation overflows or wraps when the round trip fits. */
  lemma DelayMsExact(mu: int64, d: Deltas, alpha: int32, phAdjust: int32)
    requires DeltasFit(d) && 0 <= mu - (d.txM + d.txS + d.rxM + d.rxS) < TWO32
    ensures var rest := mu - (d.txM + d.txS + d.rxM + d.rxS);
            DelayMs(mu, d, alpha, phAdjust) == (rest * alpha) / ALPHA_ONE + rest / 2 + d.txM + d.rxS + phAdjust
  {
    hide ToInt64, ToUint64, BigDelta;
    BigDeltaExact(d);
    var rest := mu - (d.txM + d.txS + d.rxM + d.rxS);
    ScaledExact(rest, alpha);
    SmallSurvives((rest * alpha) / ALPHA_ONE + rest / 2 + d.txM + d.rxS + phAdjust);
  }

  lemma {:induction false} ProductAsReal(a: nat, b: int)
    ensures (a * b) as real == (a as real) * (b as real)
  {
    if a > 0 {
      ProductAsReal(a - 1, b);
      assert a * b == (a - 1) * b + b;
      assert (a as real) * (b as real) == ((a - 1) as real) * (b as real) + b as real;
    }
  }

  lemma FloorWithin(p: int)
    ensures ((p / ALPHA_ONE) as real) <= (p as real) / (ALPHA_ONE as real) < ((p / ALPHA_ONE) as real) + 1.0
  {
    assert p == (p / ALPHA_ONE) * ALPHA_ONE + p % ALPHA_ONE;
  }

  /** The two roundings of the fixed-point formula. */
  lemma RoundingError(rest: nat, alpha: int32, fms: real)
    requires fms == (rest as real) / 2.0 + (rest as real) * (alpha as real) / (ALPHA_ONE as real)
    ensures -1.5 < ((rest * alpha) / ALPHA_ONE + rest / 2) as real - fms <= 0.0
  {
    ProductAsReal(rest, alpha);
    FloorWithin(rest * alpha);
    assert rest == 2 * (rest / 2) + rest % 2;
  }

  /** The part `f` of the fibre round trip `d` that the fixed-point coefficient stands for. */
  ghost predicate AlphaRelation(f: real, d: real, alpha: int32) {
    f == d / 2.0 + d * (alpha as real) / (ALPHA_ONE as real)
  }

  /** The computed delay, less the manual adjustment, is within 1.5 ps of the true one. */
  lemma DelayNear(mu: int64, d: Deltas, alpha: int32, phAdjust: int32, fms: real, fsm: real)
    requires DeltasFit(d)
    requires (mu - (d.txM + d.txS + d.rxM + d.rxS)) as real == fms + fsm && 0.0 <= fms + fsm < TWO32 as real
    requires AlphaRelation(fms, fms + fsm, alpha)
    ensures -1.5 < (DelayMs(mu, d, alpha, phAdjust) - phAdjust - d.txM - d.rxS) as real - fms <= 0.0
  {
    hide DelayMs;
    DelayMsExact(mu, d, alpha, phAdjust);
    RoundingError(mu - (d.txM + d.txS + d.rxM + d.rxS), alpha, fms);
  }

  lemma OffsetNear(s: Stamps, delay: int64, phAdjust: int32, ms: int, theta: real, fms: real)
    requires OffsetFits(s, delay)
    requires Picos(s.t2) as real == (Picos(s.t1) + ms) as real + fms + theta
    requires -1.5 < (delay - phAdjust - ms) as real - fms <= 0.0
    ensures -1.5 < (Picos(Offset(s, delay)) - phAdjust) as real + theta <= 0.0
  {
    OffsetExact(s, delay);
  }

  /** The round trip without the fixed delays is the time spent in the fibre. */
  lemma RestIsFibre(t1: int, t2: int, t3: int, t4: int, ms: int, sm: int, rest: int, theta: real, fms: real, fsm: real)
    requires rest == t4 - t1 - t3 + t2 - ms - sm
    requires t2 as real == (t1 + ms) as real + fms + theta
    requires t4 as real == (t3 + sm) as real + fsm - theta
    ensures rest as real == fms + fsm
  {
  }

  /** Main result: on a link whose fibre delays obey the fixed-point alpha relation exactly, the
      computed offset is within 1.5 ps of minus the clock difference `theta` plus the manual adjustment. */
  lemma OffsetError(s: Stamps, d: Deltas, alpha: int32, phAdjust: int32, theta: real, fms: real, fsm: real)
    requires StampsFit(s) && DeltasFit(d)
    requires OffsetFits(s, DelayMs(Picos(Mu(s)), d, alpha, phAdjust))
    requires Picos(s.t2) as real == (Picos(s.t1) + d.txM + d.rxS) as real + fms + theta
    requires Picos(s.t4) as real == (Picos(s.t3) + d.txS + d.rxM) as real + fsm - theta
    requires AlphaRelation(fms, fms + fsm, alpha) && 0.0 <= fms + fsm < TWO32 as real
    ensures -1.5 < (Picos(Offset(s, DelayMs(Picos(Mu(s)), d, alpha, phAdjust))) - phAdjust) as real + theta <= 0.0
  {
    hide DelayMs;
    MuExact(s);
    var mu := Picos(Mu(s));
    var rest := mu - (d.txM + d.txS + d.rxM + d.rxS);
    RestIsFibre(Picos(s.t1), Picos(s.t2), Picos(s.t3), Picos(s.t4), d.txM + d.rxS, d.txS + d.rxM, rest,
                theta, fms, fsm);
    DelayNear(mu, d, alpha, phAdjust, fms, fsm);
    OffsetNear(s, DelayMs(mu, d, alpha, phAdjust), phAdjust, d.txM + d.rxS, theta, fms);
  }

  /** What the servo then steers on: a reading that is the clock difference, as adjusted by hand, to
      1.5 ps, whose whole cycles are in the nanoseconds, and in which seconds and nanoseconds vanish
      together exactly when it is less than a cycle. */
  lemma SteersOnClockDifference(s: Stamps, d: Deltas, alpha: int32, phAdjust: int32, period: int32,
                                theta: real, fms: real, fsm: real)
    requires StampsFit(s) && DeltasFit(d)
    requires 0 <= DelayMs(Picos(Mu(s)), d, alpha, phAdjust) && OffsetFits(s, DelayMs(Picos(Mu(s)), d, alpha, phAdjust))
    requires s.t1.phase == 0 && 0 <= s.t1.nsec < NS_PER_SEC && 0 <= s.t2.phase && 0 <= s.t2.nsec
    requires HardwarizeFits(Offset(s, DelayMs(Picos(Mu(s)), d, alpha, phAdjust)), period) && ProperCycle(period)
    requires Picos(s.t2) as real == (Picos(s.t1) + d.txM + d.rxS) as real + fms + theta
    requires Picos(s.t4) as real == (Picos(s.t3) + d.txS + d.rxM) as real + fsm - theta
    requires AlphaRelation(fms, fms + fsm, alpha) && 0.0 <= fms + fsm < TWO32 as real
    ensures var hw, q := Hardwarize(Offset(s, DelayMs(Picos(Mu(s)), d, alpha, phAdjust)), period), CycleNs(period);
            && -1.5 < (Picos(hw) - phAdjust) as real + theta <= 0.0
            && hw.nsec % q == 0 && -1000 * q <= hw.phase < 1000 * q
            && (hw.sec == 0 && hw.nsec == 0 <==> -1000 * q <= Picos(hw) < 1000 * q)
  {
    hide DelayMs, Hardwarize, Offset, AlphaRelation, CycleNs;
    var delay := DelayMs(Picos(Mu(s)), d, alpha, phAdjust);
    OffsetError(s, d, alpha, phAdjust, theta, fms, fsm);
    OffsetCanonical(s, delay);
    HardwarizeExact(Offset(s, delay), period);
  }
}
