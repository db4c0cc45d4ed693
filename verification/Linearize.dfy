/** Linearization of receive timestamps (libptpnetif/ptpd_netif.c:97-175, libposix/net.c:116-165):
    a coarse counter that misbehaves around its transition is corrected with a second counter,
    clocked by the other edge, and with the measured phase. */
module Linearize {
  /** `inside_range` on a circle: `min` may be larger than `max`. */
  predicate InsideRange(min: int, max: int, x: int) {
    if min < max then min <= x <= max else x <= max || min <= x
  }

  /** `x` reduced to [0, p) when it is less than one period away. */
  function Wrap(x: int, p: int): int {
    if x < 0 then x + p else if x >= p then x - p else x
  }

  class RxTimestamp {
    var nsec: int
    var phase: int
    var rawPhase: int

    /** `ptpd_netif_linearize_rx_timestamp`. */
    method Linearize(dmtdPhase: int, cntrAhead: bool, transitionPoint: int, clockPeriod: int)
      requires 0 < clockPeriod && 0 <= dmtdPhase < clockPeriod && 0 <= transitionPoint < clockPeriod
      modifies this
      ensures rawPhase == dmtdPhase
      ensures (nsec, phase) == Linearized(old(nsec), dmtdPhase, cntrAhead, transitionPoint, clockPeriod)
    {
      rawPhase := dmtdPhase;
      var ph := clockPeriod - 1 - dmtdPhase;
      var tripLo := transitionPoint - clockPeriod / 4;
      if tripLo < 0 {
        tripLo := tripLo + clockPeriod;
      }
      var tripHi := transitionPoint + clockPeriod / 4;
      if tripHi >= clockPeriod {
        tripHi := tripHi - clockPeriod;
      }
      if InsideRange(tripLo, tripHi, ph) {
        if cntrAhead {
          nsec := nsec - clockPeriod / 1000;
        }
        if InsideRange(tripLo, transitionPoint, ph) {
          nsec := nsec + clockPeriod / 1000;
        }
      }
      phase := ph - transitionPoint - 1;
      if phase < 0 {
        phase := phase + clockPeriod;
      }
      phase := clockPeriod - 1 - phase;
    }
  }

  /** Nanoseconds and phase after linearization. */
  function Linearized(nsec: int, dmtd: int, ahead: bool, tp: int, p: int): (int, int)
    requires 0 < p
  {
    var x := p - 1 - dmtd;
    var lo, hi := Wrap(tp - p / 4, p), Wrap(tp + p / 4, p);
    var n := if InsideRange(lo, hi, x) then
               nsec - (if ahead then p / 1000 else 0) + (if InsideRange(lo, tp, x) then p / 1000 else 0)
             else nsec;
    (n, p - 1 - Wrap(x - tp - 1, p))
  }

  // ----- the physics -----

  /** A true instant is `u` picoseconds after tick `n` of a clock of period `p`. The detector
      shows the distance of the input from the transition point `tp`, on a circle. */
  function Detector(u: int, tp: int, p: int): int {
    p - 1 - Wrap(tp - u, p)
  }

  /** The falling-edge counter changes half a cycle after the tick. */
  function FallingCounter(n: int, u: int, p: int): int {
    if 2 * u < p then n - 1 else n
  }

  /** Within a quarter cycle of the tick the rising-edge counter cannot be trusted. */
  predicate Metastable(u: int, p: int) {
    u <= p / 4 || p - p / 4 <= u
  }

  /** What the rising-edge counter may show: the tick, or near the tick any value that is not
      behind the falling-edge counter nor more than one ahead of it. */
  predicate RisingCounter(shown: int, n: int, u: int, p: int) {
    if Metastable(u, p) then shown in {FallingCounter(n, u, p), FallingCounter(n, u, p) + 1} else shown == n
  }

  /** The window test of the source recognises exactly the metastable instants, and its inner
      test exactly those after the tick. */
  lemma WindowIsMetastable(u: int, tp: int, p: int)
    requires 4 <= p && 0 <= u < p && 0 <= tp < p
    ensures var x := p - 1 - Detector(u, tp, p);
            var lo, hi := Wrap(tp - p / 4, p), Wrap(tp + p / 4, p);
            && (InsideRange(lo, hi, x) <==> Metastable(u, p))
            && (InsideRange(lo, tp, x) <==> u <= p / 4)
  {
  }

  /** Main result: for every instant, every transition point, every behaviour of the rising-edge
      counter near its transition and every period, linearization returns the true tick and the
      true phase. `ahead` tells, as in the hardware, that the rising-edge counter leads the other. */
  lemma LinearizationExact(n: int, u: int, shown: int, tp: int, p: int)
    requires 0 < p && 0 <= u < p && 0 <= tp < p && RisingCounter(shown, n, u, p)
    ensures var ahead := shown == FallingCounter(n, u, p) + 1;
            Linearized(shown * (p / 1000), Detector(u, tp, p), ahead, tp, p) == (n * (p / 1000), u)
  {
    if 4 <= p {
      WindowIsMetastable(u, tp, p);
    }
    var c := p / 1000;
    assert (shown - 1) * c == shown * c - c && (shown + 1) * c == shown * c + c;
  }
}
