/** The servo in a closed loop with an ideal actuator (PTPWRd/dep/wr_servo.c:335-436): from which
    offsets and phase setpoints a freshly initialised servo reaches TRACK_PHASE, and from which it
    never does. `wr_servo_init` does not touch the actuator, so the setpoint may be any. */
module ServoLoop {
  import opened CTypes
  import opened WrTime
  import opened Servo
  import opened ServoRuns

  // ----- the loop -----

  /** The slave clock as the servo sees it: its offset to the master in picoseconds, and the phase
      setpoint it is running with. */
  datatype Plant = Plant(offset: int, phase: int32)

  /** An ideal actuator carries out each command exactly and at once. */
  function Actuate(p: Plant, c: Command): Plant {
    match c
    case AdjustCounters(sec, nsec) => p.(offset := p.offset - sec * PS_PER_SEC - nsec * PS_PER_NS)
    case AdjustPhase(ps) => Plant(p.offset - (ps - p.phase), ps)
  }

  function ActuateAll(p: Plant, cs: seq<Command>): Plant
    decreases |cs|
  {
    if cs == [] then p else ActuateAll(Actuate(p, cs[0]), cs[1..])
  }

  predicate Representable(o: int) {
    -0x4000_0000_0000_0000 * PS_PER_SEC <= o < 0x4000_0000_0000_0000 * PS_PER_SEC
  }

  /** The canonical timestamp of an offset. */
  function CanonicalTs(o: int): (t: WrTimestamp)
    requires Representable(o)
    ensures Canonical(t) && Picos(t) == o
    ensures -0x4000_0000_0000_0000 <= t.sec < 0x4000_0000_0000_0000
  {
    var ns := o / 1000;
    WrTimestamp(ns / 1_000_000_000, ns % 1_000_000_000, o % 1000)
  }

  predicate GoodPeriod(period: int32) {
    0 < period && ProperCycle(period) && CycleNs(period) * 1000 < 0x4000_0000
  }

  /** What the servo reads at an offset. */
  function Measure(o: int, period: int32): WrTimestamp
    requires Representable(o) && GoodPeriod(period)
  {
    Hardwarize(CanonicalTs(o), period)
  }

  datatype Loop = Loop(servo: Control, plant: Plant)

  /** One update of the closed loop. */
  function After(a: Loop, r: Reading): Loop {
    var (c, cs) := ServoStep(a.servo, r);
    Loop(c, ActuateAll(a.plant, cs))
  }

  /** The PLL is locked; `busy` says whether the actuator still reports an adjustment. */
  ghost predicate LoopStep(a: Loop, busy: bool, b: Loop, period: int32) {
    && Representable(a.plant.offset) && GoodPeriod(period)
    && exists delay: int64, tracking: bool ::
         b == After(a, Reading(Measure(a.plant.offset, period), delay, true, busy, tracking))
  }

  ghost predicate IsLoopRun(run: seq<Loop>, busy: seq<bool>, period: int32) {
    && |run| == |busy| + 1
    && forall i :: 0 <= i < |busy| ==> LoopStep(run[i], busy[i], run[i + 1], period)
  }

  /** A servo as `wr_servo_init` leaves it. */
  predicate IsFresh(l: Loop) {
    l.servo.state == SYNC_TAI && l.servo.missed == 0
  }

  predicate Tracking(l: Loop) {
    l.servo.state == TRACK_PHASE && l.servo.timingOn
  }

  /** The run reaches TRACK_PHASE at `n` for the first time. */
  ghost predicate Reaches(run: seq<Loop>, n: nat) {
    n < |run| && Tracking(run[n]) && forall i :: 0 <= i < n ==> !Tracking(run[i])
  }

  function CountIdle(busy: seq<bool>): nat {
    if busy == [] then 0 else CountIdle(busy[..|busy| - 1]) + (if busy[|busy| - 1] then 0 else 1)
  }

  // ----- the verdict -----

  predicate Stable(x: int) {
    -STABILITY_THRESHOLD < x < STABILITY_THRESHOLD
  }

  /** At least one whole cycle. */
  predicate Beyond(x: int, period: int32)
    requires 0 < period
  {
    x < -1000 * CycleNs(period) || 1000 * CycleNs(period) <= x
  }

  /** A pass of the servo that takes out all but `r` and runs with setpoint `f` exchanges the two:
      it leaves offset `f` and setpoint `r`. A stable `f` is accepted, one within a cycle is missed
      for ever, and a larger one is taken out by a second pass, which then leaves `r`. */
  function Leaves(f: int, r: int, period: int32): Option<int>
    requires 0 < period
  {
    if Stable(f) then Some(f) else if Beyond(f, period) && Stable(r) then Some(r) else None
  }

  /** The offset with which a fresh servo will reach TRACK_PHASE; None if it never will. Whole
      seconds are taken out together with a reset of the setpoint, after which nothing is left. */
  function FinalOffset(p: Plant, period: int32): Option<int>
    requires Representable(p.offset) && GoodPeriod(period)
  {
    var hw := Measure(p.offset, period);
    if hw.sec != 0 then Some(0) else Leaves(p.phase, hw.phase, period)
  }

  /** Taking out the seconds and the setpoint carries into a new second. */
  predicate Carries(p: Plant, period: int32)
    requires Representable(p.offset) && GoodPeriod(period)
  {
    PS_PER_SEC <= p.offset - Measure(p.offset, period).sec * PS_PER_SEC + p.phase
  }

  /** Idle updates that a fresh servo needs to reach TRACK_PHASE, or else to miss ten times. */
  function Budget(p: Plant, period: int32): nat
    requires Representable(p.offset) && GoodPeriod(period)
  {
    var hw := Measure(p.offset, period);
    if hw.sec != 0 then (if Carries(p, period) then 14 else 8) else 7 + Extra(p.phase, hw.phase, period)
  }

  /** Idle updates after the first pass. */
  function Extra(f: int, r: int, period: int32): (n: nat)
    requires 0 < period
    ensures n <= 16
  {
    if Stable(f) then 0
    else if !Beyond(f, period) then MAX_MISSED - 1
    else 7 + (if Stable(r) then 0 else MAX_MISSED - 1)
  }

  // ----- readings -----

  predicate ReadingOf(r: Reading, a: Loop, period: int32)
    requires Representable(a.plant.offset) && GoodPeriod(period)
  {
    r.locked && r.hw == Measure(a.plant.offset, period)
  }

  /** Taking the whole seconds, then the whole cycles, out of an offset. */
  lemma CountersReach(o: int, period: int32)
    requires Representable(o) && GoodPeriod(period)
    ensures var hw, q := Measure(o, period), CycleNs(period);
            && Picos(hw) == o
            && -1000 * q <= hw.phase < 1000 * q
            && (hw.sec != 0 ==> 0 <= o - hw.sec * PS_PER_SEC < PS_PER_SEC)
            && (hw.sec == 0 && hw.nsec == 0 <==> !Beyond(o, period))
  {
    HardwarizeExact(CanonicalTs(o), period);
  }

  /** An offset of any 32-bit setpoint, or of less than a second, has no whole seconds. */
  lemma NoSeconds(o: int, period: int32)
    requires GoodPeriod(period) && -0x8000_0000 <= o < PS_PER_SEC
    ensures Measure(o, period).sec == 0
  {
    HardwarizeShape(CanonicalTs(o), period);
  }

  lemma OneSecond(o: int, period: int32)
    requires GoodPeriod(period) && PS_PER_SEC <= o < 2 * PS_PER_SEC
    ensures Measure(o, period).sec == 1 && 0 <= Measure(o, period).phase
  {
    var t := CanonicalTs(o);
    assert t.sec == 1;
    HardwarizeShape(t, period);
  }

  /** Seconds without whole cycles read as they are. */
  lemma Residue(s: int, r: int, period: int32)
    requires GoodPeriod(period) && s in {0, 1} && !Beyond(r, period) && (s == 1 ==> 0 <= r)
    ensures Measure(s * PS_PER_SEC + r, period) == WrTimestamp(s, 0, r)
  {
    var o := s * PS_PER_SEC + r;
    CountersReach(o, period);
    if s == 1 {
      OneSecond(o, period);
      var t := CanonicalTs(o);
      assert t.nsec < CycleNs(period);
      HardwarizeShape(t, period);
      WholeCyclesBounds(t, CycleNs(period));
      SmallIsZero(WholeCycles(t, CycleNs(period)), CycleNs(period));
    }
  }

  lemma ActuateOne(p: Plant, c: Command)
    ensures ActuateAll(p, [c]) == Actuate(p, c)
  {
    assert [c][1..] == [];
  }

  lemma ActuateTwo(p: Plant, c: Command, d: Command)
    ensures ActuateAll(p, [c, d]) == Actuate(Actuate(p, c), d)
  {
    assert [c, d][1..] == [d];
    ActuateOne(Actuate(p, c), d);
  }

  /** A phase step leaves behind exactly the setpoint the actuator had before. */
  lemma PhaseStepLeavesSetpoint(a: Loop, r: Reading, period: int32)
    requires Representable(a.plant.offset) && GoodPeriod(period) && ReadingOf(r, a, period)
    requires a.servo.state == SYNC_PHASE && WholeCyclesZero(r.hw)
    ensures After(a, r).plant.offset == a.plant.phase
  {
    hide Measure, CycleNs;
    CountersReach(a.plant.offset, period);
    ActuateOne(a.plant, AdjustPhase(a.plant.offset));
  }

  /** The stability check, for a servo that has not yet missed ten times. */
  lemma StabilityCheck(c: Control, o: int, r: Reading, period: int32)
    requires GoodPeriod(period) && !Beyond(o, period) && r.hw == Measure(o, period) && r.locked
    requires c.state == WAIT_OFFSET_STABLE && c.missed < MAX_MISSED - 1
    ensures var d := ServoStep(c, r).0;
            && (d.state == TRACK_PHASE <==> Stable(o))
            && (d.state != TRACK_PHASE ==> d.state == WAIT_OFFSET_STABLE && d.missed == c.missed + 1)
  {
    hide Measure, CycleNs;
    Residue(0, o, period);
  }

  // ----- the journey of a servo -----

  /** Where a servo is: about to take out seconds, in a pass with `s` seconds, setpoint `f` and
      residue `r`, back at the start one second off, missing with offset `x`, arrived, or given up. */
  datatype Journey =
    | Begin(p: Plant)
    | Pass(s: int, f: int32, r: int32)
    | Far(r: int32)
    | Missing(x: int)
    | Arrived(x: int)
    | GivenUp

  /** The stages of a pass, counted down to the stability check. */
  predicate OnPass(k: nat, l: Loop, s: int, f: int32, r: int32, period: int32)
    requires Representable(l.plant.offset) && GoodPeriod(period)
  {
    var c, p, hw := l.servo, l.plant, Measure(l.plant.offset, period);
    match k
    case 7 => ((c.state == SYNC_TAI && s == 0) || (c.state == WAIT_SYNC_IDLE && c.next == SYNC_NSEC))
              && p.phase == f && hw.sec == s && hw.phase == r
    case 6 => c.state == SYNC_NSEC && p.phase == f && hw.sec == s && hw.phase == r
    case 5 => c.state == WAIT_SYNC_IDLE && c.next == SYNC_NSEC && p == Plant(s * PS_PER_SEC + r, f)
    case 4 => c.state == SYNC_NSEC && p == Plant(s * PS_PER_SEC + r, f)
    case 3 => c.state == SYNC_PHASE && p == Plant(s * PS_PER_SEC + r, f)
    case 2 => c.state == WAIT_SYNC_IDLE && c.next == WAIT_OFFSET_STABLE && p == Plant(s * PS_PER_SEC + f, r)
    case 1 => c.state == WAIT_OFFSET_STABLE && p == Plant(s * PS_PER_SEC + f, r)
    case _ => false
  }

  /** A residue is less than a cycle; a pass one second off runs with setpoint zero. */
  predicate PassOk(s: int, f: int32, r: int32, period: int32)
    requires 0 < period
  {
    !Beyond(r, period) && (s == 0 || (s == 1 && f == 0 && 0 <= r))
  }

  predicate On(j: Journey, k: nat, l: Loop, period: int32) {
    GoodPeriod(period) &&
    match j
    case Begin(p) =>
      IsFresh(l) && l.plant == p && Representable(p.offset) && Measure(p.offset, period).sec != 0
    case Pass(s, f, r) =>
      PassOk(s, f, r, period) && l.servo.missed == 0
      && Representable(l.plant.offset) && OnPass(k, l, s, f, r, period)
    case Far(r) => IsFresh(l) && l.plant == Plant(PS_PER_SEC, r) && 0 <= r && !Beyond(r, period)
    case Missing(x) =>
      && l.servo.state == WAIT_OFFSET_STABLE && l.plant.offset == x && !Stable(x) && !Beyond(x, period)
      && 0 < l.servo.missed && l.servo.missed + k == MAX_MISSED && 0 < k
    case Arrived(x) => Tracking(l) && l.plant.offset == x && Stable(x)
    case GivenUp =>
      && MAX_MISSED <= l.servo.missed && l.servo.state != TRACK_PHASE
      && !(l.servo.state == WAIT_SYNC_IDLE && l.servo.next == TRACK_PHASE)
  }

  /** The offset a journey ends with. */
  function Verdict(j: Journey, period: int32): Option<int>
    requires 0 < period
  {
    match j
    case Begin(_) => Some(0)
    case Pass(s, f, r) => if s == 0 then Leaves(f, r, period) else Some(0)
    case Far(_) => Some(0)
    case Missing(_) => None
    case Arrived(x) => Some(x)
    case GivenUp => None
  }

  /** Idle updates to its end. */
  function ToGo(j: Journey, k: nat, period: int32): nat
    requires GoodPeriod(period) && (j.Begin? ==> Representable(j.p.offset))
  {
    match j
    case Begin(p) => if Carries(p, period) then 14 else 8
    case Pass(s, f, r) => k + (if s == 0 then Extra(f, r, period) else 6)
    case Far(_) => 6
    case Missing(_) => k
    case Arrived(_) => 0
    case GivenUp => 0
  }

  /** One update takes a journey on: the verdict stays, and every update that finds the actuator
      idle uses up budget. */
  ghost predicate Follows(j: Journey, k: nat, busy: bool, j': Journey, k': nat, b: Loop, period: int32)
    requires GoodPeriod(period) && (j.Begin? ==> Representable(j.p.offset))
  {
    && On(j', k', b, period) && !j'.Begin?
    && Verdict(j', period) == Verdict(j, period)
    && ToGo(j', k', period) <= ToGo(j, k, period) - (if busy then 0 else 1)
  }

  /** Seconds are taken out and the setpoint is reset. */
  lemma BeginStep(a: Loop, r: Reading, period: int32) returns (j': Journey)
    requires On(Begin(a.plant), 0, a, period) && ReadingOf(r, a, period)
    ensures Follows(Begin(a.plant), 0, r.busy, j', 7, After(a, r), period)
  {
    hide Measure, CycleNs;
    var o := a.plant.offset - r.hw.sec * PS_PER_SEC + a.plant.phase;
    CountersReach(a.plant.offset, period);
    ActuateTwo(a.plant, AdjustCounters(r.hw.sec, 0), AdjustPhase(0));
    assert After(a, r).plant == Plant(o, 0);
    CountersReach(o, period);
    if Carries(a.plant, period) {
      OneSecond(o, period);
    } else {
      NoSeconds(o, period);
    }
    j' := Pass(Measure(o, period).sec, 0, Measure(o, period).phase);
  }

  /** The same from exactly one second off, where only the residue of the last pass is left. */
  lemma FarStep(a: Loop, r: Reading, period: int32)
    requires a.plant.offset == PS_PER_SEC && On(Far(a.plant.phase), 0, a, period) && ReadingOf(r, a, period)
    ensures Follows(Far(a.plant.phase), 0, r.busy, Pass(0, 0, a.plant.phase), 5, After(a, r), period)
  {
    hide Measure, CycleNs;
    Residue(1, 0, period);
    ActuateTwo(a.plant, AdjustCounters(1, 0), AdjustPhase(0));
  }

  /** The states that wait for the actuator. */
  lemma WaitStep(j: Journey, k: nat, a: Loop, r: Reading, period: int32)
    requires On(j, k, a, period) && j.Pass? && a.servo.state == WAIT_SYNC_IDLE && ReadingOf(r, a, period)
    ensures Follows(j, k, r.busy, j, if r.busy then k else k - 1, After(a, r), period)
  {
    hide Measure, Beyond;
  }

  /** The counters are right, or the whole cycles are taken out. */
  lemma CounterStep(j: Journey, k: nat, a: Loop, r: Reading, period: int32) returns (k': nat)
    requires On(j, k, a, period) && j.Pass? && a.servo.state in {SYNC_TAI, SYNC_NSEC} && ReadingOf(r, a, period)
    ensures Follows(j, k, r.busy, j, k', After(a, r), period)
  {
    hide Measure, CycleNs;
    if k == 4 {
      Residue(j.s, j.r, period);
      k' := 3;
    } else if k == 7 {
      k' := 6;
    } else if r.hw.nsec == 0 {
      CountersReach(a.plant.offset, period);
      k' := 3;
    } else {
      CountersReach(a.plant.offset, period);
      ActuateOne(a.plant, AdjustCounters(0, r.hw.nsec));
      k' := 5;
    }
  }

  /** The phase step exchanges setpoint and residue. */
  lemma PhaseStep(j: Journey, a: Loop, r: Reading, period: int32)
    requires On(j, 3, a, period) && j.Pass? && ReadingOf(r, a, period)
    ensures Follows(j, 3, r.busy, j, 2, After(a, r), period)
  {
    hide Measure, CycleNs;
    Residue(j.s, j.r, period);
    ActuateOne(a.plant, AdjustPhase(j.r));
  }

  /** The stability check one second off: back to the start. */
  lemma CheckFar(j: Journey, a: Loop, r: Reading, period: int32)
    requires On(j, 1, a, period) && j.Pass? && j.s == 1 && ReadingOf(r, a, period)
    ensures Follows(j, 1, r.busy, Far(j.r), 0, After(a, r), period)
  {
    hide Measure, CycleNs;
    Residue(1, 0, period);
  }

  /** With a setpoint of at least a cycle: another pass. */
  lemma CheckBeyond(j: Journey, a: Loop, r: Reading, period: int32)
    requires On(j, 1, a, period) && j.Pass? && j.s == 0 && Beyond(j.f, period) && ReadingOf(r, a, period)
    ensures Follows(j, 1, r.busy, Pass(0, j.r, r.hw.phase), 7, After(a, r), period)
  {
    hide Measure, CycleNs;
    CountersReach(j.f, period);
    NoSeconds(j.f, period);
  }

  /** With a smaller one: arrival or a miss. */
  lemma CheckNear(j: Journey, a: Loop, r: Reading, period: int32)
    requires On(j, 1, a, period) && j.Pass? && j.s == 0 && !Beyond(j.f, period) && ReadingOf(r, a, period)
    ensures var j' := if Stable(j.f) then Arrived(j.f) else Missing(j.f);
            Follows(j, 1, r.busy, j', MAX_MISSED - 1, After(a, r), period)
  {
    hide Measure, CycleNs;
    Residue(0, j.f, period);
  }

  lemma CheckStep(j: Journey, a: Loop, r: Reading, period: int32) returns (j': Journey, k': nat)
    requires On(j, 1, a, period) && j.Pass? && ReadingOf(r, a, period)
    ensures Follows(j, 1, r.busy, j', k', After(a, r), period)
  {
    hide Measure, CycleNs, Beyond, Follows, After, OnPass;
    if j.s == 1 {
      CheckFar(j, a, r, period);
      j', k' := Far(j.r), 0;
    } else if Beyond(j.f, period) {
      CheckBeyond(j, a, r, period);
      j', k' := Pass(0, j.r, r.hw.phase), 7;
    } else {
      CheckNear(j, a, r, period);
      j', k' := if Stable(j.f) then Arrived(j.f) else Missing(j.f), MAX_MISSED - 1;
    }
  }

  lemma MissStep(k: nat, a: Loop, r: Reading, period: int32) returns (j': Journey, k': nat)
    requires On(Missing(a.plant.offset), k, a, period) && ReadingOf(r, a, period)
    ensures Follows(Missing(a.plant.offset), k, r.busy, j', k', After(a, r), period)
  {
    hide Measure, CycleNs;
    Residue(0, a.plant.offset, period);
    j', k' := if k == 1 then GivenUp else Missing(a.plant.offset), k - 1;
  }

  lemma Advance(j: Journey, k: nat, a: Loop, busy: bool, b: Loop, period: int32) returns (j': Journey, k': nat)
    requires On(j, k, a, period) && !j.Arrived? && !j.GivenUp? && LoopStep(a, busy, b, period)
    ensures Follows(j, k, busy, j', k', b, period)
  {
    hide Measure, CycleNs, After, Verdict;
    var delay: int64, tracking: bool :|
      b == After(a, Reading(Measure(a.plant.offset, period), delay, true, busy, tracking));
    var r := Reading(Measure(a.plant.offset, period), delay, true, busy, tracking);
    match j
    case Begin(_) =>
      j' := BeginStep(a, r, period);
      k' := 7;
    case Far(_) =>
      FarStep(a, r, period);
      j', k' := Pass(0, 0, a.plant.phase), 5;
    case Missing(_) => j', k' := MissStep(k, a, r, period);
    case Pass(_, _, _) =>
      j' := j;
      if a.servo.state == WAIT_SYNC_IDLE {
        WaitStep(j, k, a, r, period);
        k' := if busy then k else k - 1;
      } else if k == 1 {
        j', k' := CheckStep(j, a, r, period);
      } else if k == 3 {
        PhaseStep(j, a, r, period);
        k' := 2;
      } else {
        k' := CounterStep(j, k, a, r, period);
      }
  }

  /** Ten misses are never forgotten. */
  lemma GivenUpStays(a: Loop, busy: bool, b: Loop, period: int32)
    requires On(GivenUp, 0, a, period) && LoopStep(a, busy, b, period)
    ensures On(GivenUp, 0, b, period)
  {
    hide Measure;
    var delay: int64, tracking: bool :|
      b == After(a, Reading(Measure(a.plant.offset, period), delay, true, busy, tracking));
    MissesAreFinal(a.servo, Reading(Measure(a.plant.offset, period), delay, true, busy, tracking));
  }

  // ----- runs -----

  ghost predicate FreshRun(run: seq<Loop>, busy: seq<bool>, period: int32) {
    IsLoopRun(run, busy, period) && GoodPeriod(period) && Representable(run[0].plant.offset) && IsFresh(run[0])
  }

  /** Where a fresh servo is before it has reached TRACK_PHASE. */
  lemma {:induction false} RunFollows(run: seq<Loop>, busy: seq<bool>, period: int32, n: nat)
    returns (j: Journey, k: nat)
    requires FreshRun(run, busy, period) && n < |run|
    requires forall i :: 0 <= i < n ==> !Tracking(run[i])
    ensures On(j, k, run[n], period) && Verdict(j, period) == FinalOffset(run[0].plant, period)
    ensures j.GivenUp? || ToGo(j, k, period) + CountIdle(busy[..n]) <= Budget(run[0].plant, period)
    ensures !j.Begin? || n == 0
  {
    hide Measure, CycleNs, LoopStep, OnPass;
    if n == 0 {
      j, k := FreshJourney(run[0], period);
    } else {
      j, k := RunFollows(run, busy, period, n - 1);
      assert LoopStep(run[n - 1], busy[n - 1], run[n], period);
      if j.GivenUp? {
        GivenUpStays(run[n - 1], busy[n - 1], run[n], period);
      } else {
        j, k := Advance(j, k, run[n - 1], busy[n - 1], run[n], period);
        assert busy[..n][..n - 1] == busy[..n - 1];
      }
    }
  }

  lemma FreshJourney(l: Loop, period: int32) returns (j: Journey, k: nat)
    requires GoodPeriod(period) && Representable(l.plant.offset) && IsFresh(l)
    ensures On(j, k, l, period) && Verdict(j, period) == FinalOffset(l.plant, period)
    ensures ToGo(j, k, period) == Budget(l.plant, period)
  {
    hide Measure, CycleNs;
    var hw := Measure(l.plant.offset, period);
    CountersReach(l.plant.offset, period);
    j, k := if hw.sec != 0 then Begin(l.plant) else Pass(0, l.plant.phase, hw.phase), 7;
  }

  /** Whatever the actuator reports, a fresh servo can reach TRACK_PHASE only with the offset
      foretold, and not at all if there is none. */
  lemma ReachesForetold(run: seq<Loop>, busy: seq<bool>, period: int32, n: nat)
    requires FreshRun(run, busy, period) && Reaches(run, n)
    ensures FinalOffset(run[0].plant, period) == Some(run[n].plant.offset)
  {
    hide Measure, CycleNs, LoopStep, FinalOffset;
    var j, k := RunFollows(run, busy, period, n);
  }

  lemma {:induction false} FirstTracking(run: seq<Loop>, i: nat) returns (n: nat)
    requires i < |run| && Tracking(run[i])
    ensures n <= i && Reaches(run, n)
  {
    if m :| 0 <= m < i && Tracking(run[m]) {
      n := FirstTracking(run, m);
    } else {
      n := i;
    }
  }

  /** Main result: a fresh servo that can settle reaches TRACK_PHASE, with the timing output on and
      the offset foretold, once the actuator was found idle as often as the budget says. */
  lemma ServoConverges(run: seq<Loop>, busy: seq<bool>, period: int32) returns (n: nat)
    requires FreshRun(run, busy, period)
    requires FinalOffset(run[0].plant, period).Some? && Budget(run[0].plant, period) <= CountIdle(busy)
    ensures Reaches(run, n) && CountIdle(busy[..n]) <= Budget(run[0].plant, period)
    ensures run[n].plant.offset == FinalOffset(run[0].plant, period).value
  {
    hide Measure, CycleNs, LoopStep, FinalOffset, Budget;
    n := 0;
    while n < |busy| && !Tracking(run[n])
      invariant n <= |busy|
      invariant forall i :: 0 <= i < n ==> !Tracking(run[i])
    {
      n := n + 1;
    }
    var j, k := RunFollows(run, busy, period, n);
    assert busy[..|busy|] == busy;
  }

  /** Main result, the other half: a servo that cannot settle never enters TRACK_PHASE in any run,
      and 23 idle updates are enough for it to have missed ten times. */
  lemma ServoNeverSettles(run: seq<Loop>, busy: seq<bool>, period: int32, n: nat)
    requires FreshRun(run, busy, period) && n < |run| && FinalOffset(run[0].plant, period).None?
    ensures run[n].servo.state != TRACK_PHASE
    ensures 23 <= CountIdle(busy[..n]) ==> MAX_MISSED <= run[n].servo.missed
  {
    hide Measure, CycleNs, LoopStep, FinalOffset;
    if i :| 0 <= i < n && Tracking(run[i]) {
      var m := FirstTracking(run, i);
      ReachesForetold(run, busy, period, m);
    }
    var j, k := RunFollows(run, busy, period, n);
  }

  /** Main result in one line: a fresh servo reaches TRACK_PHASE exactly when whole seconds are to be
      taken out, or its setpoint is stable, or its setpoint is at least a cycle and what the counters
      cannot take out of the offset is stable. */
  lemma ServoSettlesExactlyWhen(run: seq<Loop>, busy: seq<bool>, period: int32)
    requires FreshRun(run, busy, period) && 23 <= CountIdle(busy)
    ensures var p, hw := run[0].plant, Measure(run[0].plant.offset, period);
            (exists n :: 0 <= n < |run| && run[n].servo.state == TRACK_PHASE) <==>
            hw.sec != 0 || Stable(p.phase) || (Beyond(p.phase, period) && Stable(hw.phase))
  {
    hide Measure, CycleNs, LoopStep;
    if FinalOffset(run[0].plant, period).Some? {
      var n := ServoConverges(run, busy, period);
      assert run[n].servo.state == TRACK_PHASE;
    } else {
      forall n | 0 <= n < |run|
        ensures run[n].servo.state != TRACK_PHASE
      {
        ServoNeverSettles(run, busy, period, n);
      }
    }
  }

  /** Without whole seconds, eight idle updates take a fresh servo to TRACK_PHASE with the actuator's
      own setpoint left as offset exactly when that setpoint is stable. */
  lemma SetpointIsLeft(run: seq<Loop>, busy: seq<bool>, period: int32)
    requires FreshRun(run, busy, period) && 8 <= CountIdle(busy)
    requires Measure(run[0].plant.offset, period).sec == 0
    ensures (exists n: nat :: Reaches(run, n) && CountIdle(busy[..n]) <= 8 && run[n].plant.offset == run[0].plant.phase)
            <==> Stable(run[0].plant.phase)
  {
    hide Measure, CycleNs, LoopStep;
    if Stable(run[0].plant.phase) {
      var n := ServoConverges(run, busy, period);
    }
    if n: nat :| Reaches(run, n) && CountIdle(busy[..n]) <= 8 && run[n].plant.offset == run[0].plant.phase {
      ReachesForetold(run, busy, period, n);
    }
  }

  /** A servo with setpoint zero settles from any offset, with none left, within eight idle updates. */
  lemma ZeroSetpointSettles(p: Plant, period: int32)
    requires Representable(p.offset) && GoodPeriod(period) && p.phase == 0
    ensures FinalOffset(p, period) == Some(0) && Budget(p, period) <= 8
  {
    hide Measure, CycleNs;
    CountersReach(p.offset, period);
  }

  /** A concrete failure: an 8 ns cycle, no offset at all, and 500 ps left in the actuator from before.
      The servo moves the clock off, misses ten times and never reaches TRACK_PHASE. */
  lemma StaleSetpoint(run: seq<Loop>, busy: seq<bool>, n: nat)
    requires IsLoopRun(run, busy, 8000) && IsFresh(run[0]) && run[0].plant == Plant(0, 500) && n < |run|
    ensures run[n].servo.state != TRACK_PHASE
    ensures 23 <= CountIdle(busy[..n]) ==> MAX_MISSED <= run[n].servo.missed
  {
    Residue(0, 0, 8000);
    ServoNeverSettles(run, busy, 8000, n);
  }
}
