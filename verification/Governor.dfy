// When a captured frame is encoded, held or skipped, and that the rate is kept
// while no motion ends on a stale picture.

module Governor {
  import opened Basics

  const IDLE_GAP_NS := 100_000_000
  const FLUSH_SLACK_NS := 1_000_000

  datatype Admission = Encode | Hold | Skip

  // A zero interval is taken as one nanosecond.
  type Interval = n: int | 1 <= n <= 0xFFFF_FFFF_FFFF_FFFF witness 1

  datatype Gov = Gov(
    interval: Interval,
    holds: bool,
    nextSlot: U64,
    started: bool,
    gap: U64,
    lastArrival: Option<U64>,
    deadline: Option<U64>,
    grid: bool)

  function NewGov(interval: U64, holds: bool): Gov {
    var atLeastOne := Max(interval, 1);
    Gov(atLeastOne, holds, 0, false, atLeastOne, None, None, false)
  }

  /** The moving average lies between what it was and what came in. */
  function Averaged(average: U64, gap: U64): (r: U64)
    ensures Min(average, gap) <= r <= Max(average, gap)
  {
    average - average / 5 + gap / 5
  }

  function Heard(g: Gov, now: U64): Gov {
    var gap := if g.lastArrival.Some? then SatSub(now, g.lastArrival.value) else IDLE_GAP_NS;
    g.(gap := if gap < IDLE_GAP_NS then Averaged(g.gap, gap) else g.gap, lastArrival := Some(now))
  }

  // Entered below 7/10 of the interval, left above 17/20.
  predicate GridNext(g: Gov) {
    if g.grid then g.gap * 20 <= g.interval * 17 else g.gap * 10 < g.interval * 7
  }

  function Admit(g: Gov, now: U64): Gov {
    g.(nextSlot := if g.started then Max(SatAdd(g.nextSlot, g.interval), now) else now,
       started := true, deadline := None)
  }

  function CatchUp(slot: U64, interval: Interval, now: U64): U64 {
    if now >= SatAdd(slot, interval) then
      SatAdd(slot, SatMul(Floor(now - slot, interval), interval))
    else slot
  }

  function Floor(n: nat, d: nat): (q: nat)
    requires d > 0
    ensures Times(q, d) <= n < Times(q, d) + d
    ensures q <= n
  {
    Division(n, d);
    n / d
  }

  lemma Division(n: nat, d: nat)
    requires d > 0
    ensures Times(n / d, d) <= n < Times(n / d, d) + d && n / d <= n
  {
    var q := n / d;
    assert n == d * q + n % d;
    assert d * q == Times(q, d);
    TimesGrows(q, d);
  }

  lemma TimesGrows(q: nat, d: nat)
    requires d > 0
    ensures q <= Times(q, d)
  {
    assert Times(q, d) - q == Times(q, d - 1);
  }

  function Wait(g: Gov): U64 {
    Max(g.interval, SatAdd(SatMul(g.gap, 2), FLUSH_SLACK_NS))
  }

  function Early(g: Gov, now: U64): (Gov, Admission) {
    if !g.holds then (g, Skip)
    else (g.(deadline := Some(Max(g.nextSlot, SatAdd(now, Wait(g))))), Hold)
  }

  function OnGrid(g: Gov, now: U64): (Gov, Admission) {
    var c := g.(nextSlot := CatchUp(g.nextSlot, g.interval, now));
    if SatAdd(now, c.gap / 2) >= c.nextSlot then
      (c.(nextSlot := SatAdd(c.nextSlot, c.interval), deadline := None), Encode)
    else Early(c, now)
  }

  function OnFrame(g: Gov, now: U64): (Gov, Admission) {
    var h := Heard(g, now);
    if !h.started then (Admit(h, now), Encode)
    else
      var m := h.(grid := GridNext(h));
      if m.grid then OnGrid(m, now)
      else if now >= m.nextSlot then (Admit(m, now), Encode)
      else Early(m, now)
  }

  function OnFlush(g: Gov, now: U64): Gov {
    if g.grid then
      g.(nextSlot := SatAdd(CatchUp(g.nextSlot, g.interval, now), g.interval), deadline := None)
    else Admit(g, now)
  }

  class FrameGovernor {
    const interval: Interval
    const holds: bool
    var nextSlot: U64
    var started: bool
    var gap: U64
    var lastArrival: Option<U64>
    var deadline: Option<U64>
    var grid: bool

    ghost function State(): Gov
      reads this
    {
      Gov(interval, holds, nextSlot, started, gap, lastArrival, deadline, grid)
    }

    constructor (interval: U64, holds: bool)
      ensures State() == NewGov(interval, holds)
    {
      this.interval := Max(interval, 1);
      this.holds := holds;
      nextSlot, started := 0, false;
      gap := Max(interval, 1);
      lastArrival, deadline, grid := None, None, false;
    }

    method FrameArrived(now: U64) returns (admission: Admission)
      modifies this
      ensures (State(), admission) == OnFrame(old(State()), now)
    {
      hide Averaged, CatchUp, SatMul;
      if lastArrival.Some? {
        var since := SatSub(now, lastArrival.value);
        if since < IDLE_GAP_NS {
          gap := Averaged(gap, since);
        }
      }
      lastArrival := Some(now);
      if !started {
        Admits(now);
        return Encode;
      }
      if grid && gap * 20 > interval * 17 {
        grid := false;
      } else if !grid && gap * 10 < interval * 7 {
        grid := true;
      }
      if grid {
        CatchesUp(now);
        if SatAdd(now, gap / 2) >= nextSlot {
          nextSlot := SatAdd(nextSlot, interval);
          deadline := None;
          return Encode;
        }
      } else if now >= nextSlot {
        Admits(now);
        return Encode;
      }
      if !holds {
        return Skip;
      }
      var wait := Max(interval, SatAdd(SatMul(gap, 2), FLUSH_SLACK_NS));
      deadline := Some(Max(nextSlot, SatAdd(now, wait)));
      return Hold;
    }

    method Flushed(now: U64)
      modifies this
      ensures State() == OnFlush(old(State()), now)
    {
      if grid {
        CatchesUp(now);
        nextSlot := SatAdd(nextSlot, interval);
        deadline := None;
      } else {
        Admits(now);
      }
    }

    method CatchesUp(now: U64)
      modifies this`nextSlot
      ensures nextSlot == CatchUp(old(nextSlot), interval, now)
    {
      if now >= SatAdd(nextSlot, interval) {
        var behind := Floor(now - nextSlot, interval);
        nextSlot := SatAdd(nextSlot, SatMul(behind, interval));
      }
    }

    method Reset()
      modifies this
      ensures State() == NewGov(interval, holds)
    {
      nextSlot, started, gap, lastArrival, deadline, grid := 0, false, interval, None, None, false;
    }

    method Admits(now: U64)
      modifies this
      ensures State() == Admit(old(State()), now)
    {
      nextSlot := if started then Max(SatAdd(nextSlot, interval), now) else now;
      started := true;
      deadline := None;
    }
  }

  // ---- the capture loop ------------------------------------------------------

  // What became of a frame that arrived.
  datatype Fate = Sent(at: U64) | Superseded(newer: U64, deadline: U64) | Held | Skipped

  datatype Loop = Loop(gov: Gov, clock: U64, arrivals: seq<U64>, fates: seq<Fate>, encodes: seq<U64>)

  datatype Event = Arrives(at: U64) | Flushes(at: U64)

  function NewLoop(interval: U64, holds: bool): Loop {
    Loop(NewGov(interval, holds), 0, [], [], [])
  }

  // The frame held when another arrived.
  function Settled(l: Loop, at: U64): seq<Fate> {
    var n := |l.fates|;
    if n > 0 && l.fates[n - 1].Held? && l.gov.deadline.Some? then l.fates[n - 1 := Superseded(at, l.gov.deadline.value)]
    else l.fates
  }

  function Arrival(l: Loop, at: U64): Loop {
    var (gov, admission) := OnFrame(l.gov, at);
    var fate := if admission.Encode? then Sent(at) else if admission.Hold? then Held else Skipped;
    Loop(gov, at, l.arrivals + [at], Settled(l, at) + [fate], if admission.Encode? then l.encodes + [at] else l.encodes)
  }

  function Flush(l: Loop, at: U64): Loop {
    var n := |l.fates|;
    l.(gov := OnFlush(l.gov, at), clock := at, encodes := l.encodes + [at],
       fates := if n > 0 then l.fates[n - 1 := Sent(at)] else [])
  }

  function Step(l: Loop, e: Event): Loop {
    match e
    case Arrives(at) => Arrival(l, at)
    case Flushes(at) => Flush(l, at)
  }

  // The clock does not run back and is far from the end of its word; a flush
  // comes at the deadline or later.
  predicate Timely(l: Loop, e: Event) {
    && l.clock <= e.at && Room(l.gov, e.at)
    && (e.Flushes? ==> l.gov.deadline.Some? && l.gov.deadline.value <= e.at)
  }

  // Encodes `i` and `j` lie at least `j - i - 1 - 17/40` intervals apart.
  ghost predicate Apart(encodes: seq<U64>, interval: U64) {
    forall i, j :: 0 <= i < j < |encodes| ==>
      40 * (encodes[j] - encodes[i]) >= 40 * Times(j - i - 1, interval) - 17 * interval
  }

  // The slot after the last of `n` encodes is as many intervals past each.
  ghost predicate SlotPast(encodes: seq<U64>, interval: U64, slot: int) {
    forall i :: 0 <= i < |encodes| ==> slot >= encodes[i] + Times(|encodes| - 1 - i, interval)
  }

  ghost predicate GovOk(g: Gov, clock: U64) {
    && g.gap <= Max(g.interval, IDLE_GAP_NS)
    && (g.grid ==> g.gap * 20 <= g.interval * 17)
    && (!g.started || !g.holds ==> g.deadline.None?) && (!g.started ==> !g.grid)
    && (g.started ==> 40 * (g.nextSlot - clock) <= 57 * g.interval)
    && (g.deadline.Some? ==> g.nextSlot <= g.deadline.value)
  }

  ghost predicate LoopOk(l: Loop) {
    && GovOk(l.gov, l.clock)
    && (!l.gov.started ==> l.encodes == [])
    && SlotPast(l.encodes, l.gov.interval, l.gov.nextSlot)
    && Apart(l.encodes, l.gov.interval)
    && |l.fates| == |l.arrivals|
    && (l.gov.deadline.Some? <==> |l.fates| > 0 && l.fates[|l.fates| - 1].Held?)
  }

  // An encode at `at` from slot `slot` moves it to `slot'`.
  lemma EncodeKeepsApart(encodes: seq<U64>, interval: U64, slot: int, at: U64, slot': int)
    requires SlotPast(encodes, interval, slot) && Apart(encodes, interval)
    requires encodes == [] || (40 * at >= 40 * slot - 17 * interval && slot' >= slot + interval)
    requires slot' >= at
    ensures SlotPast(encodes + [at], interval, slot') && Apart(encodes + [at], interval)
  {
    hide Times;
    var n := |encodes|;
    var more := encodes + [at];
    forall i | 0 <= i < |more|
      ensures slot' >= more[i] + Times(|more| - 1 - i, interval)
    {
      OneMore(n - 1 - i, interval);
    }
  }

  lemma OneMore(k: int, interval: nat)
    ensures k >= 0 ==> Times(k + 1, interval) == Times(k, interval) + interval
    ensures Times(0, interval) == 0
  {
  }

  lemma CatchUpStays(slot: U64, interval: Interval, now: U64)
    requires slot + interval <= MAX_U64
    ensures var s := CatchUp(slot, interval, now);
            slot <= s && now < s + interval && (s == slot || s <= now)
  {
    hide Times, Floor;
  }

  /**
   * Resampling, the slot only ever moves by whole intervals: `m` of them, and
   * when frames stalled to the last one that began by `now`, plus the one taken.
   * A frame is taken if its slot came or is at most half a content gap away.
   */
  lemma GridKeepsItsPhase(g: Gov, now: U64) returns (m: nat)
    requires Room(g, now) && 40 * (g.nextSlot - now) <= 57 * g.interval && g.gap <= Max(g.interval, IDLE_GAP_NS)
    ensures var (g', admission) := OnGrid(g, now);
            && g'.nextSlot == g.nextSlot + Times(m, g.interval)
            && (g.nextSlot <= now ==> admission.Encode? && now < g'.nextSlot <= now + g.interval)
            && (now < g.nextSlot ==> (admission.Encode? <==> 2 * (g.nextSlot - now) <= g.gap))
  {
    hide CatchUp, Wait, Times;
    m := CatchUpIsWhole(g.nextSlot, g.interval, now);
    OneMore(m, g.interval);
    if OnGrid(g, now).1.Encode? {
      m := m + 1;
    }
  }

  lemma CatchUpIsWhole(slot: U64, interval: Interval, now: U64) returns (m: nat)
    requires slot + interval <= MAX_U64
    ensures var s := CatchUp(slot, interval, now);
            s == slot + Times(m, interval) && now < s + interval && (s == slot || s <= now)
  {
    OneMore(0, interval);
    hide Times, Floor;
    m := if now >= slot + interval then Floor(now - slot, interval) else 0;
  }

  // What holds of the governor once it has answered a frame at `now`.
  ghost predicate Answered(g: Gov, now: U64, g': Gov, admission: Admission) {
    && GovOk(g', now) && g'.interval == g.interval && g'.holds == g.holds && g'.started
    && (admission.Encode? ==>
          && g'.deadline.None? && now <= g'.nextSlot
          && (g.started ==> 40 * now >= 40 * g.nextSlot - 17 * g.interval && g'.nextSlot >= g.nextSlot + g.interval))
    && (!admission.Encode? ==> g'.nextSlot >= g.nextSlot && g.started)
    && (admission.Hold? ==> g.holds && HeldFor(g', now))
    && (admission.Skip? ==> !g.holds && (g.deadline.None? ==> g'.deadline.None?))
  }

  // Held at `now`, a frame is flushed neither before it came nor before the next
  // slot, and at most 57/40 intervals, or twice the cadence and slack, later.
  ghost predicate HeldFor(g: Gov, now: U64) {
    && g.deadline.Some? && now <= g.deadline.value && g.nextSlot <= g.deadline.value
    && 40 * (g.deadline.value - now) <= Max(57 * g.interval, 40 * (2 * g.gap + FLUSH_SLACK_NS))
  }

  predicate Room(g: Gov, now: U64) {
    now + 3 * g.interval + 2 * IDLE_GAP_NS + FLUSH_SLACK_NS <= MAX_U64
  }

  lemma EarlyAnswers(g: Gov, now: U64)
    requires GovOk(g.(deadline := None), now) && (!g.holds ==> g.deadline.None?) && g.started && Room(g, now)
    ensures Answered(g, now, Early(g, now).0, Early(g, now).1) && !Early(g, now).1.Encode?
  {
    assert Times(g.gap, 2) == 2 * g.gap;
    hide Times;
  }

  lemma AdmitAnswers(g: Gov, now: U64)
    requires GovOk(g, now) && Room(g, now) && (g.started ==> g.nextSlot <= now)
    ensures Answered(g, now, Admit(g, now), Encode)
  {
  }

  lemma OnGridAnswers(g: Gov, now: U64)
    requires GovOk(g, now) && g.started && g.grid && Room(g, now)
    ensures Answered(g, now, OnGrid(g, now).0, OnGrid(g, now).1)
  {
    hide CatchUp, Early, Wait;
    CatchUpStays(g.nextSlot, g.interval, now);
    EarlyAnswers(g.(nextSlot := CatchUp(g.nextSlot, g.interval, now)), now);
  }

  lemma FrameAnswers(g: Gov, clock: U64, now: U64)
    requires GovOk(g, clock) && clock <= now && Room(g, now)
    ensures Answered(g, now, OnFrame(g, now).0, OnFrame(g, now).1)
  {
    hide OnGrid, Early, Admit, Averaged, Room;
    var h := Heard(g, now);
    SameRoom(h, g, now);
    if !h.started {
      AdmitAnswers(h, now);
    } else {
      var m := h.(grid := GridNext(h));
      SameRoom(m, g, now);
      if m.grid {
        OnGridAnswers(m, now);
      } else if now >= m.nextSlot {
        AdmitAnswers(m, now);
      } else {
        EarlyAnswers(m, now);
      }
    }
  }

  // The deadline is the latest of the slot, one interval, and twice the cadence
  // and slack.
  ghost predicate Overdue(g: Gov, now: U64) {
    var slot, one, two := g.nextSlot as int, now + g.interval, now + 2 * g.gap + FLUSH_SLACK_NS;
    && g.deadline.Some? && g.deadline.value as int in {slot, one, two}
    && slot <= g.deadline.value && one <= g.deadline.value && two <= g.deadline.value
  }

  lemma EarlyUntil(g: Gov, now: U64)
    requires g.gap <= Max(g.interval, IDLE_GAP_NS) && Room(g, now) && Early(g, now).1.Hold?
    ensures Overdue(Early(g, now).0, now)
  {
    assert Times(g.gap, 2) == 2 * g.gap;
    hide Times;
  }

  // A held frame is flushed just when motion has stopped.
  lemma HeldUntilOverdue(g: Gov, clock: U64, now: U64)
    requires GovOk(g, clock) && clock <= now && Room(g, now) && OnFrame(g, now).1.Hold?
    ensures Overdue(OnFrame(g, now).0, now)
  {
    hide Overdue, Averaged, Early, CatchUp, GovOk;
    HeardGap(g, clock, now);
    var h := Heard(g, now);
    var m := h.(grid := GridNext(h));
    SameRoom(m, g, now);
    if m.grid {
      var c := m.(nextSlot := CatchUp(m.nextSlot, m.interval, now));
      SameRoom(c, g, now);
      EarlyUntil(c, now);
    } else {
      EarlyUntil(m, now);
    }
  }

  lemma HeardGap(g: Gov, clock: U64, now: U64)
    requires GovOk(g, clock)
    ensures Heard(g, now).gap <= Max(g.interval, IDLE_GAP_NS) && Heard(g, now).interval == g.interval
  {
    hide Averaged;
  }

  lemma SameRoom(h: Gov, g: Gov, now: U64)
    requires h.interval == g.interval
    ensures Room(h, now) <==> Room(g, now)
  {
  }

  lemma FlushKeepsGov(g: Gov, clock: U64, now: U64)
    requires GovOk(g, clock) && clock <= now && Room(g, now)
    requires g.deadline.Some? && g.deadline.value <= now
    ensures var g' := OnFlush(g, now);
            && GovOk(g', now) && g'.interval == g.interval && g'.holds == g.holds && g'.started && g'.deadline.None?
            && now <= g'.nextSlot && g.nextSlot <= now && g'.nextSlot >= g.nextSlot + g.interval
            && g'.gap == g.gap && g'.lastArrival == g.lastArrival
  {
    hide CatchUp;
    CatchUpStays(g.nextSlot, g.interval, now);
  }

  lemma ArrivalKeeps(l: Loop, at: U64)
    requires LoopOk(l) && Timely(l, Arrives(at))
    ensures LoopOk(Arrival(l, at))
  {
    hide GovOk, SlotPast, Apart, OnFrame, Room;
    FrameAnswers(l.gov, l.clock, at);
    var (gov, admission) := OnFrame(l.gov, at);
    if admission.Encode? {
      EncodeKeepsApart(l.encodes, l.gov.interval, l.gov.nextSlot, at, gov.nextSlot);
    } else {
      SlotMovesOn(l.encodes, l.gov.interval, l.gov.nextSlot, gov.nextSlot);
    }
    GovIsOk(gov, at);
    GovIsOk(l.gov, l.clock);
  }

  lemma GovIsOk(g: Gov, clock: U64)
    requires GovOk(g, clock)
    ensures !g.started || !g.holds ==> g.deadline.None?
  {
  }

  lemma SlotMovesOn(encodes: seq<U64>, interval: U64, slot: int, slot': int)
    requires SlotPast(encodes, interval, slot) && slot <= slot'
    ensures SlotPast(encodes, interval, slot')
  {
    hide Times;
  }

  lemma FlushKeeps(l: Loop, at: U64)
    requires LoopOk(l) && Timely(l, Flushes(at))
    ensures LoopOk(Flush(l, at))
  {
    hide GovOk, SlotPast, Apart, OnFlush, Room;
    GovIsOk(l.gov, l.clock);
    FlushKeepsGov(l.gov, l.clock, at);
    EncodeKeepsApart(l.encodes, l.gov.interval, l.gov.nextSlot, at, OnFlush(l.gov, at).nextSlot);
  }

  lemma StepKeeps(l: Loop, e: Event)
    requires LoopOk(l) && Timely(l, e)
    ensures LoopOk(Step(l, e)) && Step(l, e).gov.interval == l.gov.interval && Step(l, e).gov.holds == l.gov.holds
  {
    hide LoopOk, GovOk, OnFrame, OnFlush, Timely;
    assert GovOk(l.gov, l.clock) && Room(l.gov, e.at) && l.clock <= e.at by { LoopIsOk(l, e); }
    match e {
      case Arrives(at) => {
        ArrivalKeeps(l, at);
        FrameAnswers(l.gov, l.clock, at);
      }
      case Flushes(at) => {
        FlushKeeps(l, at);
        assert l.gov.deadline.Some? && l.gov.deadline.value <= at by { LoopIsOk(l, e); }
        FlushKeepsGov(l.gov, l.clock, at);
      }
    }
  }

  lemma LoopIsOk(l: Loop, e: Event)
    requires LoopOk(l) && Timely(l, e)
    ensures GovOk(l.gov, l.clock) && Room(l.gov, e.at) && l.clock <= e.at
    ensures e.Flushes? ==> l.gov.deadline.Some? && l.gov.deadline.value <= e.at
  {
  }

  ghost predicate TimelyRun(l: Loop, events: seq<Event>)
    decreases |events|
  {
    events == [] || (Timely(l, events[0]) && TimelyRun(Step(l, events[0]), events[1..]))
  }

  function After(l: Loop, events: seq<Event>): Loop
    decreases |events|
  {
    if events == [] then l else After(Step(l, events[0]), events[1..])
  }

  lemma {:induction false} RunKeeps(l: Loop, events: seq<Event>)
    requires LoopOk(l) && TimelyRun(l, events)
    ensures LoopOk(After(l, events)) && After(l, events).gov.interval == l.gov.interval
    decreases |events|
  {
    hide LoopOk, Step, Timely;
    if events != [] {
      StepKeeps(l, events[0]);
      RunKeeps(Step(l, events[0]), events[1..]);
    }
  }

  /**
   * Over every run with the clock not running back and no flush before its
   * deadline, through every switch in and out of the grid, with holding on or
   * off: encodes `i` to `j` span at least `j - i - 1 - 17/40` client intervals.
   */
  lemma EveryRunIsSpaced(interval: U64, holds: bool, events: seq<Event>)
    requires TimelyRun(NewLoop(interval, holds), events)
    ensures Apart(After(NewLoop(interval, holds), events).encodes, Max(interval, 1))
  {
    RunKeeps(NewLoop(interval, holds), events);
  }

  // ---- what becomes of every frame -------------------------------------------

  // The loop flushes at the deadline; a frame arriving just then comes first.
  predicate Prompt(l: Loop, e: Event) {
    && Timely(l, e)
    && (l.gov.deadline.Some? ==> e.at <= l.gov.deadline.value)
  }

  // Gaps shorter than idle lie between `lo` and `hi`.
  predicate InCadence(l: Loop, e: Event, lo: nat, hi: nat) {
    var last := l.gov.lastArrival;
    e.Arrives? && last.Some? ==> e.at - last.value >= IDLE_GAP_NS || lo <= e.at - last.value <= hi
  }

  ghost predicate GapOk(g: Gov, clock: U64, lo: nat, hi: nat) {
    lo <= g.gap <= hi && (g.lastArrival.Some? ==> g.lastArrival.value <= clock)
  }

  function WaitBound(interval: nat, gap: nat): int {
    Max(57 * interval, 40 * (2 * gap + FLUSH_SLACK_NS))
  }

  ghost predicate FateOk(l: Loop, k: nat, hi: nat)
    requires k < |l.arrivals|
  {
    k < |l.fates| &&
    match l.fates[k]
    case Sent(at) => l.arrivals[k] <= at && 40 * (at - l.arrivals[k]) <= WaitBound(l.gov.interval, hi)
    case Superseded(newer, deadline) =>
      k + 1 < |l.arrivals| && newer == l.arrivals[k + 1] && l.arrivals[k] <= newer <= deadline
    case Held => k + 1 == |l.arrivals|
    case Skipped => !l.gov.holds
  }

  ghost predicate Accounted(l: Loop, lo: nat, hi: nat) {
    && (forall k: nat :: k < |l.arrivals| ==> FateOk(l, k, hi))
    && GapOk(l.gov, l.clock, lo, hi)
    && (|l.arrivals| > 0 ==> l.arrivals[|l.arrivals| - 1] <= l.clock)
    && (l.gov.deadline.Some? ==>
          && |l.arrivals| > 0
          && 40 * (l.gov.deadline.value - l.arrivals[|l.arrivals| - 1]) <= WaitBound(l.gov.interval, hi))
  }

  lemma FrameKeepsGap(g: Gov, clock: U64, now: U64, lo: nat, hi: nat)
    requires GapOk(g, clock, lo, hi) && clock <= now
    requires g.lastArrival.Some? ==> now - g.lastArrival.value >= IDLE_GAP_NS || lo <= now - g.lastArrival.value <= hi
    ensures GapOk(OnFrame(g, now).0, now, lo, hi) && OnFrame(g, now).0.lastArrival == Some(now)
    ensures OnFrame(g, now).0.gap == Heard(g, now).gap
  {
    hide CatchUp, Averaged;
  }

  lemma ArrivalAccounts(l: Loop, at: U64, lo: nat, hi: nat)
    requires LoopOk(l) && Accounted(l, lo, hi) && Prompt(l, Arrives(at)) && InCadence(l, Arrives(at), lo, hi)
    ensures Accounted(Arrival(l, at), lo, hi)
  {
    hide OnFrame, GovOk, SlotPast, Apart, Room;
    LoopIsOk(l, Arrives(at));
    FrameAnswers(l.gov, l.clock, at);
    FrameKeepsGap(l.gov, l.clock, at, lo, hi);
    var l' := Arrival(l, at);
    var n := |l.arrivals|;
    forall k: nat | k < n + 1
      ensures FateOk(l', k, hi)
    {
      if k < n {
        assert FateOk(l, k, hi);
      }
    }
  }

  lemma FlushAccounts(l: Loop, at: U64, lo: nat, hi: nat)
    requires LoopOk(l) && Accounted(l, lo, hi) && Prompt(l, Flushes(at))
    ensures Accounted(Flush(l, at), lo, hi)
  {
    hide OnFlush, GovOk, SlotPast, Apart, Room;
    LoopIsOk(l, Flushes(at));
    FlushKeepsGov(l.gov, l.clock, at);
    var l' := Flush(l, at);
    forall k: nat | k < |l.arrivals|
      ensures FateOk(l', k, hi)
    {
      assert FateOk(l, k, hi);
    }
  }

  ghost predicate PromptRun(l: Loop, events: seq<Event>, lo: nat, hi: nat)
    decreases |events|
  {
    events == [] ||
    (Prompt(l, events[0]) && InCadence(l, events[0], lo, hi) && PromptRun(Step(l, events[0]), events[1..], lo, hi))
  }

  lemma {:induction false} RunAccounts(l: Loop, events: seq<Event>, lo: nat, hi: nat)
    requires LoopOk(l) && Accounted(l, lo, hi) && PromptRun(l, events, lo, hi)
    ensures LoopOk(After(l, events)) && Accounted(After(l, events), lo, hi)
    decreases |events|
  {
    hide LoopOk, Accounted, Arrival, Flush, InCadence, Timely;
    if events != [] {
      StepKeeps(l, events[0]);
      if events[0].Arrives? {
        ArrivalAccounts(l, events[0].at, lo, hi);
      } else {
        FlushAccounts(l, events[0].at, lo, hi);
      }
      RunAccounts(Step(l, events[0]), events[1..], lo, hi);
    }
  }

  /**
   * With the loop flushing at the deadline, every frame that arrived was encoded
   * at most max(57/40 interval, 2 * hi + 1 ms) later, or gave way to the next
   * one before its deadline, or is the newest and held; with holding on none is
   * skipped. `lo` and `hi` bound the interval and every gap shorter than idle,
   * and the averaged gap stays between them.
   */
  lemma EveryFrameIsAccountedFor(interval: U64, holds: bool, events: seq<Event>, lo: nat, hi: nat)
    requires lo <= Max(interval, 1) <= hi && PromptRun(NewLoop(interval, holds), events, lo, hi)
    ensures var l := After(NewLoop(interval, holds), events);
            && |l.fates| == |l.arrivals|
            && (forall k: nat :: k < |l.arrivals| ==> FateOk(l, k, hi))
            && lo <= l.gov.gap <= hi
            && (|l.arrivals| > 0 ==> (l.fates[|l.arrivals| - 1].Held? <==> l.gov.deadline.Some?))
  {
    RunAccounts(NewLoop(interval, holds), events, lo, hi);
  }

  // ---- the legacy rule -------------------------------------------------------

  // Encode when the slot is open, else discard.
  datatype Legacy = Legacy(next: int, started: bool, encodes: seq<U64>)

  function LegacyFrame(g: Legacy, interval: nat, at: U64): Legacy {
    if !g.started then Legacy(at, true, [at])
    else if at >= g.next then Legacy(Max(g.next + interval, at), true, g.encodes + [at])
    else g
  }

  function LegacyRun(interval: nat, arrivals: seq<U64>): Legacy {
    var n := |arrivals|;
    if n == 0 then Legacy(0, false, [])
    else LegacyFrame(LegacyRun(interval, arrivals[..n - 1]), interval, arrivals[n - 1])
  }

  // What is held is flushed at its deadline if that is before the next arrival;
  // with `ties` also one whose deadline is that very moment. The capture loop
  // takes the frame that wakes it at the deadline, the test's driver flushes.
  function Driven(l: Loop, at: U64, ties: bool): Loop {
    var late := l.gov.deadline.Some? && (l.gov.deadline.value < at || (ties && l.gov.deadline.value == at));
    Arrival(if late then Flush(l, l.gov.deadline.value) else l, at)
  }

  function Drive(interval: U64, arrivals: seq<U64>, ties: bool): Loop {
    var n := |arrivals|;
    if n == 0 then NewLoop(interval, true) else Driven(Drive(interval, arrivals[..n - 1], ties), arrivals[n - 1], ties)
  }

  // The wait a gap of `hi` has to fit in: at least `hi` where a tie goes to the
  // arrival, more than that where it goes to the flush.
  function WaitFor(hi: nat, ties: bool): nat {
    if ties then hi + 1 else hi
  }

  // Gaps from `lo` to `hi`: none clearly faster than the client, the slowest
  // inside the wait for the fastest. A gap of just that wait needs the tie.
  ghost predicate Steady(arrivals: seq<U64>, interval: Interval, lo: nat, hi: nat, ties: bool) {
    && 10 * lo >= 7 * interval && WaitFor(hi, ties) <= Max(interval, 2 * Min(interval, lo) + FLUSH_SLACK_NS)
    && (forall k :: 0 < k < |arrivals| ==> lo <= arrivals[k] - arrivals[k - 1] <= hi)
    && (forall k :: 0 <= k < |arrivals| ==> arrivals[k] + 3 * interval + 2 * IDLE_GAP_NS + FLUSH_SLACK_NS <= MAX_U64)
  }

  ghost predicate SameAs(g: Gov, encodes: seq<U64>, legacy: Legacy, interval: Interval, lo: nat, hi: nat) {
    && g.interval == interval && g.holds && !g.grid && Min(interval, lo) <= g.gap <= Max(interval, IDLE_GAP_NS)
    && g.started == legacy.started && encodes == legacy.encodes && (!g.started ==> encodes == [] && g.lastArrival.None?)
    && (g.started ==> g.nextSlot == legacy.next && g.lastArrival.Some? && g.nextSlot <= g.lastArrival.value + interval)
    && (g.deadline.Some? ==> g.lastArrival.Some? && g.lastArrival.value + hi <= g.deadline.value)
  }

  lemma FrameLikeLegacy(g: Gov, encodes: seq<U64>, legacy: Legacy, interval: Interval, lo: nat, hi: nat, at: U64)
    requires SameAs(g, encodes, legacy, interval, lo, hi)
    requires 10 * lo >= 7 * interval && hi <= Max(interval, 2 * Min(interval, lo) + FLUSH_SLACK_NS)
    requires g.lastArrival.Some? ==> lo <= at - g.lastArrival.value <= hi
    requires at + 3 * interval + 2 * IDLE_GAP_NS + FLUSH_SLACK_NS <= MAX_U64
    ensures var (g', admission) := OnFrame(g, at);
            && (admission.Encode? || admission.Hold?)
            && g'.lastArrival == Some(at)
            && SameAs(g', if admission.Encode? then encodes + [at] else encodes,
                      LegacyFrame(legacy, interval, at), interval, lo, hi)
  {
    hide CatchUp, Averaged;
    assert Times(Heard(g, at).gap, 2) == 2 * Heard(g, at).gap;
    hide Times;
  }

  // Every frame encoded is encoded as it arrives.
  ghost predicate SentAtOnce(fates: seq<Fate>, arrivals: seq<U64>) {
    |fates| == |arrivals| && forall k :: 0 <= k < |fates| && fates[k].Sent? ==> fates[k].at == arrivals[k]
  }

  ghost predicate LikeLegacy(l: Loop, legacy: Legacy, arrivals: seq<U64>, interval: Interval, lo: nat, hi: nat) {
    && SameAs(l.gov, l.encodes, legacy, interval, lo, hi)
    && SentAtOnce(l.fates, arrivals)
    && l.gov.lastArrival == (if |arrivals| == 0 then None else Some(arrivals[|arrivals| - 1]))
  }

  lemma DrivenLikeLegacy(
      l: Loop, legacy: Legacy, before: seq<U64>, interval: Interval, lo: nat, hi: nat, at: U64, ties: bool)
    requires LikeLegacy(l, legacy, before, interval, lo, WaitFor(hi, ties))
    requires 10 * lo >= 7 * interval && WaitFor(hi, ties) <= Max(interval, 2 * Min(interval, lo) + FLUSH_SLACK_NS)
    requires |before| > 0 ==> lo <= at - before[|before| - 1] <= hi
    requires at + 3 * interval + 2 * IDLE_GAP_NS + FLUSH_SLACK_NS <= MAX_U64
    ensures LikeLegacy(Driven(l, at, ties), LegacyFrame(legacy, interval, at), before + [at],
                       interval, lo, WaitFor(hi, ties))
  {
    hide OnFrame, LegacyFrame, Flush;
    FrameLikeLegacy(l.gov, l.encodes, legacy, interval, lo, WaitFor(hi, ties), at);
    assert Driven(l, at, ties) == Arrival(l, at);
  }

  /**
   * Fed such content, the governor never resamples, never flushes, and encodes
   * exactly the frames the legacy rule encodes, each as it arrives, whichever way
   * a tie at the deadline goes.
   */
  lemma {:induction false} SteadyContentIsAdmittedAsBefore(
      interval: Interval, arrivals: seq<U64>, lo: nat, hi: nat, ties: bool)
    requires Steady(arrivals, interval, lo, hi, ties)
    ensures LikeLegacy(Drive(interval, arrivals, ties), LegacyRun(interval, arrivals), arrivals,
                       interval, lo, WaitFor(hi, ties))
    decreases |arrivals|
  {
    hide Driven, LegacyFrame, LikeLegacy, WaitFor;
    var n := |arrivals|;
    if n == 0 {
      StartsLikeLegacy(interval, lo, WaitFor(hi, ties));
    } else {
      var before, at := arrivals[..n - 1], arrivals[n - 1];
      SteadyContentIsAdmittedAsBefore(interval, before, lo, hi, ties);
      assert |before| > 0 ==> before[|before| - 1] == arrivals[n - 2];
      DrivenLikeLegacy(Drive(interval, before, ties), LegacyRun(interval, before), before, interval, lo, hi, at, ties);
      assert before + [at] == arrivals;
    }
  }

  lemma StartsLikeLegacy(interval: Interval, lo: nat, hi: nat)
    ensures LikeLegacy(NewLoop(interval, true), Legacy(0, false, []), [], interval, lo, hi)
  {
  }
}
