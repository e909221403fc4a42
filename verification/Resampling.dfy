// When the governor resamples on a grid, and that each slot there takes the frame
// nearest it.

module Resampling {
  import opened Basics
  import opened Governor

  function Pow(b: nat, n: nat): (p: nat)
    ensures b > 0 ==> p > 0
  {
    if n == 0 then 1
    else
      Positive(b, Pow(b, n - 1));
      Times(b, Pow(b, n - 1))
  }

  lemma Positive(x: nat, y: nat)
    ensures x > 0 && y > 0 ==> Times(x, y) > 0
  {
  }

  // The moving average takes a fifth of what comes in, to less than a nanosecond.
  lemma AverageMovesAFifth(average: U64, gap: U64)
    ensures var r := Averaged(average, gap); -5 < 5 * r - (4 * average + gap) < 5
  {
  }

  // ---- the cadence over a run ------------------------------------------------

  // Every frame comes `lo` to `hi` after the one before it.
  predicate Paced(l: Loop, events: seq<Event>, lo: nat, hi: nat)
    decreases |events|
  {
    events == [] ||
    (&& (events[0].Arrives? ==>
           l.gov.lastArrival.Some? && lo <= events[0].at - l.gov.lastArrival.value <= hi)
     && Paced(Step(l, events[0]), events[1..], lo, hi))
  }

  function Frames(events: seq<Event>): nat
    decreases |events|
  {
    if events == [] then 0 else (if events[0].Arrives? then 1 else 0) + Frames(events[1..])
  }

  predicate Running(g: Gov) {
    g.started && g.lastArrival.Some?
  }

  lemma FrameHears(l: Loop, at: U64, lo: nat, hi: nat)
    requires Running(l.gov) && lo <= at - l.gov.lastArrival.value <= hi < IDLE_GAP_NS
    ensures var g, g' := l.gov, Step(l, Arrives(at)).gov;
            && Running(g') && g'.interval == g.interval
            && 5 * (g'.gap - (hi + 4)) <= 4 * (g.gap - (hi + 4))
            && 5 * (lo - 4 - g'.gap) <= 4 * (lo - 4 - g.gap)
            && (10 * g'.gap < 7 * g.interval ==> g'.grid)
            && (20 * g'.gap > 17 * g.interval ==> !g'.grid)
  {
    AverageMovesAFifth(l.gov.gap, at - l.gov.lastArrival.value);
    hide Averaged, CatchUp, Wait, SatMul;
  }

  lemma FlushHearsNothing(l: Loop, at: U64)
    requires Running(l.gov)
    ensures var g, g' := l.gov, Step(l, Flushes(at)).gov;
            Running(g') && g'.interval == g.interval && g'.gap == g.gap && g'.grid == g.grid
  {
    hide CatchUp;
  }

  // One factor more on either side.
  lemma OneMore(n: nat, x: int, y: int, z: int)
    requires 5 * y <= 4 * x && Times(Pow(5, n), z) <= Times(Pow(4, n), y)
    ensures Times(Pow(5, n + 1), z) <= Times(Pow(4, n + 1), x)
  {
    Scale(Pow(5, n), 5, z);
    Scale(Pow(4, n), 4, x);
    Scale(Pow(4, n), 5, y);
    Monotone(Pow(4, n), 5 * y, 4 * x);
  }

  lemma Scale(p: nat, k: nat, x: int)
    ensures Times(Times(k, p), x) == k * Times(p, x) == Times(p, k * x)
  {
    assert (k * p) * x == k * (p * x) == p * (k * x);
  }

  lemma Monotone(p: nat, x: int, y: int)
    ensures x <= y ==> Times(p, x) <= Times(p, y)
    ensures p > 0 && Times(p, x) < Times(p, y) ==> x < y
  {
    if x <= y {
      assert p * (y - x) >= 0;
    } else {
      assert p * (x - y) >= 0;
    }
  }

  // After `n` frames what is left of the old cadence is (4/5)^n of it.
  lemma {:induction false} CadenceSettles(l: Loop, events: seq<Event>, lo: nat, hi: nat)
    requires Running(l.gov) && Paced(l, events, lo, hi) && hi < IDLE_GAP_NS
    ensures var g, g', n := l.gov, After(l, events).gov, Frames(events);
            && Running(g') && g'.interval == g.interval
            && Times(Pow(5, n), g'.gap - (hi + 4)) <= Times(Pow(4, n), g.gap - (hi + 4))
            && Times(Pow(5, n), lo - 4 - g'.gap) <= Times(Pow(4, n), lo - 4 - g.gap)
    decreases |events|
  {
    hide Step, Pow, Times, Running;
    if events == [] {
      NoneYet();
    } else {
      var l', rest := Step(l, events[0]), events[1..];
      match events[0] {
        case Arrives(at) => {
          FrameHears(l, at, lo, hi);
          CadenceSettles(l', rest, lo, hi);
          var h, b, n := hi + 4, lo - 4, Frames(rest);
          OneMore(n, l.gov.gap - h, l'.gov.gap - h, After(l', rest).gov.gap - h);
          OneMore(n, b - l.gov.gap, b - l'.gov.gap, b - After(l', rest).gov.gap);
        }
        case Flushes(at) => {
          FlushHearsNothing(l, at);
          CadenceSettles(l', rest, lo, hi);
        }
      }
    }
  }

  lemma NoneYet()
    ensures Pow(5, 0) == 1 && Pow(4, 0) == 1
    ensures forall x {:trigger Times(1, x)} :: Times(1, x) == x
  {
  }

  // The newest frame decides the mode where its cadence is clear.
  lemma {:induction false} TheNewestDecides(l: Loop, events: seq<Event>, lo: nat, hi: nat)
    requires Running(l.gov) && Paced(l, events, lo, hi) && hi < IDLE_GAP_NS
    ensures var g, g' := l.gov, After(l, events).gov;
            && g'.interval == g.interval
            && (Frames(events) == 0 ==> g'.gap == g.gap && g'.grid == g.grid)
            && (Frames(events) > 0 ==>
                  && (10 * g'.gap < 7 * g.interval ==> g'.grid)
                  && (20 * g'.gap > 17 * g.interval ==> !g'.grid))
    decreases |events|
  {
    hide Step, Running;
    if events != [] {
      var l', rest := Step(l, events[0]), events[1..];
      match events[0] {
        case Arrives(at) => FrameHears(l, at, lo, hi);
        case Flushes(at) => FlushHearsNothing(l, at);
      }
      TheNewestDecides(l', rest, lo, hi);
    }
  }

  // From an average of `gap`, `n` gaps of at most `hi` bring it below 7/10 of the
  // interval; `n` gaps of at least `lo` bring it above 17/20.
  predicate Quickens(interval: int, gap: int, hi: nat, n: nat) {
    10 * Times(Pow(4, n), gap - (hi + 4)) < Times(Pow(5, n), 7 * interval - 10 * (hi + 4))
  }

  predicate Slackens(interval: int, gap: int, lo: nat, n: nat) {
    20 * Times(Pow(4, n), lo - 4 - gap) < Times(Pow(5, n), 20 * (lo - 4) - 17 * interval)
  }

  lemma {:induction false} QuickensForGood(interval: int, gap: int, hi: nat, n: nat, m: nat)
    requires 10 * (hi + 4) < 7 * interval && Quickens(interval, gap, hi, n) && n <= m
    ensures Quickens(interval, gap, hi, m)
    decreases m - n
  {
    if n < m {
      StrictlyOneMore(n, 10 * (gap - (hi + 4)), 7 * interval - 10 * (hi + 4));
      Scale(Pow(4, n), 10, gap - (hi + 4));
      Scale(Pow(4, n + 1), 10, gap - (hi + 4));
      hide Times, Pow;
      QuickensForGood(interval, gap, hi, n + 1, m);
    }
  }

  lemma {:induction false} SlackensForGood(interval: int, gap: int, lo: nat, n: nat, m: nat)
    requires 17 * interval < 20 * (lo - 4) && Slackens(interval, gap, lo, n) && n <= m
    ensures Slackens(interval, gap, lo, m)
    decreases m - n
  {
    if n < m {
      StrictlyOneMore(n, 20 * (lo - 4 - gap), 20 * (lo - 4) - 17 * interval);
      Scale(Pow(4, n), 20, lo - 4 - gap);
      Scale(Pow(4, n + 1), 20, lo - 4 - gap);
      hide Times, Pow;
      SlackensForGood(interval, gap, lo, n + 1, m);
    }
  }

  lemma StrictlyOneMore(n: nat, x: int, y: int)
    requires y > 0 && Times(Pow(4, n), x) < Times(Pow(5, n), y)
    ensures Times(Pow(4, n + 1), x) < Times(Pow(5, n + 1), y)
  {
    Scale(Pow(4, n), 4, x);
    Scale(Pow(5, n), 5, y);
    Positive(Pow(5, n), y);
  }

  /**
   * In every run, whatever is held or flushed in it: once `n` frames came at most
   * `hi` apart, `n` such that (4/5)^n of the old average no longer matters, content
   * clearly faster than the client is resampled, and stays so for as long as they
   * come.
   */
  lemma FastContentIsResampled(l: Loop, events: seq<Event>, hi: nat, n: nat)
    requires Running(l.gov) && Paced(l, events, 0, hi) && hi < IDLE_GAP_NS && 10 * (hi + 4) < 7 * l.gov.interval
    requires Quickens(l.gov.interval, l.gov.gap, hi, n) && 0 < n <= Frames(events)
    ensures After(l, events).gov.grid
  {
    hide Step, Paced, Pow, Times, Running;
    var g, g', m, h := l.gov, After(l, events).gov, Frames(events), hi + 4;
    CadenceSettles(l, events, 0, hi);
    QuickensForGood(g.interval, g.gap, hi, n, m);
    Scale(Pow(5, m), 10, g'.gap - h);
    Monotone(Pow(5, m), 10 * (g'.gap - h), 7 * g.interval - 10 * h);
    TheNewestDecides(l, events, 0, hi);
  }

  /** And once frames come at least `lo` apart, content near the client's rate or slower is not. */
  lemma SlowContentIsNotResampled(l: Loop, events: seq<Event>, lo: nat, hi: nat, n: nat)
    requires Running(l.gov) && Paced(l, events, lo, hi) && hi < IDLE_GAP_NS && 17 * l.gov.interval < 20 * (lo - 4)
    requires Slackens(l.gov.interval, l.gov.gap, lo, n) && 0 < n <= Frames(events)
    ensures !After(l, events).gov.grid
  {
    hide Step, Paced, Pow, Times, Running;
    var g, g', m, b := l.gov, After(l, events).gov, Frames(events), lo - 4;
    CadenceSettles(l, events, lo, hi);
    SlackensForGood(g.interval, g.gap, lo, n, m);
    Scale(Pow(5, m), 20, b - g'.gap);
    Monotone(Pow(5, m), 20 * (b - g'.gap), 20 * b - 17 * g.interval);
    TheNewestDecides(l, events, lo, hi);
  }

  // A new governor resamples content at twice the client's rate or more from the
  // sixth frame on.
  lemma SixFramesOfDoubleRate(interval: Interval, holds: bool, first: U64, events: seq<Event>, hi: nat)
    requires interval >= 75 && 2 * hi <= interval && hi < IDLE_GAP_NS
    requires Paced(Step(NewLoop(interval, holds), Arrives(first)), events, 0, hi) && Frames(events) >= 5
    ensures After(NewLoop(interval, holds), [Arrives(first)] + events).gov.grid
  {
    var l := Step(NewLoop(interval, holds), Arrives(first));
    assert ([Arrives(first)] + events)[1..] == events;
    FivePowers();
    FastContentIsResampled(l, events, hi, 5);
  }

  lemma FivePowers()
    ensures Pow(4, 5) == 1024 && Pow(5, 5) == 3125
  {
    assert Pow(4, 2) == 16 && Pow(5, 2) == 25;
    assert Pow(4, 3) == 64 && Pow(5, 3) == 125;
    assert Pow(4, 4) == 256 && Pow(5, 4) == 625;
  }

  // ---- which frame a slot takes ----------------------------------------------

  function Off(at: int, slot: int): nat {
    if at < slot then slot - at else at - slot
  }

  // On the grid, having answered a frame at `at`, with the next slot ahead of it.
  ghost predicate OnTheGrid(g: Gov, at: U64) {
    g.started && g.grid && g.lastArrival == Some(at) && at < g.nextSlot && g.gap <= g.interval
  }

  // The frame answered was held for this slot, not taken for the one before.
  predicate Declined(g: Gov, at: U64) {
    2 * (g.nextSlot - at) > g.gap
  }

  /**
   * On the grid, short of a stall, a slot takes one frame and the slots follow
   * each other an interval apart. The frame taken is the nearest to its slot: none
   * that comes later is nearer, nor was the one declined before it, by more than
   * the gap between the two differs from the cadence. And when a frame is declined
   * the next is, to that difference, no farther from the slot.
   */
  lemma EachSlotTakesTheNearest(g: Gov, before: U64, at: U64, next: int)
    requires OnTheGrid(g, before) && before <= at < before + g.interval && at <= next && Room(g, at)
    requires OnFrame(g, at).0.grid
    ensures var (g', admission) := OnFrame(g, at);
            var slot, cadence := g.nextSlot, g'.gap;
            && OnTheGrid(g', at)
            && g'.nextSlot == (if admission.Encode? then slot + g.interval else slot)
            && (admission.Encode? ==>
                  && Off(at, slot) <= Off(next, slot) + Max(cadence - (next - at), 0)
                  && (Declined(g, before) ==> Off(at, slot) <= Off(before, slot) + Max(at - before - g.gap, 0)))
            && (!admission.Encode? ==>
                  && at < slot && Declined(g', at)
                  && Off(next, slot) <= Off(at, slot) + Max(next - at - cadence, 0))
  {
    hide Averaged, Wait, SatMul;
  }

  // The encodes from the `n`-th on are those of the slots from `slot` on, each
  // less than half an interval early and less than `hi` late.
  ghost predicate InSlots(encodes: seq<U64>, n: nat, slot: int, interval: Interval, hi: nat) {
    forall k :: n <= k < |encodes| ==>
      && 40 * (slot + Times(k - n, interval) - encodes[k]) <= 17 * interval
      && encodes[k] - (slot + Times(k - n, interval)) < hi
  }

  ghost predicate Filling(l: Loop, n: nat, slot: int, hi: nat) {
    && OnTheGrid(l.gov, l.clock) && 20 * l.gov.gap <= 17 * l.gov.interval
    && n <= |l.encodes| && l.gov.nextSlot == slot + Times(|l.encodes| - n, l.gov.interval)
    && InSlots(l.encodes, n, slot, l.gov.interval, hi)
  }

  lemma FrameOnTheGrid(g: Gov, before: U64, at: U64, hi: nat)
    requires OnTheGrid(g, before) && 20 * g.gap <= 17 * g.interval && 20 * hi <= 17 * g.interval
    requires 0 <= at - before <= hi && Room(g, at)
    ensures var (g', admission) := OnFrame(g, at);
            && OnTheGrid(g', at) && 20 * g'.gap <= 17 * g.interval && g'.interval == g.interval
            && g'.nextSlot == (if admission.Encode? then g.nextSlot + g.interval else g.nextSlot)
            && (admission.Encode? ==> 40 * (g.nextSlot - at) <= 17 * g.interval && at - g.nextSlot < hi)
  {
    hide Averaged, Wait, SatMul;
  }

  lemma FrameFills(l: Loop, at: U64, n: nat, slot: int, hi: nat)
    requires Filling(l, n, slot, hi) && 20 * hi <= 17 * l.gov.interval
    requires 0 <= at - l.clock <= hi && Room(l.gov, at)
    ensures Filling(Step(l, Arrives(at)), n, slot, hi)
    ensures Step(l, Arrives(at)).gov.interval == l.gov.interval
  {
    FrameOnTheGrid(l.gov, l.clock, at, hi);
    Governor.OneMore(|l.encodes| - n, l.gov.interval);
    hide OnFrame, OnTheGrid, Room, Times;
  }

  ghost predicate Streaming(l: Loop, events: seq<Event>, hi: nat)
    decreases |events|
  {
    events == [] ||
    (&& events[0].Arrives? && 0 <= events[0].at - l.clock <= hi && Room(l.gov, events[0].at)
     && Streaming(Step(l, events[0]), events[1..], hi))
  }

  lemma {:induction false} StreamFills(l: Loop, events: seq<Event>, n: nat, slot: int, hi: nat)
    requires Filling(l, n, slot, hi) && 20 * hi <= 17 * l.gov.interval && Streaming(l, events, hi)
    ensures Filling(After(l, events), n, slot, hi) && After(l, events).gov.interval == l.gov.interval
    decreases |events|
  {
    hide Filling, Step, Room;
    if events != [] {
      assert OnTheGrid(l.gov, l.clock) by { FillingIsOnTheGrid(l, n, slot, hi); }
      FrameFills(l, events[0].at, n, slot, hi);
      StreamFills(Step(l, events[0]), events[1..], n, slot, hi);
    }
  }

  lemma FillingIsOnTheGrid(l: Loop, n: nat, slot: int, hi: nat)
    requires Filling(l, n, slot, hi)
    ensures OnTheGrid(l.gov, l.clock)
  {
  }

  /**
   * Once on the grid, and for as long as frames keep coming less than 17/20 of an
   * interval apart: the k-th frame encoded from then on is the one of the k-th
   * slot, exactly k intervals on, so no slot is missed, none is filled twice and
   * nothing drifts.
   */
  lemma EverySlotIsFilled(l: Loop, events: seq<Event>, hi: nat)
    requires OnTheGrid(l.gov, l.clock) && GovOk(l.gov, l.clock)
    requires 20 * hi <= 17 * l.gov.interval && Streaming(l, events, hi)
    ensures var l' := After(l, events);
            && |l.encodes| <= |l'.encodes| && l'.gov.grid && l'.clock < l'.gov.nextSlot
            && l'.gov.nextSlot == l.gov.nextSlot + Times(|l'.encodes| - |l.encodes|, l.gov.interval)
            && InSlots(l'.encodes, |l.encodes|, l.gov.nextSlot, l.gov.interval, hi)
  {
    Governor.OneMore(0, l.gov.interval);
    hide Times;
    StreamFills(l, events, |l.encodes|, l.gov.nextSlot, hi);
  }

  // A flush takes its slot as a frame that came just then, out of idle time, would.
  lemma FlushTakesItsSlot(g: Gov, now: U64)
    requires Running(g) && g.nextSlot <= now && now - g.lastArrival.value >= IDLE_GAP_NS && Room(g, now)
    requires if g.grid then 20 * g.gap <= 17 * g.interval else 10 * g.gap >= 7 * g.interval
    ensures var (g', admission) := OnFrame(g, now);
            admission.Encode? && OnFlush(g, now) == g'.(lastArrival := g.lastArrival)
  {
    CatchUpStays(g.nextSlot, g.interval, now);
    hide CatchUp;
  }
}
