// What the rate controller's loss windows count, read off the reports alone.

module LossWindows {
  import opened Basics
  import opened RateControl

  // A report of the client's own counters, which do not wrap; the wire carries
  // their low 32 bits.
  datatype Reading = Reading(received: nat, dropped: nat, gradient: I32, at: nat)

  function OnWire(r: Reading): Event {
    Event(Feedback(r.gradient, r.received % U32_SPAN, r.dropped % U32_SPAN), r.at)
  }

  // Counters only grow, by less than a lap from one report to the next.
  ghost predicate Growing(readings: seq<Reading>) {
    forall k :: 0 < k < |readings| ==>
      && 0 <= readings[k].received - readings[k - 1].received < U32_SPAN
      && 0 <= readings[k].dropped - readings[k - 1].dropped < U32_SPAN
  }

  // The session after the first `k` reports.
  function Fed(b: Bounds, readings: seq<Reading>, k: nat): Session
    requires b.min <= b.max && k <= |readings|
  {
    if k == 0 then NewSession(b) else Step(Fed(b, readings, k - 1), OnWire(readings[k - 1]))
  }

  /**
   * The report the window open after report `k` counts from: the first, and then
   * each that comes a window's length or more after the one before.
   */
  function Base(readings: seq<Reading>, k: nat): (b: nat)
    requires k < |readings|
    ensures b <= k
  {
    if k == 0 then 0
    else
      var b := Base(readings, k - 1);
      if readings[k].at - readings[b].at >= LOSS_WINDOW_MS then k else b
  }

  // What the counters grew by from report `b` to report `k`, saturated.
  function Received(readings: seq<Reading>, b: nat, k: nat): int
    requires b < |readings| && k < |readings|
  {
    Min(readings[k].received - readings[b].received, MAX_U32)
  }

  function Dropped(readings: seq<Reading>, b: nat, k: nat): int
    requires b < |readings| && k < |readings|
  {
    Min(readings[k].dropped - readings[b].dropped, MAX_U32)
  }

  // Report `k` ends the window that began at `b`, with at least a twentieth of
  // its frames lost.
  predicate LossyFrom(readings: seq<Reading>, b: nat, k: nat)
    requires b < |readings| && k < |readings|
  {
    && readings[k].at - readings[b].at >= LOSS_WINDOW_MS
    && Dropped(readings, b, k) > 0
    && 20 * Dropped(readings, b, k) >= Received(readings, b, k) + Dropped(readings, b, k)
  }

  ghost predicate WindowIs(w: LossWindow, readings: seq<Reading>, k: nat)
    requires k < |readings|
  {
    var b := Base(readings, k);
    && w.start == Some(readings[b].at)
    && w.received == Received(readings, b, k) && w.dropped == Dropped(readings, b, k)
    && w.lastReceived == Some(readings[k].received % U32_SPAN)
    && w.lastDropped == Some(readings[k].dropped % U32_SPAN)
  }

  lemma GrownIs(was: nat, now: nat)
    requires 0 <= now - was < U32_SPAN
    ensures Grown(Some(was % U32_SPAN), now % U32_SPAN) == now - was
  {
    var d := now - was;
    assert (now % U32_SPAN - was % U32_SPAN) % U32_SPAN == d % U32_SPAN;
  }

  lemma {:induction false} BaseGrows(readings: seq<Reading>, k: nat)
    requires k < |readings| && Growing(readings)
    ensures readings[Base(readings, k)].received <= readings[k].received
    ensures readings[Base(readings, k)].dropped <= readings[k].dropped
  {
    if k > 0 {
      BaseGrows(readings, k - 1);
    }
  }

  lemma CountedIs(w: LossWindow, readings: seq<Reading>, k: nat)
    requires 0 < k < |readings| && Growing(readings) && WindowIs(w, readings, k - 1)
    ensures var b, c := Base(readings, k - 1), Counted(w, OnWire(readings[k]).fb, readings[k].at);
            && c.start == Some(readings[b].at)
            && c.received == Received(readings, b, k) && c.dropped == Dropped(readings, b, k)
            && c.lastReceived == Some(readings[k].received % U32_SPAN)
            && c.lastDropped == Some(readings[k].dropped % U32_SPAN)
  {
    BaseGrows(readings, k - 1);
    GrownIs(readings[k - 1].received, readings[k].received);
    GrownIs(readings[k - 1].dropped, readings[k].dropped);
    hide Grown, Base;
  }

  lemma WindowMoves(c: Ranged, readings: seq<Reading>, k: nat)
    requires 0 < k < |readings| && Growing(readings) && WindowIs(c.window, readings, k - 1)
    ensures var e := OnWire(readings[k]);
            && WindowIs(Reopened(Counted(c.window, e.fb, e.at), e.at), readings, k)
            && (Loses(c, e.fb, e.at) <==> LossyFrom(readings, Base(readings, k - 1), k))
  {
    CountedIs(c.window, readings, k);
    hide Counted;
  }

  lemma FirstWindow(c: Ranged, readings: seq<Reading>)
    requires 0 < |readings| && c.window == LossWindow(None, 0, 0, None, None)
    ensures var e := OnWire(readings[0]);
            && WindowIs(Reopened(Counted(c.window, e.fb, e.at), e.at), readings, 0)
            && !Loses(c, e.fb, e.at)
  {
  }

  lemma {:induction false} WindowCounts(b: Bounds, readings: seq<Reading>, k: nat)
    requires b.min <= b.max && k < |readings| && Growing(readings)
    ensures WindowIs(Fed(b, readings, k + 1).c.window, readings, k)
  {
    hide WindowIs, OnFeedback, Reopened, Counted, Loses;
    var s, e := Fed(b, readings, k), OnWire(readings[k]);
    FeedbackReopens(s.c, e.fb, e.at);
    if k == 0 {
      FirstWindow(s.c, readings);
    } else {
      WindowCounts(b, readings, k - 1);
      WindowMoves(s.c, readings, k);
    }
  }

  lemma FeedbackReopens(c: Ranged, fb: Feedback, now: nat)
    ensures OnFeedback(c, fb, now).window == Reopened(Counted(c.window, fb, now), now)
  {
    hide Counted, Reopened, Closes, Lossy;
  }

  /**
   * Over every session, whatever wraps: report `k` is taken for a loss exactly
   * when it comes LOSS_WINDOW_MS or more after the report that closed the window
   * before it (or the first) and the client's counters grew since then by at
   * least one lost frame in twenty. What was lost before does not count again,
   * and the first report decides nothing.
   */
  lemma EveryVerdictIsTheWindows(b: Bounds, readings: seq<Reading>, k: nat)
    requires b.min <= b.max && k < |readings| && Growing(readings)
    ensures var s, s' := Fed(b, readings, k), Fed(b, readings, k + 1);
            && (Loses(s.c, OnWire(readings[k]).fb, readings[k].at)
                <==> k > 0 && LossyFrom(readings, Base(readings, k - 1), k))
            && s'.losses == s.losses
                            + if k > 0 && LossyFrom(readings, Base(readings, k - 1), k) then [readings[k].at] else []
  {
    hide OnFeedback, Loses, LossyFrom, WindowIs;
    var s := Fed(b, readings, k);
    if k == 0 {
      FirstWindow(s.c, readings);
    } else {
      WindowCounts(b, readings, k - 1);
      WindowMoves(s.c, readings, k);
    }
    assert s.losses + [] == s.losses;
  }

  // A window in which the client's count of lost frames stood still is no loss.
  lemma NoDropsNoLoss(b: Bounds, readings: seq<Reading>, k: nat)
    requires b.min <= b.max && 0 < k < |readings| && Growing(readings)
    requires readings[k].dropped == readings[Base(readings, k - 1)].dropped
    ensures !Loses(Fed(b, readings, k).c, OnWire(readings[k]).fb, readings[k].at)
  {
    EveryVerdictIsTheWindows(b, readings, k);
    hide Loses;
  }
}
