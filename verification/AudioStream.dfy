// Whole runs of the audio reorder buffer.

module AudioStream {
  import opened Seq
  import opened Basics
  import opened AudioReorder

  datatype Arrival = Arrival(id: Seq16, payload: Bytes)

  datatype Run = Run(
    at: Option<Playing>,
    first: int,
    firsts: Held,           // the first payload that came in time for each number
    played: seq<Packet>,    // what was decoded
    dropped: set<int>,      // what a resync threw away
    events: seq<Event>)     // what was emitted

  function Start(): Run {
    Run(None, 0, map[], [], {}, [])
  }

  ghost predicate Playable(r: Run) {
    r.at.Some? ==> InWindow(r.at.value)
  }

  ghost function Step(r: Run, a: Arrival): Run
    requires Playable(r)
  {
    match r.at
    case None =>
      Run(Some(Playing(a.id + 1, map[])), a.id, map[a.id := a.payload],
          [(a.id, a.payload)], {}, [Decode(a.id, a.payload)])
    case Some(p) =>
      var id := Unwrap(p.next, a.id);
      var t := Take(p, id, a.payload);
      Run(Some(t.to),
          r.first,
          if id < p.next || id in r.firsts then r.firsts else r.firsts[id := a.payload],
          r.played + Played(p, id, a.payload),
          if id - p.next >= RESYNC_AHEAD then r.dropped + p.held.Keys else r.dropped,
          r.events + t.events)
  }

  // ---- the invariant -------------------------------------------------------

  ghost predicate PayloadOk(firsts: Held, packet: Packet) {
    && packet.0 in firsts
    && var first := firsts[packet.0];
       packet.1 == first || (|first| > MAX_AUDIO_PACKET && packet.1 == first[..MAX_AUDIO_PACKET])
  }

  ghost predicate HeldAreFirsts(firsts: Held, held: Held) {
    forall i :: i in held ==> i in firsts && held[i] == Kept(firsts[i])
  }

  ghost predicate StreamOk(r: Run, p: Playing) {
    && InWindow(p)
    && r.events == Render(r.first - 1, r.played)
    && Increasing(r.first - 1, r.played)
    && r.played != [] && LastOf(r.first - 1, r.played) == p.next - 1
  }

  // Every packet that came in time was decoded, is held, or fell to a resync.
  ghost predicate Accounted(r: Run, p: Playing) {
    && (forall k :: 0 <= k < |r.played| ==> PayloadOk(r.firsts, r.played[k]))
    && HeldAreFirsts(r.firsts, p.held)
    && (forall i :: i in r.dropped ==> i < p.next && i !in Ids(r.played))
    && (forall i :: i in r.firsts <==> i in Ids(r.played) || i in p.held || i in r.dropped)
  }

  ghost predicate RunOk(r: Run) {
    if r.at.None? then r == Start() else StreamOk(r, r.at.value) && Accounted(r, r.at.value)
  }

  lemma LastIsLargest(last: int, played: seq<Packet>, i: int)
    requires Increasing(last, played) && i in Ids(played)
    ensures last < i <= LastOf(last, played)
  {
  }

  lemma IncreasingConcat(last: int, a: seq<Packet>, b: seq<Packet>)
    requires Increasing(last, a) && Increasing(LastOf(last, a), b)
    ensures Increasing(last, a + b)
  {
  }

  lemma StepKeepsStream(r: Run, a: Arrival)
    requires RunOk(r) && r.at.Some?
    ensures Step(r, a).at.Some? && StreamOk(Step(r, a), Step(r, a).at.value)
  {
    hide Take, Played, Render, Accounted, Increasing;
    var p := r.at.value;
    var id := Unwrap(p.next, a.id);
    TakeRenders(p, id, a.payload);
    PlayedIsAhead(p, id, a.payload);
    RenderConcat(r.first - 1, r.played, Played(p, id, a.payload));
    IncreasingConcat(r.first - 1, r.played, Played(p, id, a.payload));
  }

  // A packet still to come has no first payload unless it is held.
  lemma AheadIsHeldOrNew(r: Run, i: int)
    requires RunOk(r) && r.at.Some? && i >= r.at.value.next
    ensures i in r.firsts <==> i in r.at.value.held
  {
    if i in Ids(r.played) {
      LastIsLargest(r.first - 1, r.played, i);
    }
  }

  lemma PresentAreFirsts(r: Run, a: Arrival)
    requires RunOk(r) && r.at.Some?
    ensures var p := r.at.value; var id := Unwrap(p.next, a.id);
            var present := Present(p, id, a.payload);
            p.next <= id ==>
              && (forall i :: i in present ==> PayloadOk(Step(r, a).firsts, (i, present[i])))
              && HeldAreFirsts(Step(r, a).firsts, From(present, Take(p, id, a.payload).to.next))
  {
    var p := r.at.value;
    var id := Unwrap(p.next, a.id);
    if p.next <= id {
      AheadIsHeldOrNew(r, id);
    }
  }

  lemma StepAccountsResync(r: Run, a: Arrival)
    requires RunOk(r) && r.at.Some? && Unwrap(r.at.value.next, a.id) - r.at.value.next >= RESYNC_AHEAD
    ensures Accounted(Step(r, a), Step(r, a).at.value)
  {
    var p := r.at.value;
    var id := Unwrap(p.next, a.id);
    var after := Step(r, a);
    AheadIsHeldOrNew(r, id);
    IdsConcat(r.played, [(id, a.payload)]);
    assert Ids([(id, a.payload)]) == {id} by {
      assert [(id, a.payload)][0].0 == id;
    }
    forall i | i in p.held ensures i !in Ids(r.played) {
      if i in Ids(r.played) {
        LastIsLargest(r.first - 1, r.played, i);
      }
    }
  }

  lemma RunIsInWindow(r: Run)
    requires RunOk(r) && r.at.Some?
    ensures InWindow(r.at.value)
  {
  }

  // What is present is what plays now and what stays held.
  lemma PresentIsPlayedOrHeld(p: Playing, id: int, payload: Bytes)
    requires InWindow(p) && p.next <= id < p.next + RESYNC_AHEAD
    ensures var t := Take(p, id, payload).to; var now := Played(p, id, payload); var present := Present(p, id, payload);
            && (forall i :: i in present <==> i in Ids(now) || i in t.held)
            && (forall i :: i in Ids(now) ==> p.next <= i)
            && t.held == From(present, t.next)
            && forall k :: 0 <= k < |now| ==> now[k].0 in present && now[k].1 == present[now[k].0]
  {
    hide Take, Played;
    TakeIsExact(p, id, payload);
  }

  lemma StepAccountsInside(r: Run, a: Arrival)
    requires RunOk(r) && r.at.Some?
    requires 0 <= Unwrap(r.at.value.next, a.id) - r.at.value.next < RESYNC_AHEAD
    ensures Accounted(Step(r, a), Step(r, a).at.value)
  {
    PresentAreFirsts(r, a);
    var p := r.at.value;
    AheadIsHeldOrNew(r, Unwrap(p.next, a.id));
    PlayedPayloads(r, a);
    PlayedIds(r, a);
  }

  lemma PlayedPayloads(r: Run, a: Arrival)
    requires RunOk(r) && r.at.Some?
    requires 0 <= Unwrap(r.at.value.next, a.id) - r.at.value.next < RESYNC_AHEAD
    ensures forall k :: 0 <= k < |Step(r, a).played| ==> PayloadOk(Step(r, a).firsts, Step(r, a).played[k])
  {
    hide Take, Played, Present, StreamOk;
    var p := r.at.value;
    RunIsInWindow(r);
    var id := Unwrap(p.next, a.id);
    PresentIsPlayedOrHeld(p, id, a.payload);
    PresentAreFirsts(r, a);
    forall k | 0 <= k < |Step(r, a).played| ensures PayloadOk(Step(r, a).firsts, Step(r, a).played[k]) {
      if k < |r.played| {
        assert PayloadOk(r.firsts, r.played[k]);
      }
    }
  }

  lemma PlayedIds(r: Run, a: Arrival)
    requires RunOk(r) && r.at.Some?
    requires 0 <= Unwrap(r.at.value.next, a.id) - r.at.value.next < RESYNC_AHEAD
    ensures var after := Step(r, a); var p' := after.at.value;
            && HeldAreFirsts(after.firsts, p'.held)
            && (forall i :: i in after.dropped ==> i < p'.next && i !in Ids(after.played))
            && forall i :: i in after.firsts <==> i in Ids(after.played) || i in p'.held || i in after.dropped
  {
    hide Take, Played, StreamOk, PayloadOk, HeldAreFirsts;
    var p := r.at.value;
    RunIsInWindow(r);
    var id := Unwrap(p.next, a.id);
    TakeNeverGoesBack(p, id, a.payload);
    PresentIsPlayedOrHeld(p, id, a.payload);
    PresentAreFirsts(r, a);
    IdsConcat(r.played, Played(p, id, a.payload));
  }

  lemma TakeNeverGoesBack(p: Playing, id: int, payload: Bytes)
    requires InWindow(p)
    ensures p.next <= Take(p, id, payload).to.next
  {
  }

  lemma StepKeeps(r: Run, a: Arrival)
    requires RunOk(r)
    ensures RunOk(Step(r, a))
  {
    if r.at.None? {
      assert [(a.id as int, a.payload)][0].0 == a.id;
      RenderFirst(a.id - 1, (a.id, a.payload), []);
    } else {
      StepKeepsStream(r, a);
      var p := r.at.value;
      var id := Unwrap(p.next, a.id);
      if id < p.next {
        assert r.played + [] == r.played && r.events + [] == r.events;
      } else if id - p.next >= RESYNC_AHEAD {
        StepAccountsResync(r, a);
      } else {
        StepAccountsInside(r, a);
      }
    }
  }

  lemma StepIsPlayable(r: Run, a: Arrival)
    requires Playable(r)
    ensures Playable(Step(r, a))
  {
    if r.at.Some? {
      var p := r.at.value;
      var id := Unwrap(p.next, a.id);
      if p.next <= id < p.next + RESYNC_AHEAD {
        TakeIsExact(p, id, a.payload);
        hide Take, Played, Unwrap;
      }
    }
  }

  ghost function After(r: Run, arrivals: seq<Arrival>): (end: Run)
    requires Playable(r)
    decreases |arrivals|
  {
    if arrivals == [] then r
    else
      StepIsPlayable(r, arrivals[0]);
      After(Step(r, arrivals[0]), arrivals[1..])
  }

  lemma {:induction false} RunKeeps(r: Run, arrivals: seq<Arrival>)
    requires RunOk(r) && Playable(r)
    ensures RunOk(After(r, arrivals))
    decreases |arrivals|
  {
    hide RunOk, Playable, Step;
    if arrivals != [] {
      StepIsPlayable(r, arrivals[0]);
      StepKeeps(r, arrivals[0]);
      RunKeeps(Step(r, arrivals[0]), arrivals[1..]);
    }
  }

  ghost predicate Heard(r: Run) {
    && Decoded(r.events) == r.played && HolesAreHeard(r.first - 1, r.events)
    && r.events == Render(r.first - 1, r.played) && Increasing(r.first - 1, r.played)
  }

  ghost predicate Rendered(r: Run) {
    && Heard(r)
    && (forall k :: 0 <= k < |r.played| ==> PayloadOk(r.firsts, r.played[k]))
    && (r.at.Some? ==>
          && LastOf(r.first - 1, r.played) == r.at.value.next - 1
          && (forall i :: i in r.at.value.held ==> r.at.value.next < i < r.at.value.next + WINDOW)
          && forall i :: i in r.firsts <==> i in Ids(r.played) || i in r.at.value.held || i in r.dropped)
  }

  lemma RunIsRendered(r: Run)
    requires RunOk(r)
    ensures Rendered(r)
  {
    RunIsHeard(r);
    hide Heard, Increasing, PayloadOk, Ids, HeldAreFirsts, Render;
  }

  lemma RunIsHeard(r: Run)
    requires RunOk(r)
    ensures Heard(r)
  {
    hide Render, Increasing, HolesAreHeard, Decoded, Accounted;
    RenderNothing(r.first - 1);
    assert Increasing(r.first - 1, []) by { NothingIncreases(r.first - 1); }
    RenderIsHeard(r.first - 1, r.played);
  }

  lemma NothingIncreases(last: int)
    ensures Increasing(last, [])
  {
  }

  /**
   * For any arrivals whatever: packets are decoded in strictly increasing order,
   * each with the payload that came first for it, cut to what a slot keeps; what
   * is emitted decodes exactly those, and from one decode to the next a hole of g
   * numbers is heard as g conceals if g is at most MAX_CONCEALED and as nothing
   * beyond; what is held is strictly inside the window; and every packet that
   * came in time was decoded, is held, or fell to a resync.
   */
  lemma EveryRunIsRendered(arrivals: seq<Arrival>)
    ensures Rendered(After(Start(), arrivals))
  {
    hide RunOk, Rendered, Playable, Step;
    assert RunOk(Start()) && Playable(Start()) by { StartIsOk(); }
    RunKeeps(Start(), arrivals);
    RunIsRendered(After(Start(), arrivals));
  }

  lemma StartIsOk()
    ensures RunOk(Start()) && Playable(Start())
  {
  }

  /**
   * What an arrival does, by its true number, from half the space behind to half
   * ahead: behind, nothing; RESYNC_AHEAD or more ahead, it is decoded at once and
   * whatever was held is dropped; in between it is taken at that number.
   */
  lemma ArrivalByNumber(r: Run, n: int, payload: Bytes)
    requires RunOk(r) && r.at.Some? && -HALF <= n - r.at.value.next < HALF
    ensures InWindow(r.at.value)
    ensures var p, r' := r.at.value, Step(r, Arrival(Wrap(n), payload));
            && (n < p.next ==> r' == r)
            && (n >= p.next + RESYNC_AHEAD ==>
                  && r'.at == Some(Playing(n + 1, map[])) && r'.played == r.played + [(n, payload)]
                  && r'.events == r.events + [Decode(n, payload)])
            && (p.next <= n < p.next + RESYNC_AHEAD ==>
                  r'.at == Some(Take(p, n, payload).to) && r'.played == r.played + Played(p, n, payload))
  {
    RunIsInWindow(r);
    UnwrapIs(r.at.value.next, n);
    hide Unwrap, Wrap, GiveUp, GivenUp, Arrive, Arrived, RunOk;
    assert r.played + [] == r.played && r.events + [] == r.events;
  }

  lemma UnwrapIs(next: int, n: int)
    requires -HALF <= n - next < HALF
    ensures Unwrap(next, Wrap(n)) == n
  {
    assert (Wrap(n) - next) % SPAN == (n - next) % SPAN;
  }

  // ---- a run that is only reordered ------------------------------------------

  // Consecutive numbers from `first`, each once, `first` itself leading, and none
  // arriving after one WINDOW or more ahead of it.
  ghost predicate Reordered(ids: seq<int>, first: int) {
    && |ids| > 0 && ids[0] == first && 0 <= first < SPAN
    && (forall j, k :: 0 <= j < k < |ids| ==> ids[j] != ids[k] && ids[j] < ids[k] + WINDOW)
    && (forall k :: 0 <= k < |ids| ==> first <= ids[k] < first + |ids|)
    && (forall i :: first <= i < first + |ids| ==> i in ids)
  }

  function Arrivals(ids: seq<int>, payloads: seq<Bytes>, k: nat): seq<Arrival>
    requires |payloads| == |ids| && k <= |ids|
  {
    seq(|ids| - k, j requires 0 <= j < |ids| - k => Arrival(Wrap(ids[k + j]), payloads[k + j]))
  }

  // Nothing is given up for an arrival inside the window.
  lemma PlayedNear(p: Playing, id: int, payload: Bytes)
    requires InWindow(p) && p.next <= id < p.next + WINDOW
    ensures var now := Played(p, id, payload);
            |now| == Take(p, id, payload).to.next - p.next && forall j :: 0 <= j < |now| ==> now[j].0 == p.next + j
  {
    GiveUpUnrolls(p.held, p.next, id);
    hide GiveUp, GivenUp, PlayOn, PlayedOn;
    var placed := Placed(p.held, p.next, id, payload);
    PlayedOnPlaysAll(placed, if id == p.next then id + 1 else p.next, Limit(p, id));
  }

  // An arrival inside the window plays the run it completes and nothing else.
  lemma TakeNear(p: Playing, id: int, payload: Bytes)
    requires InWindow(p) && p.next <= id < p.next + WINDOW
    ensures var t := Take(p, id, payload).to;
            && p.next <= t.next && t.next != id && t.next !in p.held && InWindow(t)
            && (forall i :: p.next <= i < t.next ==> i in p.held || i == id)
            && forall i :: i in t.held <==> (i in p.held || i == id) && i >= t.next
  {
    TakeIsExact(p, id, payload);
    hide Take, Played, PlaysAll;
  }

  // Once `arrived` has arrived: played up to the first number still missing.
  ghost predicate Caught(r: Run, first: int, arrived: set<int>) {
    && RunOk(r) && r.at.Some? && r.first == first < r.at.value.next
    && (forall i :: first <= i < r.at.value.next ==> i in arrived)
    && r.at.value.next !in arrived
    && (forall i :: i in r.at.value.held <==> i in arrived && i > r.at.value.next)
    && (forall i :: i in r.firsts ==> i in arrived)
    && |r.played| == r.at.value.next - first
    && forall j :: 0 <= j < |r.played| ==> r.played[j].0 == first + j
  }

  lemma StepNear(r: Run, id: int, payload: Bytes)
    requires RunOk(r) && r.at.Some? && r.at.value.next <= id < r.at.value.next + WINDOW
    ensures InWindow(r.at.value)
    ensures var after := Step(r, Arrival(Wrap(id), payload));
            && RunOk(after) && after.first == r.first
            && after.at == Some(Take(r.at.value, id, payload).to)
            && after.played == r.played + Played(r.at.value, id, payload)
            && after.firsts == if id in r.firsts then r.firsts else r.firsts[id := payload]
  {
    RunIsInWindow(r);
    hide Take, Played, RunOk, Unwrap;
    StepKeeps(r, Arrival(Wrap(id), payload));
    UnwrapIs(r.at.value.next, id);
  }

  lemma CatchesUp(r: Run, first: int, arrived: set<int>, id: int, payload: Bytes)
    requires Caught(r, first, arrived) && id !in arrived && r.at.value.next <= id < r.at.value.next + WINDOW
    ensures Caught(Step(r, Arrival(Wrap(id), payload)), first, arrived + {id})
    ensures Step(r, Arrival(Wrap(id), payload)).firsts == r.firsts[id := payload]
  {
    hide RunOk, Take, Played, Step;
    StepNear(r, id, payload);
    TakeNear(r.at.value, id, payload);
    PlayedNear(r.at.value, id, payload);
  }

  // The first `k` arrivals' payloads, each under its number.
  ghost predicate Recorded(firsts: Held, ids: seq<int>, payloads: seq<Bytes>, k: nat)
    requires k <= |ids| == |payloads|
  {
    forall m :: 0 <= m < k ==> ids[m] in firsts && firsts[ids[m]] == payloads[m]
  }

  lemma RecordedOneMore(firsts: Held, ids: seq<int>, payloads: seq<Bytes>, k: nat)
    requires k < |ids| == |payloads| && Recorded(firsts, ids, payloads, k)
    requires forall j, k :: 0 <= j < k < |ids| ==> ids[j] != ids[k]
    ensures Recorded(firsts[ids[k] := payloads[k]], ids, payloads, k + 1)
  {
  }

  function Seen(ids: seq<int>, k: nat): set<int>
    requires k <= |ids|
  {
    set j | 0 <= j < k :: ids[j]
  }

  lemma SeenOneMore(ids: seq<int>, k: nat)
    requires k < |ids|
    ensures Seen(ids, k + 1) == Seen(ids, k) + {ids[k]}
  {
    assert Seen(ids, k + 1) >= {ids[k]};
  }

  lemma StillToCome(ids: seq<int>, k: nat, i: int)
    requires k <= |ids| && i in ids && i !in Seen(ids, k)
    ensures exists j :: k <= j < |ids| && ids[j] == i
  {
    var j :| 0 <= j < |ids| && ids[j] == i;
  }

  lemma NextIsNear(ids: seq<int>, first: int, k: nat, next: int)
    requires Reordered(ids, first) && k < |ids| && first < next
    requires forall i :: first <= i < next ==> i in Seen(ids, k)
    requires next !in Seen(ids, k)
    ensures ids[k] !in Seen(ids, k) && next <= ids[k] < next + WINDOW
  {
    if next < first + |ids| {
      StillToCome(ids, k, next);
    }
  }

  lemma AfterUnrolls(r: Run, arrivals: seq<Arrival>)
    requires Playable(r) && arrivals != []
    ensures Playable(Step(r, arrivals[0]))
    ensures After(r, arrivals) == After(Step(r, arrivals[0]), arrivals[1..])
  {
    StepIsPlayable(r, arrivals[0]);
  }

  lemma CaughtIsOk(r: Run, first: int, arrived: set<int>)
    requires Caught(r, first, arrived)
    ensures RunOk(r) && Playable(r) && r.at.Some? && r.first == first < r.at.value.next
    ensures forall i :: first <= i < r.at.value.next ==> i in arrived
    ensures r.at.value.next !in arrived
  {
  }

  lemma {:induction false} ReorderedRun(r: Run, ids: seq<int>, payloads: seq<Bytes>, first: int, k: nat)
    requires |payloads| == |ids| && Reordered(ids, first) && k <= |ids| && Caught(r, first, Seen(ids, k))
    requires Playable(r) && Recorded(r.firsts, ids, payloads, k)
    ensures var end := After(r, Arrivals(ids, payloads, k));
            Caught(end, first, Seen(ids, |ids|)) && Recorded(end.firsts, ids, payloads, |ids|)
    decreases |ids| - k
  {
    hide Caught, Step, Reordered, RunOk, Seen, Recorded, Playable;
    CaughtIsOk(r, first, Seen(ids, k));
    var rest := Arrivals(ids, payloads, k);
    if k < |ids| {
      NextIsNear(ids, first, k, r.at.value.next);
      CatchesUp(r, first, Seen(ids, k), ids[k], payloads[k]);
      SeenOneMore(ids, k);
      NoneTwice(ids, first);
      RecordedOneMore(r.firsts, ids, payloads, k);
      AfterUnrolls(r, rest);
      assert rest[0] == Arrival(Wrap(ids[k]), payloads[k]) && rest[1..] == Arrivals(ids, payloads, k + 1);
      ReorderedRun(Step(r, rest[0]), ids, payloads, first, k + 1);
    }
  }

  lemma {:induction false} RenderConsecutive(last: int, played: seq<Packet>)
    requires forall j :: 0 <= j < |played| ==> played[j].0 == last + 1 + j
    ensures Render(last, played)
            == seq(|played|, j requires 0 <= j < |played| => Decode(played[j].0, played[j].1))
    decreases |played|
  {
    if played != [] {
      RenderConsecutive(last + 1, played[1..]);
      NoGap([Decode(played[0].0, played[0].1)]);
    }
  }

  // Number `id` plays in its place, with its payload, or what a slot keeps of it.
  ghost predicate DecodesAt(events: seq<Event>, first: int, id: int, payload: Bytes) {
    first <= id < first + |events| && events[id - first] in {Decode(id, payload), Decode(id, Kept(payload))}
  }

  lemma NoneTwice(ids: seq<int>, first: int)
    requires Reordered(ids, first)
    ensures forall j, k :: 0 <= j < k < |ids| ==> ids[j] != ids[k]
    ensures forall k :: 0 <= k < |ids| ==> first <= ids[k] < first + |ids|
  {
  }

  /**
   * Reordering inside the window costs nothing: the output is every packet of
   * the run, sorted, each once, with no conceals, and nothing is left held.
   */
  lemma ReorderingIsUndone(ids: seq<int>, payloads: seq<Bytes>, first: int)
    requires |payloads| == |ids| && Reordered(ids, first)
    ensures var r := After(Start(), Arrivals(ids, payloads, 0));
            && |r.events| == |ids|
            && (forall j :: 0 <= j < |ids| ==> r.events[j].Decode? && r.events[j].id == first + j)
            && (forall m :: 0 <= m < |ids| ==> DecodesAt(r.events, first, ids[m], payloads[m]))
            && r.at.Some? && r.at.value.held == map[]
  {
    var a0 := Arrival(Wrap(ids[0]), payloads[0]);
    var r1 := Step(Start(), a0);
    StepKeeps(Start(), a0);
    SeenOneMore(ids, 0);
    assert r1.at == Some(Playing(first + 1, map[])) && Seen(ids, 1) == {first};
    assert Caught(r1, first, Seen(ids, 1));
    hide Step, Reordered, Caught, RunOk, Seen;
    var all := Arrivals(ids, payloads, 0);
    assert all[0] == a0 && all[1..] == Arrivals(ids, payloads, 1);
    AfterUnrolls(Start(), all);
    ReorderedRun(r1, ids, payloads, first, 1);
    var r := After(Start(), all);
    AllCaught(r, ids, first);
    NoneTwice(ids, first);
    forall m | 0 <= m < |ids|
      ensures DecodesAt(r.events, first, ids[m], payloads[m])
    {
      PlaysItsPayload(r, ids, payloads, first, m);
    }
  }

  lemma PlaysItsPayload(r: Run, ids: seq<int>, payloads: seq<Bytes>, first: int, m: nat)
    requires m < |ids| == |payloads| && first <= ids[m] < first + |r.events|
    requires Caught(r, first, Seen(ids, |ids|)) && Recorded(r.firsts, ids, payloads, |ids|)
    requires |r.events| == |ids| == |r.played|
    ensures DecodesAt(r.events, first, ids[m], payloads[m])
  {
    var j := ids[m] - first;
    RenderConsecutive(first - 1, r.played);
    assert PayloadOk(r.firsts, r.played[j]);
    assert r.firsts[ids[m]] == payloads[m];
  }

  lemma AllCaught(r: Run, ids: seq<int>, first: int)
    requires Reordered(ids, first) && Caught(r, first, Seen(ids, |ids|))
    ensures |r.events| == |ids| == |r.played|
    ensures forall j :: 0 <= j < |ids| ==> r.events[j].Decode? && r.events[j].id == first + j
    ensures r.at.Some? && r.at.value.held == map[]
  {
    var next := r.at.value.next;
    assert next - 1 in Seen(ids, |ids|);
    AllSeen(ids, first);
    assert forall i :: i in Seen(ids, |ids|) ==> i < first + |ids|;
    assert forall i :: i !in r.at.value.held;
    RenderConsecutive(first - 1, r.played);
  }

  lemma AllSeen(ids: seq<int>, first: int)
    requires Reordered(ids, first)
    ensures forall i :: first <= i < first + |ids| ==> i in Seen(ids, |ids|)
  {
    forall i | first <= i < first + |ids| ensures i in Seen(ids, |ids|) {
      assert i in ids;
    }
  }
}
