// The audio reorder buffer: what is heard of packets that come late, early or never.
//
// `Take` is one arrival over unbounded packet numbers; the class `Reorder` does
// the same in place over 16-bit ids and the slots at `id % WINDOW`.

module AudioReorder {
  import opened Seq
  import opened Basics

  const MAX_CONCEALED := 3
  const WINDOW := 8
  const RESYNC_AHEAD := 64
  const MAX_AUDIO_PACKET := 1212

  datatype Event = Decode(id: int, payload: Bytes) | Conceal

  type Held = map<int, Bytes>

  datatype Playing = Playing(next: int, held: Held)

  // How far playing got, and what was emitted on the way.
  datatype Moved = Moved(next: int, events: seq<Event>)

  datatype Taken = Taken(to: Playing, events: seq<Event>)

  // What a slot keeps of a payload.
  function Kept(payload: Bytes): Bytes {
    if |payload| > MAX_AUDIO_PACKET then payload[..MAX_AUDIO_PACKET] else payload
  }

  ghost predicate InWindow(p: Playing) {
    forall i :: i in p.held ==> p.next < i < p.next + WINDOW
  }

  // How many are missing from `from` on, before one held or `arrived`.
  function MissingRun(held: Held, from: int, arrived: int): (run: nat)
    requires from <= arrived
    ensures from + run <= arrived
    ensures from + run == arrived || from + run in held
    ensures forall i :: from <= i < from + run ==> i !in held
    decreases arrived - from
  {
    if from == arrived || from in held then 0 else 1 + MissingRun(held, from + 1, arrived)
  }

  // A hole is concealed when short, skipped when long.
  function Gap(run: int): seq<Event> {
    if 0 < run <= MAX_CONCEALED then seq(run, i => Conceal) else []
  }

  // The numbers passed over or played before `id` counts as near.
  function GiveUp(held: Held, next: int, id: int): (m: Moved)
    requires next <= id
    ensures next <= m.next <= id < m.next + WINDOW
    decreases id - next
  {
    if id - next < WINDOW then Moved(next, [])
    else if next in held then
      var rest := GiveUp(held, next + 1, id);
      rest.(events := [Decode(next, held[next])] + rest.events)
    else
      var run := MissingRun(held, next, id);
      var rest := GiveUp(held, next + run, id);
      rest.(events := Gap(run) + rest.events)
  }

  // Whatever waits right behind plays.
  function PlayOn(held: Held, next: int, limit: int): (m: Moved)
    requires forall i :: i in held ==> i < limit
    ensures next <= m.next && m.next !in held
    ensures forall i :: next <= i < m.next ==> i in held
    decreases limit - next
  {
    if next !in held then Moved(next, [])
    else
      var rest := PlayOn(held, next + 1, limit);
      rest.(events := [Decode(next, held[next])] + rest.events)
  }

  function From(held: Held, next: int): Held {
    map i | i in held && i >= next :: held[i]
  }

  function Placed(held: Held, next: int, id: int, payload: Bytes): Held {
    if id == next || id in held then held else held[id := Kept(payload)]
  }

  // The highest number anything present can have, plus one.
  function Limit(p: Playing, id: int): int {
    (if id > p.next then id else p.next) + WINDOW
  }

  ghost predicate Below(held: Held, id: int, limit: int) {
    id < limit && forall i :: i in held ==> i < limit
  }

  // The arrival is played or held, and releases what waited for it.
  function Arrive(held: Held, next: int, id: int, payload: Bytes, limit: int): (m: Moved)
    requires Below(held, id, limit)
    ensures next <= m.next && m.next !in Placed(held, next, id, payload) && (next <= id ==> m.next != id)
    ensures forall i :: next <= i < m.next ==> i in Placed(held, next, id, payload) || i == id
  {
    var placed := Placed(held, next, id, payload);
    if id == next then
      var on := PlayOn(placed, id + 1, limit);
      on.(events := [Decode(id, payload)] + on.events)
    else PlayOn(placed, next, limit)
  }

  function Take(p: Playing, id: int, payload: Bytes): Taken
    requires InWindow(p)
  {
    if id < p.next then Taken(p, [])
    else if id - p.next >= RESYNC_AHEAD then Taken(Playing(id + 1, map[]), [Decode(id, payload)])
    else
      var given := GiveUp(p.held, p.next, id);
      var arrived := Arrive(p.held, given.next, id, payload, Limit(p, id));
      Taken(Playing(arrived.next, From(Placed(p.held, given.next, id, payload), arrived.next)),
            given.events + arrived.events)
  }

  // ---- what the stream is ----------------------------------------------------

  type Packet = (int, Bytes)

  function LastOf(last: int, played: seq<Packet>): int {
    if played == [] then last else played[|played| - 1].0
  }

  /**
   * The one stream there is for a list of decoded packets: before each, its hole
   * since the packet before, concealed packet by packet or skipped whole.
   */
  function Render(last: int, played: seq<Packet>): seq<Event>
    decreases |played|
  {
    if played == [] then [] else One(last, played[0]) + Render(played[0].0, played[1..])
  }

  // A packet and the hole before it.
  function One(last: int, packet: Packet): seq<Event> {
    Gap(packet.0 - last - 1) + [Decode(packet.0, packet.1)]
  }

  ghost predicate Increasing(last: int, played: seq<Packet>) {
    && (forall i :: 0 <= i < |played| ==> played[i].0 > last)
    && forall i, j :: 0 <= i < j < |played| ==> played[i].0 < played[j].0
  }

  lemma RenderFirst(last: int, first: Packet, rest: seq<Packet>)
    ensures Render(last, [first] + rest) == One(last, first) + Render(first.0, rest)
    ensures LastOf(last, [first] + rest) == LastOf(first.0, rest)
  {
    assert ([first] + rest)[1..] == rest;
  }

  lemma Chain<T>(a: seq<T>, b: seq<T>, c: seq<T>, d: seq<T>)
    ensures a + (b + (c + d)) == ((a + b) + c) + d
  {
  }

  lemma NoGap(events: seq<Event>)
    ensures Gap(0) + events == events
  {
  }

  lemma {:induction false} RenderConcat(last: int, a: seq<Packet>, b: seq<Packet>)
    ensures Render(last, a + b) == Render(last, a) + Render(LastOf(last, a), b)
    ensures LastOf(last, a + b) == LastOf(LastOf(last, a), b)
    decreases |a|
  {
    hide One;
    if a == [] {
      assert a + b == b;
    } else {
      var rest := a[1..];
      RenderConcat(a[0].0, rest, b);
      assert a == [a[0]] + rest && a + b == [a[0]] + (rest + b);
      RenderFirst(last, a[0], rest + b);
      RenderFirst(last, a[0], rest);
      Regroup(One(last, a[0]), Render(a[0].0, rest), Render(LastOf(last, a), b));
    }
  }

  // ---- what is heard of a hole -------------------------------------------------

  // The packets decoded, in order.
  function Decoded(events: seq<Event>): seq<Packet>
    decreases |events|
  {
    if events == [] then []
    else (if events[0].Decode? then [(events[0].id, events[0].payload)] else []) + Decoded(events[1..])
  }

  // Position `j` is the next decode after position `i`; -1 is the start.
  ghost predicate NextDecode(events: seq<Event>, i: int, j: int) {
    && -1 <= i < j < |events| && (i >= 0 ==> events[i].Decode?) && events[j].Decode?
    && forall k :: i < k < j ==> events[k].Conceal?
  }

  function NumberAt(last: int, events: seq<Event>, i: int): int
    requires -1 <= i < |events| && (i >= 0 ==> events[i].Decode?)
  {
    if i < 0 then last else events[i].id
  }

  // From one decode to the next: as many conceals as numbers are missing between
  // them, if those are at most MAX_CONCEALED, and otherwise none.
  ghost predicate HolesAreHeard(last: int, events: seq<Event>) {
    && (events != [] ==> events[|events| - 1].Decode?)
    && forall i, j :: NextDecode(events, i, j) ==>
         var missing := events[j].id - NumberAt(last, events, i) - 1;
         0 <= missing && j - i - 1 == if missing <= MAX_CONCEALED then missing else 0
  }

  lemma GapIs(run: nat)
    ensures |Gap(run)| == if run <= MAX_CONCEALED then run else 0
    ensures forall k :: 0 <= k < |Gap(run)| ==> Gap(run)[k].Conceal?
  {
  }

  lemma {:induction false} DecodedBehind(hole: seq<Event>, packet: Packet, rest: seq<Event>)
    requires forall k :: 0 <= k < |hole| ==> hole[k].Conceal?
    ensures Decoded((hole + [Decode(packet.0, packet.1)]) + rest) == [packet] + Decoded(rest)
    decreases |hole|
  {
    var all := (hole + [Decode(packet.0, packet.1)]) + rest;
    if hole == [] {
      assert all[1..] == rest;
    } else {
      assert all[1..] == (hole[1..] + [Decode(packet.0, packet.1)]) + rest;
      DecodedBehind(hole[1..], packet, rest);
    }
  }

  lemma HeardBehind(last: int, hole: seq<Event>, packet: Packet, rest: seq<Event>)
    requires forall k :: 0 <= k < |hole| ==> hole[k].Conceal?
    requires packet.0 > last
    requires |hole| == if packet.0 - last - 1 <= MAX_CONCEALED then packet.0 - last - 1 else 0
    requires HolesAreHeard(packet.0, rest)
    ensures HolesAreHeard(last, (hole + [Decode(packet.0, packet.1)]) + rest)
  {
    var all, n := (hole + [Decode(packet.0, packet.1)]) + rest, |hole| + 1;
    assert all[n - 1] == Decode(packet.0, packet.1) && !all[n - 1].Conceal?;
    forall i, j | NextDecode(all, i, j)
      ensures var missing := all[j].id - NumberAt(last, all, i) - 1;
              0 <= missing && j - i - 1 == if missing <= MAX_CONCEALED then missing else 0
    {
      if j >= n {
        assert i >= n - 1;
        forall k | i - n < k < j - n
          ensures rest[k].Conceal?
        {
          assert all[k + n].Conceal?;
        }
        assert NextDecode(rest, i - n, j - n);
      }
    }
  }

  lemma {:induction false} RenderIsHeard(last: int, played: seq<Packet>)
    requires Increasing(last, played)
    ensures HolesAreHeard(last, Render(last, played)) && Decoded(Render(last, played)) == played
    decreases |played|
  {
    hide Render, HolesAreHeard, Gap, Decoded;
    if played == [] {
      RenderNothing(last);
      NothingIsHeard(last);
    } else {
      var first, rest := played[0], played[1..];
      RenderIsHeard(first.0, rest);
      assert played == [first] + rest;
      RenderFirst(last, first, rest);
      GapIs(first.0 - last - 1);
      DecodedBehind(Gap(first.0 - last - 1), first, Render(first.0, rest));
      HeardBehind(last, Gap(first.0 - last - 1), first, Render(first.0, rest));
    }
  }

  lemma NothingIsHeard(last: int)
    ensures HolesAreHeard(last, []) && Decoded([]) == []
  {
  }

  // ---- what one arrival plays ------------------------------------------------

  function GivenUp(held: Held, next: int, id: int): seq<Packet>
    requires next <= id
    decreases id - next
  {
    if id - next < WINDOW then []
    else if next in held then [(next, held[next])] + GivenUp(held, next + 1, id)
    else GivenUp(held, next + MissingRun(held, next, id), id)
  }

  function PlayedOn(held: Held, next: int, limit: int): seq<Packet>
    requires forall i :: i in held ==> i < limit
    decreases limit - next
  {
    if next !in held then [] else [(next, held[next])] + PlayedOn(held, next + 1, limit)
  }

  function Arrived(held: Held, next: int, id: int, payload: Bytes, limit: int): seq<Packet>
    requires Below(held, id, limit)
  {
    var placed := Placed(held, next, id, payload);
    if id == next then [(id, payload)] + PlayedOn(placed, id + 1, limit) else PlayedOn(placed, next, limit)
  }

  function Played(p: Playing, id: int, payload: Bytes): seq<Packet>
    requires InWindow(p)
  {
    if id < p.next then []
    else if id - p.next >= RESYNC_AHEAD then [(id, payload)]
    else GivenUp(p.held, p.next, id) + Arrived(p.held, GiveUp(p.held, p.next, id).next, id, payload, Limit(p, id))
  }

  // Giving up renders what it plays, and leaves the hole before its next stop
  // to whatever is present there.
  lemma {:induction false} GiveUpRenders(held: Held, last: int, next: int, id: int)
    requires last < next <= id
    requires last == next - 1 || next in held || next == id
    ensures var m := GiveUp(held, next, id); var played := GivenUp(held, next, id);
            && Gap(next - last - 1) + m.events == Render(last, played) + Gap(m.next - LastOf(last, played) - 1)
            && (LastOf(last, played) == m.next - 1 || m.next in held || m.next == id)
            && last <= LastOf(last, played) < m.next
    decreases id - next
  {
    hide Gap, Render, GiveUp, GivenUp;
    GiveUpUnrolls(held, next, id);
    var m := GiveUp(held, next, id);
    if id - next < WINDOW {
      RenderNothing(last);
      assert Gap(next - last - 1) + [] == [] + Gap(next - last - 1);
    } else if next in held {
      var rest := GivenUp(held, next + 1, id);
      var after := GiveUp(held, next + 1, id).events;
      GiveUpRenders(held, next, next + 1, id);
      RenderFirst(last, (next, held[next]), rest);
      NoGap(after);
      Chain(Gap(next - last - 1), [Decode(next, held[next])], Render(next, rest), Gap(m.next - LastOf(next, rest) - 1));
    } else {
      GiveUpRenders(held, last, next + MissingRun(held, next, id), id);
      NoGap(m.events);
    }
  }

  lemma GiveUpUnrolls(held: Held, next: int, id: int)
    requires next <= id
    ensures id - next < WINDOW ==> GiveUp(held, next, id) == Moved(next, []) && GivenUp(held, next, id) == []
    ensures id - next >= WINDOW && next in held ==>
              && GivenUp(held, next, id) == [(next, held[next])] + GivenUp(held, next + 1, id)
              && GiveUp(held, next, id).next == GiveUp(held, next + 1, id).next
              && GiveUp(held, next, id).events == [Decode(next, held[next])] + GiveUp(held, next + 1, id).events
    ensures id - next >= WINDOW && next !in held ==>
              var run := MissingRun(held, next, id);
              && GivenUp(held, next, id) == GivenUp(held, next + run, id)
              && GiveUp(held, next, id).next == GiveUp(held, next + run, id).next
              && GiveUp(held, next, id).events == Gap(run) + GiveUp(held, next + run, id).events
  {
  }

  lemma RenderNothing(last: int)
    ensures Render(last, []) == []
  {
  }

  lemma {:induction false} PlayOnRenders(held: Held, next: int, limit: int)
    requires forall i :: i in held ==> i < limit
    ensures PlayOn(held, next, limit).events == Render(next - 1, PlayedOn(held, next, limit))
    ensures LastOf(next - 1, PlayedOn(held, next, limit)) == PlayOn(held, next, limit).next - 1
    decreases limit - next
  {
    if next in held {
      PlayOnRenders(held, next + 1, limit);
      RenderFirst(next - 1, (next, held[next]), PlayedOn(held, next + 1, limit));
      assert Gap(0) + [Decode(next, held[next])] == [Decode(next, held[next])];
    }
  }

  // Playing on from the stop that giving up left open closes its hole.
  lemma PlayOnCloses(held: Held, last: int, next: int, limit: int)
    requires forall i :: i in held ==> i < limit
    requires last == next - 1 || (last < next && next in held)
    ensures var played := PlayedOn(held, next, limit);
            && Gap(next - last - 1) + PlayOn(held, next, limit).events == Render(last, played)
            && LastOf(last, played) == PlayOn(held, next, limit).next - 1
  {
    PlayOnRenders(held, next, limit);
    var played := PlayedOn(held, next, limit);
    if played == [] {
      assert Gap(0) + [] == [];
    } else {
      var rest := PlayedOn(held, next + 1, limit);
      RenderFirst(last, played[0], rest);
      RenderFirst(next - 1, played[0], rest);
      assert Gap(0) + [Decode(next, held[next])] == [Decode(next, held[next])];
      Regroup(Gap(next - last - 1), [Decode(next, held[next])], Render(next, rest));
    }
  }

  lemma ArrivalRenders(held: Held, last: int, next: int, id: int, payload: Bytes, limit: int)
    requires Below(held, id, limit)
    requires last == next - 1 || (last < next && (next in held || next == id))
    ensures var m := Arrive(held, next, id, payload, limit); var played := Arrived(held, next, id, payload, limit);
            && Gap(next - last - 1) + m.events == Render(last, played)
            && LastOf(last, played) == m.next - 1
  {
    hide Gap, PlayOn, PlayedOn;
    var placed := Placed(held, next, id, payload);
    if id == next {
      PlayOnRenders(placed, id + 1, limit);
      RenderFirst(last, (id, payload), PlayedOn(placed, id + 1, limit));
      Regroup(Gap(next - last - 1), [Decode(id, payload)], PlayOn(placed, id + 1, limit).events);
    } else {
      PlayOnCloses(placed, last, next, limit);
    }
  }

  /** What an arrival emits is exactly the rendering of what it plays. */
  lemma TakeRenders(p: Playing, id: int, payload: Bytes)
    requires InWindow(p)
    ensures Take(p, id, payload).events == Render(p.next - 1, Played(p, id, payload))
    ensures LastOf(p.next - 1, Played(p, id, payload)) == Take(p, id, payload).to.next - 1
  {
    if p.next <= id < p.next + RESYNC_AHEAD {
      TakeInsideRenders(p, id, payload);
    } else {
      hide GiveUp, GivenUp, Arrive, Arrived;
      if id > p.next {
        RenderFirst(p.next - 1, (id, payload), []);
        assert Gap(id - p.next) == [];
      }
    }
  }

  lemma TakeInsideRenders(p: Playing, id: int, payload: Bytes)
    requires InWindow(p) && p.next <= id < p.next + RESYNC_AHEAD
    ensures Take(p, id, payload).events == Render(p.next - 1, Played(p, id, payload))
    ensures LastOf(p.next - 1, Played(p, id, payload)) == Take(p, id, payload).to.next - 1
  {
    hide Gap, Render, GiveUp, GivenUp, Arrive, Arrived;
    var last := p.next - 1;
    var given := GiveUp(p.held, p.next, id);
    var a := GivenUp(p.held, p.next, id);
    GiveUpRenders(p.held, last, p.next, id);
    NoGap(given.events);
    ArrivalRenders(p.held, LastOf(last, a), given.next, id, payload, Limit(p, id));
    RenderConcat(last, a, Arrived(p.held, given.next, id, payload, Limit(p, id)));
    Regroup(Render(last, a), Gap(given.next - LastOf(last, a) - 1),
            Arrive(p.held, given.next, id, payload, Limit(p, id)).events);
  }

  // ---- which packets an arrival plays -----------------------------------------

  ghost function Ids(played: seq<Packet>): set<int> {
    set k | 0 <= k < |played| :: played[k].0
  }

  // `played` is exactly what `held` has in [from, to), in order.
  ghost predicate PlaysAll(held: Held, from: int, to: int, played: seq<Packet>) {
    && Increasing(from - 1, played)
    && (forall k :: 0 <= k < |played| ==>
          played[k].0 < to && played[k].0 in held && played[k].1 == held[played[k].0])
    && forall i :: i in held && from <= i < to ==> i in Ids(played)
  }

  lemma PlaysOneMore(held: Held, from: int, next: int, to: int, rest: seq<Packet>)
    requires from <= next < to && next in held && PlaysAll(held, next + 1, to, rest)
    requires forall i :: from <= i < next ==> i !in held
    ensures PlaysAll(held, from, to, [(next, held[next])] + rest)
  {
    hide Ids;
    IdsBehind((next, held[next]), rest);
  }

  lemma IdsBehind(first: Packet, rest: seq<Packet>)
    ensures Ids([first] + rest) == {first.0} + Ids(rest)
  {
    var all := [first] + rest;
    forall i | i in Ids(rest)
      ensures i in Ids(all)
    {
      var k :| 0 <= k < |rest| && rest[k].0 == i;
      assert all[k + 1].0 == i;
    }
    assert all[0].0 == first.0;
    forall k | 0 < k < |all|
      ensures all[k].0 in Ids(rest)
    {
      assert all[k] == rest[k - 1];
    }
  }

  // Where giving up for `id` stops: past everything WINDOW behind it, and past
  // the whole of the hole there.
  function Boundary(held: Held, id: int): int {
    var edge := id - WINDOW;
    if edge in held then edge + 1 else edge + MissingRun(held, edge, id)
  }

  lemma {:induction false} MissingRunFromInside(held: Held, from: int, mid: int, arrived: int)
    requires from <= arrived && from <= mid <= from + MissingRun(held, from, arrived)
    ensures mid + MissingRun(held, mid, arrived) == from + MissingRun(held, from, arrived)
    decreases mid - from
  {
    if from < mid {
      MissingRunFromInside(held, from + 1, mid, arrived);
    }
  }

  lemma {:induction false} GiveUpStopsAtTheBoundary(held: Held, next: int, id: int)
    requires next <= id
    ensures GiveUp(held, next, id).next == if id - next < WINDOW then next else Boundary(held, id)
    decreases id - next
  {
    if id - next >= WINDOW {
      if next in held {
        GiveUpStopsAtTheBoundary(held, next + 1, id);
      } else {
        var run := MissingRun(held, next, id);
        GiveUpStopsAtTheBoundary(held, next + run, id);
        if id - (next + run) < WINDOW {
          MissingRunFromInside(held, next, id - WINDOW, id);
        }
      }
    }
  }

  lemma {:induction false} GivenUpPlaysAll(held: Held, next: int, id: int)
    requires next <= id
    ensures PlaysAll(held, next, GiveUp(held, next, id).next, GivenUp(held, next, id))
    decreases id - next
  {
    if id - next >= WINDOW {
      if next in held {
        GivenUpPlaysAll(held, next + 1, id);
        PlaysOneMore(held, next, next, GiveUp(held, next, id).next, GivenUp(held, next + 1, id));
      } else {
        GivenUpPlaysAll(held, next + MissingRun(held, next, id), id);
      }
    }
  }

  lemma {:induction false} PlayedOnPlaysAll(held: Held, next: int, limit: int)
    requires forall i :: i in held ==> i < limit
    ensures PlaysAll(held, next, PlayOn(held, next, limit).next, PlayedOn(held, next, limit))
    ensures |PlayedOn(held, next, limit)| == PlayOn(held, next, limit).next - next
    ensures forall k :: 0 <= k < |PlayedOn(held, next, limit)| ==> PlayedOn(held, next, limit)[k].0 == next + k
    decreases limit - next
  {
    if next in held {
      PlayedOnPlaysAll(held, next + 1, limit);
      PlaysOneMore(held, next, next, PlayOn(held, next, limit).next, PlayedOn(held, next + 1, limit));
    }
  }

  lemma IdsConcat(a: seq<Packet>, b: seq<Packet>)
    ensures Ids(a + b) == Ids(a) + Ids(b)
  {
    forall i ensures i in Ids(a + b) <==> i in Ids(a) || i in Ids(b) {
      if i in Ids(a) {
        var k :| 0 <= k < |a| && a[k].0 == i;
        assert (a + b)[k].0 == i;
      }
      if i in Ids(b) {
        var k :| 0 <= k < |b| && b[k].0 == i;
        assert (a + b)[|a| + k].0 == i;
      }
    }
  }

  lemma PlaysAllConcat(held: Held, a: int, b: int, c: int, p: seq<Packet>, q: seq<Packet>)
    requires a <= b <= c && PlaysAll(held, a, b, p) && PlaysAll(held, b, c, q)
    ensures PlaysAll(held, a, c, p + q)
  {
    IdsConcat(p, q);
    hide Ids;
  }

  // What is present once `id` has arrived: held, or the arrival as it plays.
  function Present(p: Playing, id: int, payload: Bytes): Held
    requires InWindow(p)
  {
    if id in p.held then p.held
    else if p.next <= id && id == GiveUp(p.held, p.next, id).next then p.held[id := payload]
    else p.held[id := Kept(payload)]
  }

  lemma PlaysAllAgrees(held: Held, held': Held, from: int, to: int, played: seq<Packet>)
    requires PlaysAll(held, from, to, played)
    requires forall i :: from <= i < to ==> (i in held <==> i in held') && (i in held ==> held[i] == held'[i])
    ensures PlaysAll(held', from, to, played)
  {
  }

  lemma ArrivedPlaysAll(held: Held, next: int, id: int, payload: Bytes, limit: int)
    requires Below(held, id, limit) && next <= id
    ensures var present := if id in held then held else held[id := if id == next then payload else Kept(payload)];
            id != next || id !in held ==>
            PlaysAll(present, next, Arrive(held, next, id, payload, limit).next,
                     Arrived(held, next, id, payload, limit))
  {
    var placed := Placed(held, next, id, payload);
    if id == next {
      PlayedOnPlaysAll(placed, id + 1, limit);
      if id !in held {
        var present := held[id := payload];
        var on := PlayOn(placed, id + 1, limit).next;
        PlaysAllAgrees(placed, present, id + 1, on, PlayedOn(placed, id + 1, limit));
        PlaysOneMore(present, id, id, on, PlayedOn(placed, id + 1, limit));
      }
    } else {
      PlayedOnPlaysAll(placed, next, limit);
    }
  }

  /**
   * An arrival inside the resync distance plays exactly the packets present
   * below its new position, in order, keeps exactly those above it, and moves
   * no further than it must: past the holes too far behind it and the run of
   * present packets that follows.
   */
  lemma TakeIsExact(p: Playing, id: int, payload: Bytes)
    requires InWindow(p) && p.next <= id < p.next + RESYNC_AHEAD
    ensures var t := Take(p, id, payload).to; var present := Present(p, id, payload);
            var stop := if id - p.next < WINDOW then p.next else Boundary(p.held, id);
            && PlaysAll(present, p.next, t.next, Played(p, id, payload))
            && t.held == From(present, t.next)
            && InWindow(t)
            && stop <= t.next && t.next !in present && (forall i :: stop <= i < t.next ==> i in present)
  {
    hide GiveUp, GivenUp, Arrive, Arrived, PlaysAll, Boundary;
    var next := GiveUp(p.held, p.next, id).next;
    GiveUpStopsAtTheBoundary(p.held, p.next, id);
    TakePlaysAll(p, id, payload);
  }

  lemma TakePlaysAll(p: Playing, id: int, payload: Bytes)
    requires InWindow(p) && p.next <= id < p.next + RESYNC_AHEAD
    ensures PlaysAll(Present(p, id, payload), p.next, Take(p, id, payload).to.next, Played(p, id, payload))
  {
    hide GiveUp, GivenUp, Arrive, Arrived;
    var next := GiveUp(p.held, p.next, id).next;
    GivenUpPlaysAll(p.held, p.next, id);
    ArrivedPlaysAll(p.held, next, id, payload, Limit(p, id));
    var present := Present(p, id, payload);
    if id in p.held {
      HeldIdIsNotTheStop(p.held, p.next, id);
    }
    PlaysAllAgrees(p.held, present, p.next, next, GivenUp(p.held, p.next, id));
    PlaysAllConcat(present, p.next, next, Arrive(p.held, next, id, payload, Limit(p, id)).next,
                   GivenUp(p.held, p.next, id), Arrived(p.held, next, id, payload, Limit(p, id)));
  }

  // A duplicate of something held is within the window, so giving up stops short.
  lemma HeldIdIsNotTheStop(held: Held, next: int, id: int)
    requires next <= id && id in held && next < id && id - next < WINDOW
    ensures GiveUp(held, next, id).next == next
  {
  }

  // What is played lies ahead of where playing stood, in order.
  lemma PlayedIsAhead(p: Playing, id: int, payload: Bytes)
    requires InWindow(p)
    ensures Increasing(p.next - 1, Played(p, id, payload))
    ensures InWindow(Take(p, id, payload).to)
  {
    if p.next <= id < p.next + RESYNC_AHEAD {
      TakeIsExact(p, id, payload);
    }
  }

  // So an arrival decodes what it plays, and between two decodes a hole is heard
  // as one conceal for each number missing, up to MAX_CONCEALED, and as none beyond.
  lemma TakeIsHeard(p: Playing, id: int, payload: Bytes)
    requires InWindow(p)
    ensures HolesAreHeard(p.next - 1, Take(p, id, payload).events)
    ensures Decoded(Take(p, id, payload).events) == Played(p, id, payload)
  {
    hide Take, Played, HolesAreHeard, Decoded, Render;
    TakeRenders(p, id, payload);
    PlayedIsAhead(p, id, payload);
    RenderIsHeard(p.next - 1, Played(p, id, payload));
  }

  // ---- the object ----------------------------------------------------------

  datatype Slot = Slot(id: Option<Seq16>, data: Bytes)

  // Seen from `lo`, the slots hold exactly `view`, each packet at its number.
  ghost predicate Shows(slots: seq<Slot>, view: Held, lo: int) {
    && |slots| == WINDOW
    && (forall i :: i in view ==> ShowsPacket(slots, i, view[i], lo))
    && forall k :: 0 <= k < WINDOW ==> ShowsNoOther(slots[k], k, view, lo)
  }

  ghost predicate ShowsPacket(slots: seq<Slot>, i: int, data: Bytes, lo: int)
    requires |slots| == WINDOW
  {
    lo <= i < lo + SPAN && slots[i % WINDOW] == Slot(Some(Wrap(i)), data)
  }

  ghost predicate ShowsNoOther(slot: Slot, k: int, view: Held, lo: int) {
    slot.id.Some? ==> slot.id.value % WINDOW == k && Ahead(slot.id.value, lo) in view
  }

  lemma SlotOf(i: int)
    ensures Wrap(i) % WINDOW == i % WINDOW
  {
  }

  lemma Apart(i: int, j: int)
    requires -WINDOW < i - j < WINDOW && i != j
    ensures i % WINDOW != j % WINDOW
  {
  }

  lemma ShowsWhatIsHeld(slots: seq<Slot>, view: Held, lo: int, i: int)
    requires Shows(slots, view, lo) && lo <= i < lo + SPAN
    ensures slots[Wrap(i) % WINDOW].id == Some(Wrap(i)) <==> i in view
    ensures i in view ==> slots[Wrap(i) % WINDOW].data == view[i]
  {
    SlotOf(i);
    AheadOfWrap(i, lo);
    assert i in view ==> ShowsPacket(slots, i, view[i], lo);
    assert ShowsNoOther(slots[i % WINDOW], i % WINDOW, view, lo);
  }

  // Played: its slot is free again.
  lemma ShowsAfterPlaying(slots: seq<Slot>, held: Held, lo: int, i: int, freed: seq<Slot>)
    requires i in held && Shows(slots, From(held, i), lo)
    requires freed == slots[Wrap(i) % WINDOW := slots[Wrap(i) % WINDOW].(id := None)]
    ensures Shows(freed, From(held, i + 1), lo)
  {
    SlotOf(i);
    var view := From(held, i);
    assert i in view && ShowsPacket(slots, i, view[i], lo);
    forall j | j in From(held, i + 1) ensures ShowsPacket(freed, j, held[j], lo) {
      assert j in view && ShowsPacket(slots, j, view[j], lo);
      WrapInjective(i, j);
    }
    forall k | 0 <= k < WINDOW ensures ShowsNoOther(freed[k], k, From(held, i + 1), lo) {
      assert ShowsNoOther(slots[k], k, view, lo);
      if freed[k].id.Some? {
        WrapOfAhead(slots[k].id.value, lo);
        SlotOf(Ahead(slots[k].id.value, lo));
      }
    }
  }

  lemma ShowsAfterPlacing(slots: seq<Slot>, view: Held, lo: int, i: int, data: Bytes)
    requires Shows(slots, view, lo) && lo <= i < lo + SPAN && i !in view
    requires forall j :: j in view ==> -WINDOW < i - j < WINDOW
    ensures Shows(slots[Wrap(i) % WINDOW := Slot(Some(Wrap(i)), data)], view[i := data], lo)
  {
    SlotOf(i);
    var after := slots[i % WINDOW := Slot(Some(Wrap(i)), data)];
    AheadOfWrap(i, lo);
    var placed := view[i := data];
    forall j | j in placed ensures ShowsPacket(after, j, placed[j], lo) {
      if j != i {
        Apart(i, j);
        assert ShowsPacket(slots, j, view[j], lo);
      }
    }
    forall k | 0 <= k < WINDOW ensures ShowsNoOther(after[k], k, view[i := data], lo) {
      assert ShowsNoOther(slots[k], k, view, lo);
    }
  }

  lemma ShowsFurtherOn(slots: seq<Slot>, view: Held, lo: int, lo': int)
    requires Shows(slots, view, lo) && lo <= lo' && forall i :: i in view ==> lo' <= i
    ensures Shows(slots, view, lo')
  {
    forall i | i in view ensures ShowsPacket(slots, i, view[i], lo') {
      assert ShowsPacket(slots, i, view[i], lo);
    }
    forall k | 0 <= k < WINDOW ensures ShowsNoOther(slots[k], k, view, lo') {
      assert ShowsNoOther(slots[k], k, view, lo);
      if slots[k].id.Some? {
        var i := Ahead(slots[k].id.value, lo);
        WrapOfAhead(slots[k].id.value, lo);
        AheadOfWrap(i, lo');
      }
    }
  }

  // The packet number a 16-bit id stands for, seen from the next one expected;
  // more than half the space ahead is behind.
  function Unwrap(next: int, id: Seq16): int {
    var forward := (id - next) % SPAN;
    if forward < HALF then next + forward else next + forward - SPAN
  }

  // An event as it is emitted: the id is 16 bits wide.
  function OnWire(events: seq<Event>): (out: seq<Event>)
    ensures |out| == |events|
  {
    seq(|events|, k requires 0 <= k < |events| =>
      if events[k].Decode? then Decode(Wrap(events[k].id), events[k].payload) else Conceal)
  }

  lemma OnWireConcat(a: seq<Event>, b: seq<Event>)
    ensures OnWire(a + b) == OnWire(a) + OnWire(b)
  {
  }

  // `at` is the player the 16-bit fields stand for.
  class Reorder {
    var next: Option<Seq16>
    const held: array<Slot>
    ghost var at: Option<Playing>

    ghost predicate Valid()
      reads this, held
    {
      && held.Length == WINDOW
      && (next.None? <==> at.None?)
      && match at
         case None => Shows(held[..], map[], 0)
         case Some(p) => next == Some(Wrap(p.next)) && InWindow(p) && Shows(held[..], p.held, p.next)
    }

    constructor ()
      ensures Valid() && at == None && fresh(held)
    {
      next, at := None, None;
      held := new Slot[WINDOW](_ => Slot(None, []));
    }

    predicate IsHeld(id: Seq16)
      requires held.Length == WINDOW
      reads held
    {
      held[id % WINDOW].id == Some(id)
    }

    // Play what is held under `id`; nothing else in the slots changes.
    method PlayHeld(id: Seq16) returns (event: Event, after: Seq16)
      requires held.Length == WINDOW
      modifies held
      ensures event == Decode(id, old(held[id % WINDOW].data)) && after == Next(id)
      ensures held[..] == old(held[..][id % WINDOW := held[id % WINDOW].(id := None)])
    {
      var slot := held[id % WINDOW];
      held[id % WINDOW] := slot.(id := None);
      event, after := Decode(id, slot.data), Next(id);
    }

    method CountMissing(from: Seq16, arrived: Seq16, ghost view: Held, ghost lo: int, ghost first: int, ghost id: int)
      returns (run: nat)
      requires held.Length == WINDOW && Shows(held[..], view, lo) && lo <= first <= id < lo + HALF
      requires from == Wrap(first) && arrived == Wrap(id)
      ensures run == MissingRun(view, first, id)
    {
      hide Shows, MissingRun;
      run := 0;
      var s := from;
      WrapInjective(first, id);
      ShowsWhatIsHeld(held[..], view, lo, first);
      while s != arrived && !IsHeld(s)
        invariant first + run <= id && s == Wrap(first + run)
        invariant MissingRun(view, first, id) == run + MissingRun(view, first + run, id)
        invariant s != arrived <==> first + run != id
        invariant IsHeld(s) <==> first + run in view
        decreases id - first - run
      {
        MissingOneMore(view, first + run, id);
        run := run + 1;
        NextIsSuccessor(first + run - 1);
        s := Next(s);
        WrapInjective(first + run, id);
        ShowsWhatIsHeld(held[..], view, lo, first + run);
      }
      MissingOneMore(view, first + run, id);
    }

    method GiveUpFor(start: Seq16, id: Seq16, ghost p: Playing, ghost n: int) returns (next: Seq16, events: seq<Event>)
      requires held.Length == WINDOW && Shows(held[..], p.held, p.next)
      requires InWindow(p) && p.next <= n < p.next + RESYNC_AHEAD
      requires start == Wrap(p.next) && id == Wrap(n)
      modifies held
      ensures var m := GiveUp(p.held, p.next, n);
              next == Wrap(m.next) && events == OnWire(m.events) && Shows(held[..], From(p.held, m.next), p.next)
    {
      hide GiveUp, Shows, GivingUp, OnWire, Gap, From, MissingRun, Wrap;
      next, events := start, [];
      ghost var k := p.next;
      DistanceOnWire(n, k);
      GivingUpBegins(p.held, p.next, n);
      FromStart(p);
      while (id - next) % SPAN >= WINDOW
        invariant p.next <= k <= n && next == Wrap(k) && (id - next) % SPAN == n - k
        invariant GivingUp(p.held, p.next, n, k, events)
        invariant Shows(held[..], From(p.held, k), p.next)
        decreases n - k
      {
        ShowsWhatIsHeld(held[..], From(p.held, k), p.next, k);
        InFrom(p.held, k);
        if IsHeld(next) {
          ghost var slots := held[..];
          var event, after := PlayHeld(next);
          ShowsAfterPlaying(slots, p.held, p.next, k, held[..]);
          GivingUpPlays(p.held, p.next, n, k, events);
          NextIsSuccessor(k);
          events, next, k := events + [event], after, k + 1;
        } else {
          var run := CountMissing(next, id, From(p.held, k), p.next, k, n);
          MissingFromHere(p.held, k, n);
          GivingUpSkips(p.held, p.next, n, k, events);
          var gap, past := Skip(next, run, k);
          FromSkips(p.held, k, n);
          events, next, k := events + gap, past, k + run;
        }
        DistanceOnWire(n, k);
      }
      GivingUpEnds(p.held, p.next, n, k, events);
    }

    static lemma DistanceOnWire(n: int, k: int)
      requires 0 <= n - k < SPAN
      ensures (Wrap(n) - Wrap(k)) % SPAN == n - k
    {
    }

    // Step over a whole hole, concealing it if it is short.
    method Skip(from: Seq16, run: nat, ghost k: int) returns (events: seq<Event>, next: Seq16)
      requires from == Wrap(k)
      ensures events == OnWire(Gap(run)) && next == Wrap(k + run)
    {
      events, next := [], from;
      for i := 0 to run
        invariant next == Wrap(k + i)
        invariant events == if run <= MAX_CONCEALED then seq(i, _ => Conceal) else []
      {
        if run <= MAX_CONCEALED {
          events := events + [Conceal];
        }
        NextIsSuccessor(k + i);
        next := Next(next);
      }
    }

    method PlayWaiting(start: Seq16, ghost view: Held, ghost lo: int, ghost n: int, ghost limit: int)
      returns (next: Seq16, events: seq<Event>)
      requires held.Length == WINDOW && Shows(held[..], From(view, n), lo) && start == Wrap(n)
      requires lo <= n <= limit < lo + SPAN && forall i :: i in view ==> i < limit
      modifies held
      ensures var m := PlayOn(view, n, limit);
              next == Wrap(m.next) && events == OnWire(m.events) && Shows(held[..], From(view, m.next), lo)
    {
      hide PlayOn, Shows, PlayingOn, OnWire;
      next, events := start, [];
      ghost var k := n;
      PlayingOnBegins(view, n, limit);
      ShowsWhatIsHeld(held[..], From(view, k), lo, k);
      while IsHeld(next)
        invariant n <= k <= limit && next == Wrap(k)
        invariant PlayingOn(view, n, limit, k, events)
        invariant Shows(held[..], From(view, k), lo)
        invariant IsHeld(next) <==> k in view
        decreases limit - k
      {
        ShowsWhatIsHeld(held[..], From(view, k), lo, k);
        ghost var slots := held[..];
        var event, after := PlayHeld(next);
        ShowsAfterPlaying(slots, view, lo, k, held[..]);
        PlayingOnPlays(view, n, limit, k, events);
        NextIsSuccessor(k);
        events, next, k := events + [event], after, k + 1;
        ShowsWhatIsHeld(held[..], From(view, k), lo, k);
      }
      PlayingOnEnds(view, n, limit, k, events);
    }

    // One arrival, and all it lets be heard.
    method Push(id: Seq16, payload: Bytes) returns (events: seq<Event>)
      requires Valid()
      modifies this, held
      ensures Valid()
      ensures match old(at)
              case None => at == Some(Playing(id + 1, map[])) && events == OnWire([Decode(id, payload)])
              case Some(p) =>
                var t := Take(p, Unwrap(p.next, id), payload);
                at == Some(t.to) && events == OnWire(t.events)
    {
      hide Take, Shows, Unwrap, OnWire;
      OnWireOne(id, payload);
      if this.next.None? {
        ShowsNothing(held[..], 0, id + 1);
        this.next, at := Some(Next(id)), Some(Playing(id + 1, map[]));
        return [Decode(id, payload)];
      }
      var next := this.next.value;
      ghost var p := at.value;
      ghost var n := Unwrap(p.next, id);
      UnwrapIsForward(p.next, id);
      TakeOutside(p, n, payload);
      if id != next && !IsNewerThan(id, next) {
        return [];
      }
      if (id - next) % SPAN >= RESYNC_AHEAD {
        OnWireOne(n, payload);
        ClearHeld(n + 1);
        NextIsSuccessor(n);
        this.next, at := Some(Next(id)), Some(Playing(n + 1, map[]));
        return [Decode(id, payload)];
      }
      events := TakeInReach(next, id, payload, p, n);
    }

    method ClearHeld(ghost lo: int)
      requires held.Length == WINDOW
      modifies held
      ensures Shows(held[..], map[], lo)
    {
      for k := 0 to WINDOW
        invariant forall j :: 0 <= j < k ==> held[j].id == None
      {
        held[k] := held[k].(id := None);
      }
    }

    // The arrival is inside the resync distance.
    method TakeInReach(start: Seq16, id: Seq16, payload: Bytes, ghost p: Playing, ghost n: int)
      returns (events: seq<Event>)
      requires Valid() && at == Some(p) && start == Wrap(p.next) && id == Wrap(n)
      requires p.next <= n < p.next + RESYNC_AHEAD
      modifies this, held
      ensures Valid() && at == Some(Take(p, n, payload).to) && events == OnWire(Take(p, n, payload).events)
    {
      hide GiveUp, Shows, OnWire, PlayOn;
      var next, given := GiveUpFor(start, id, p, n);
      ghost var m := GiveUp(p.held, p.next, n);
      ghost var placed := Placed(p.held, m.next, n, payload);
      WrapInjective(n, m.next);
      var here: seq<Event> := [];
      ghost var from := m.next;
      ShowsWhatIsHeld(held[..], From(p.held, m.next), p.next, n);
      if id == next {
        here := [Decode(id, payload)];
        NextIsSuccessor(n);
        next, from := Next(next), n + 1;
        StopIsNotHeld(p, n);
        assert From(p.held, n) == From(p.held, n + 1);
      } else if !IsHeld(id) {
        var kept := if |payload| > MAX_AUDIO_PACKET then payload[..MAX_AUDIO_PACKET] else payload;
        ShowsAfterPlacing(held[..], From(p.held, m.next), p.next, n, kept);
        held[id % WINDOW] := Slot(Some(id), kept);
        assert From(p.held, m.next)[n := kept] == From(placed, m.next);
      }
      var waiting: seq<Event>;
      next, waiting := PlayWaiting(next, placed, p.next, from, Limit(p, n));
      TakeInParts(p, n, payload);
      events := given + here + waiting;
      ghost var t := Take(p, n, payload);
      PlayedIsBehind(p, n, payload);
      ShowsFurtherOn(held[..], t.to.held, p.next, t.to.next);
      this.next, at := Some(next), Some(t.to);
    }
  }

  // ---- the loops of the object ------------------------------------------------

  // `events` have been emitted on the way from `next` to `k`.
  ghost predicate GivingUp(held: Held, next: int, id: int, k: int, events: seq<Event>)
    requires next <= k <= id
  {
    && OnWire(GiveUp(held, next, id).events) == events + OnWire(GiveUp(held, k, id).events)
    && GiveUp(held, next, id).next == GiveUp(held, k, id).next
  }

  lemma GivingUpBegins(held: Held, next: int, id: int)
    requires next <= id
    ensures GivingUp(held, next, id, next, [])
  {
  }

  lemma GivingUpPlays(held: Held, next: int, id: int, k: int, events: seq<Event>)
    requires next <= k <= id && GivingUp(held, next, id, k, events) && id - k >= WINDOW && k in held
    ensures GivingUp(held, next, id, k + 1, events + [Decode(Wrap(k), held[k])])
  {
    hide GiveUp;
    GiveUpUnrolls(held, k, id);
    var rest := GiveUp(held, k + 1, id).events;
    OnWireConcat([Decode(k, held[k])], rest);
    Regroup(events, [Decode(Wrap(k), held[k])], OnWire(rest));
  }

  lemma GivingUpSkips(held: Held, next: int, id: int, k: int, events: seq<Event>)
    requires next <= k <= id && GivingUp(held, next, id, k, events) && id - k >= WINDOW && k !in held
    ensures var run := MissingRun(held, k, id); GivingUp(held, next, id, k + run, events + OnWire(Gap(run)))
  {
    hide GiveUp;
    GiveUpUnrolls(held, k, id);
    var run := MissingRun(held, k, id);
    var rest := GiveUp(held, k + run, id).events;
    OnWireConcat(Gap(run), rest);
    Regroup(events, OnWire(Gap(run)), OnWire(rest));
  }

  lemma GivingUpEnds(held: Held, next: int, id: int, k: int, events: seq<Event>)
    requires next <= k <= id && GivingUp(held, next, id, k, events) && id - k < WINDOW
    ensures GiveUp(held, next, id).next == k && events == OnWire(GiveUp(held, next, id).events)
  {
    assert OnWire([]) == [];
  }

  ghost predicate PlayingOn(held: Held, next: int, limit: int, k: int, events: seq<Event>)
    requires forall i :: i in held ==> i < limit
  {
    && OnWire(PlayOn(held, next, limit).events) == events + OnWire(PlayOn(held, k, limit).events)
    && PlayOn(held, next, limit).next == PlayOn(held, k, limit).next
  }

  lemma PlayingOnBegins(held: Held, next: int, limit: int)
    requires forall i :: i in held ==> i < limit
    ensures PlayingOn(held, next, limit, next, [])
  {
  }

  lemma PlayingOnPlays(held: Held, next: int, limit: int, k: int, events: seq<Event>)
    requires forall i :: i in held ==> i < limit
    requires PlayingOn(held, next, limit, k, events) && k in held
    ensures PlayingOn(held, next, limit, k + 1, events + [Decode(Wrap(k), held[k])])
  {
    hide PlayOn;
    PlayOnUnrolls(held, k, limit);
    var rest := PlayOn(held, k + 1, limit).events;
    OnWireConcat([Decode(k, held[k])], rest);
    Regroup(events, [Decode(Wrap(k), held[k])], OnWire(rest));
  }

  lemma PlayingOnEnds(held: Held, next: int, limit: int, k: int, events: seq<Event>)
    requires forall i :: i in held ==> i < limit
    requires PlayingOn(held, next, limit, k, events) && k !in held
    ensures PlayOn(held, next, limit).next == k && events == OnWire(PlayOn(held, next, limit).events)
  {
    assert OnWire([]) == [];
  }

  lemma OnWireOne(id: int, payload: Bytes)
    ensures OnWire([Decode(id, payload)]) == [Decode(Wrap(id), payload)] && OnWire([]) == []
  {
  }

  lemma ShowsNothing(slots: seq<Slot>, lo: int, lo': int)
    requires Shows(slots, map[], lo)
    ensures Shows(slots, map[], lo')
  {
    forall k | 0 <= k < WINDOW ensures ShowsNoOther(slots[k], k, map[], lo') {
      assert ShowsNoOther(slots[k], k, map[], lo);
    }
  }

  lemma TakeOutside(p: Playing, id: int, payload: Bytes)
    requires InWindow(p)
    ensures id < p.next ==> Take(p, id, payload) == Taken(p, [])
    ensures id - p.next >= RESYNC_AHEAD ==> Take(p, id, payload) == Taken(Playing(id + 1, map[]), [Decode(id, payload)])
  {
  }

  lemma FromSkips(held: Held, k: int, id: int)
    requires k <= id
    ensures From(held, k) == From(held, k + MissingRun(held, k, id))
  {
  }

  lemma InFrom(held: Held, k: int)
    ensures k in From(held, k) <==> k in held
    ensures k in held ==> From(held, k)[k] == held[k]
  {
  }

  lemma FromStart(p: Playing)
    requires InWindow(p)
    ensures From(p.held, p.next) == p.held
  {
  }

  lemma UnwrapIsForward(next: int, id: Seq16)
    ensures id == Wrap(Unwrap(next, id))
    ensures Unwrap(next, id) >= next <==> id == Wrap(next) || IsNewerThan(id, Wrap(next))
    ensures Unwrap(next, id) >= next ==> Unwrap(next, id) - next == (id - Wrap(next)) % SPAN
  {
    assert (id - next) % SPAN == (id - Wrap(next)) % SPAN;
  }

  // Giving up stops at the arrival only where nothing is held.
  lemma StopIsNotHeld(p: Playing, id: int)
    requires InWindow(p) && p.next <= id && GiveUp(p.held, p.next, id).next == id
    ensures id !in p.held
  {
    if id in p.held {
      HeldIdIsNotTheStop(p.held, p.next, id);
    }
  }

  lemma TakeInParts(p: Playing, id: int, payload: Bytes)
    requires InWindow(p) && p.next <= id < p.next + RESYNC_AHEAD
    ensures var m := GiveUp(p.held, p.next, id);
            var placed := Placed(p.held, m.next, id, payload);
            var direct := id == m.next;
            var on := PlayOn(placed, if direct then id + 1 else m.next, Limit(p, id));
            && Take(p, id, payload).to == Playing(on.next, From(placed, on.next))
            && OnWire(Take(p, id, payload).events)
               == OnWire(m.events) + (if direct then [Decode(Wrap(id), payload)] else []) + OnWire(on.events)
  {
    hide GiveUp, PlayOn;
    var m := GiveUp(p.held, p.next, id);
    var placed := Placed(p.held, m.next, id, payload);
    var on := PlayOn(placed, if id == m.next then id + 1 else m.next, Limit(p, id));
    OnWireConcat(m.events, Arrive(p.held, m.next, id, payload, Limit(p, id)).events);
    if id == m.next {
      OnWireConcat([Decode(id, payload)], on.events);
    }
  }

  lemma PlayedIsBehind(p: Playing, id: int, payload: Bytes)
    requires InWindow(p) && p.next <= id < p.next + RESYNC_AHEAD
    ensures var t := Take(p, id, payload).to; p.next <= t.next && InWindow(t)
  {
    hide Take, PlaysAll;
    TakeIsExact(p, id, payload);
  }

  lemma MissingOneMore(held: Held, from: int, arrived: int)
    requires from <= arrived
    ensures MissingRun(held, from, arrived)
            == if from == arrived || from in held then 0 else 1 + MissingRun(held, from + 1, arrived)
  {
  }

  lemma MissingFromHere(held: Held, from: int, id: int)
    requires from <= id
    ensures MissingRun(From(held, from), from, id) == MissingRun(held, from, id)
  {
    MissingAgrees(From(held, from), held, from, id);
  }

  lemma {:induction false} MissingAgrees(a: Held, b: Held, from: int, id: int)
    requires from <= id && forall i :: i >= from ==> (i in a <==> i in b)
    ensures MissingRun(a, from, id) == MissingRun(b, from, id)
    decreases id - from
  {
    if from < id && from !in a {
      MissingAgrees(a, b, from + 1, id);
    }
  }

  lemma PlayOnUnrolls(held: Held, next: int, limit: int)
    requires forall i :: i in held ==> i < limit
    ensures next !in held ==> PlayOn(held, next, limit) == Moved(next, [])
    ensures next in held ==>
              && PlayOn(held, next, limit).next == PlayOn(held, next + 1, limit).next
              && PlayOn(held, next, limit).events == [Decode(next, held[next])] + PlayOn(held, next + 1, limit).events
  {
  }
}