// That what is queued for a client can arrive: from any state with the frames of
// the outstanding messages still on their way, some run delivers everything and
// has it acknowledged, window by window.

module Progress {
  import opened Basics
  import opened Seq
  import opened Wire
  import opened Reliable
  import opened Channel
  import opened Endpoint
  import E = Endpoint

  // A frame carrying message `i` may still reach `to`.
  ghost predicate HasFrame(from: Side, to: Side, i: nat) {
    exists p :: p in from.net && p.frame.payload.Some? && p.index == i && Deliverable(from, to, p)
  }

  ghost predicate OnTheWay(from: Side, to: Side) {
    forall i: nat :: from.base <= i < |from.sent| ==> HasFrame(from, to, i)
  }

  // ---- putting frames on their way ---------------------------------------------

  lemma FreshIsDeliverable(a: Side, b: Side, p: Packet)
    requires Linked(a, b) && p in a.net && p.gotThen == |a.got|
    requires p.frame.payload.Some? ==> |b.got| - p.index <= SPAN - WINDOW
    ensures Deliverable(a, b, p)
  {
    hide TableOk, PacketsOk, HeldOk;
    WindowIsNarrow(b);
  }

  lemma StillHasFrame(a: Side, a': Side, b: Side, i: nat)
    requires HasFrame(a, b, i) && a.net <= a'.net
    ensures HasFrame(a', b, i)
  {
    var p :| p in a.net && p.frame.payload.Some? && p.index == i && Deliverable(a, b, p);
    assert Deliverable(a', b, p);
  }

  lemma SendGoesOut(a: Side, b: Side, message: Bytes, now: nat)
    requires Linked(a, b) && CanSend(a, message) && OnTheWay(a, b)
    ensures OnTheWay(Sending(a, message, now), b)
  {
    hide TableOk, PacketsOk, HeldOk, HasFrame;
    var a' := Sending(a, message, now);
    SendKeeps(a, b, message, now);
    assert a.net <= a'.net && a'.base == a.base;
    forall i: nat | a'.base <= i < |a'.sent|
      ensures HasFrame(a', b, i)
    {
      if i < |a.sent| {
        StillHasFrame(a, a', b, i);
      } else {
        SentHasFrame(a, b, message, now);
      }
    }
  }

  lemma SentHasFrame(a: Side, b: Side, message: Bytes, now: nat)
    requires Linked(a, b) && CanSend(a, message)
    ensures HasFrame(Sending(a, message, now), b, |a.sent|)
  {
    hide TableOk, PacketsOk, HeldOk, Deliverable;
    var a' := Sending(a, message, now);
    SendKeeps(a, b, message, now);
    WindowIsNarrow(a);
    AheadOfWrap(|a.sent|, a.base);
    var f := SendFrame(a.end, message);
    assert f in [f];
    var p := Packet(f, |a.sent|, |a.got|);
    assert p in a'.net;
    FreshIsDeliverable(a', b, p);
  }

  lemma {:induction false} FlushGoesOut(a: Side, b: Side, pending: seq<Message>, now: nat)
    requires Linked(a, b) && OnTheWay(a, b)
    ensures OnTheWay(Flushing(a, pending, now), b) && Flushing(a, pending, now).base == a.base
    decreases |pending|
  {
    hide Linked, OnTheWay;
    if pending != [] {
      if pending[0].Some? && CanSend(a, pending[0].value) {
        SendKeeps(a, b, pending[0].value, now);
        SendGoesOut(a, b, pending[0].value, now);
        FlushGoesOut(Sending(a, pending[0].value, now), b, pending[1..], now);
      } else {
        FlushGoesOut(a, b, pending[1..], now);
      }
    }
  }

  // A tick that finds every outstanding entry due resends them all.
  ghost predicate AllDue(e: End, now: nat) {
    forall s :: s in e.unacked ==> Due(e.unacked[s], now)
  }

  lemma TickGoesOut(a: Side, b: Side, now: nat)
    requires Linked(a, b) && !PeerIsGone(a.end, now) && AllDue(a.end, now)
    ensures OnTheWay(Ticking(a, now), b)
  {
    hide TableOk, PacketsOk, HeldOk, HasFrame;
    var a' := Ticking(a, now);
    forall i: nat | a'.base <= i < |a'.sent|
      ensures HasFrame(a', b, i)
    {
      ResentHasFrame(a, b, now, i);
    }
  }

  lemma ResentHasFrame(a: Side, b: Side, now: nat, i: nat)
    requires Linked(a, b) && !PeerIsGone(a.end, now) && AllDue(a.end, now) && a.base <= i < |a.sent|
    ensures HasFrame(Ticking(a, now), b, i)
  {
    hide PacketsOk, HeldOk, Deliverable, Due, Resent, TableOk;
    var a', s := Ticking(a, now), Wrap(i);
    TickKeeps(a, b, now);
    OutstandingIsInTable(a, i);
    EntryIsItsMessage(a, s, i);
    var f := Resend(a.end, a.end.unacked[s], now).frame;
    ResentAreTheDue(a.end, now, SPAN, f);
    assert f in TickFrames(a.end, now);
    var p := Packet(f, i, |a.got|);
    assert p == Tag(a, f) && p in a'.net;
    GotIsNear(a, b);
    FreshIsDeliverable(a', b, p);
  }

  lemma OutstandingIsInTable(a: Side, i: nat)
    requires SideOk(a) && a.base <= i < |a.sent|
    ensures Wrap(i) in a.end.unacked
  {
    AheadOfWrap(i, a.base);
  }

  lemma GotIsNear(a: Side, b: Side)
    requires Linked(a, b)
    ensures a.base <= |b.got| <= |a.sent| <= a.base + WINDOW && b.got == a.sent[..|b.got|]
  {
  }

  // ---- one end hears the other ---------------------------------------------------

  // The next message is delivered; any payload makes an ack owed.
  lemma HearingNext(a: Side, b: Side, p: Packet)
    requires Linked(a, b) && Deliverable(a, b, p) && p.frame.payload.Some?
    ensures var b' := Receiving(b, p);
            && b'.end.ackPending && b'.sent == b.sent
            && (p.index == |b.got| ==> |b.got| < |b'.got|)
  {
    hide TableOk, PacketsOk, HeldOk, Wrap, IsNewerThan, DistanceFrom;
    PacketIsOk(a, p);
    if p.index == |b.got| {
      PayloadIsTaken(b.end, |b.got|, p.index);
      WantIsNext(|b.got|);
      DrainTakesTheNext(b.end.ack, b.end.early[p.frame.seqNo := p.frame.payload.value]);
    }
  }

  lemma DrainTakesTheNext(ack: Option<Seq16>, early: map<Seq16, Bytes>)
    requires Want(ack) in early
    ensures |Drain(ack, early).ready| > 0
  {
  }

  lemma HearingKeepsTheWay(a: Side, b: Side, b': Side)
    requires OnTheWay(a, b) && Linked(a, b') && b'.sent == b.sent
    ensures OnTheWay(a, b')
  {
    hide Linked;
    GotIsNear(a, b');
    forall i: nat | a.base <= i < |a.sent|
      ensures HasFrame(a, b', i)
    {
      assert HasFrame(a, b, i);
      var p :| p in a.net && p.frame.payload.Some? && p.index == i && Deliverable(a, b, p);
      assert Deliverable(a, b', p);
    }
  }

  // With everything delivered, the owed ack empties the table.
  lemma AckEmptiesTheTable(a: Side, b: Side)
    requires Linked(a, b) && b.got == a.sent && b.end.ackPending
    ensures var b' := TakingAck(b); var p := Tag(b, BareAck(b.end)); var a' := Receiving(a, p);
            && Deliverable(b', a, p) && p.frame.epoch == b.end.epoch
            && a' == a.(end := a'.end, base := |a.sent|)
            && a'.end.unacked == map[] && a'.end.maxPayload == a.end.maxPayload
  {
    hide PacketsOk, HeldOk, TableOk;
    var b', p := TakingAck(b), Tag(b, BareAck(b.end));
    TakeAckKeeps(b, a);
    assert BareAck(b.end) in [BareAck(b.end)];
    assert p in b'.net;
    FreshIsDeliverable(b', a, p);
    ReceiveKeeps(a, b', p);
    GotIsNear(a, b);
    EmptyTable(Receiving(a, p));
  }

  lemma EmptyTable(a: Side)
    requires SideOk(a) && a.base == |a.sent|
    ensures a.end.unacked == map[]
  {
    forall s: Seq16
      ensures s !in a.end.unacked
    {
      WrapOfAhead(s, a.base);
    }
  }

  // ---- runs of the system --------------------------------------------------------

  lemma {:induction false} Join(s: System, first: seq<E.Event>, second: seq<E.Event>)
    requires E.IsRun(s, first) && E.IsRun(E.After(s, first), second)
    ensures E.IsRun(s, first + second) && E.After(s, first + second) == E.After(E.After(s, first), second)
    decreases |first|
  {
    hide E.Possible, E.Step;
    if first == [] {
      assert first + second == second;
    } else {
      assert (first + second)[0] == first[0] && (first + second)[1..] == first[1..] + second;
      Join(E.Step(s, first[0]), first[1..], second);
    }
  }

  lemma One(s: System, event: E.Event)
    requires E.Possible(s, event)
    ensures E.IsRun(s, [event]) && E.After(s, [event]) == E.Step(s, event)
  {
    hide E.Possible, E.Step;
    assert [event][1..] == [];
    assert E.IsRun(E.Step(s, event), []);
  }

  // The server follows `who`, whose frames are on their way.
  ghost predicate Flowing(s: System, who: nat) {
    && SystemOk(s) && s.following == Some(who) && who < |s.clients|
    && OnTheWay(s.clients[who].far, s.clients[who].near)
  }

  // Only what `who` itself holds has changed.
  ghost predicate OnlyNear(s: System, s': System, who: nat) {
    && who < |s.clients|
    && s' == s.(clients := s'.clients) && |s'.clients| == |s.clients|
    && s'.clients[who] == s.clients[who].(near := s'.clients[who].near)
  }

  lemma FollowedIsLinked(s: System, who: nat)
    requires SystemOk(s) && s.following == Some(who) && who < |s.clients|
    ensures var c := s.clients[who];
            && Linked(c.near, c.far) && Linked(c.far, c.near) && ServerEnd(s) == c.far.end
            && c.far.end.peerEpoch == Some(c.near.end.epoch) && c.far.end.maxPayload == s.maxPayload
  {
    hide Linked, LanesOk;
    var c := s.clients[who];
    assert ClientOk(s, c);
    LinkedIsSymmetric(c.near, c.far);
  }

  // The client takes a frame that is on its way.
  lemma ClientHears(s: System, who: nat, p: Packet)
    requires Flowing(s, who) && p.frame.payload.Some?
    requires Deliverable(s.clients[who].far, s.clients[who].near, p)
    ensures var event := ClientActs(who, Receive(p));
            && E.Possible(s, event)
            && var s', near := E.Step(s, event), s.clients[who].near;
               && Flowing(s', who) && OnlyNear(s, s', who)
               && s'.clients[who].near.end.ackPending
               && |near.got| <= |s'.clients[who].near.got| <= |s.clients[who].far.sent|
               && (p.index == |near.got| ==> |near.got| < |s'.clients[who].near.got|)
  {
    hide Linked, LanesOk, QueueOk, OnTheWay, Receiving, SystemOk;
    var c := s.clients[who];
    FollowedIsLinked(s, who);
    E.StepKeeps(s, ClientActs(who, Receive(p)));
    ActKeeps(c.near, c.far, Receive(p));
    LinkedIsSymmetric(Receiving(c.near, p), c.far);
    HearingNext(c.far, c.near, p);
    GotIsNear(c.far, Receiving(c.near, p));
    HearingKeepsTheWay(c.far, c.near, Receiving(c.near, p));
  }

  lemma FrameFor(s: System, who: nat, i: nat) returns (p: Packet)
    requires Flowing(s, who) && s.clients[who].far.base <= i < |s.clients[who].far.sent|
    ensures p.frame.payload.Some? && p.index == i && Deliverable(s.clients[who].far, s.clients[who].near, p)
  {
    hide SystemOk, Deliverable;
    var c := s.clients[who];
    assert HasFrame(c.far, c.near, i);
    p :| p in c.far.net && p.frame.payload.Some? && p.index == i && Deliverable(c.far, c.near, p);
  }

  lemma {:induction false} DeliverAll(s: System, who: nat) returns (events: seq<E.Event>)
    requires Flowing(s, who)
    ensures E.IsRun(s, events)
    ensures var s' := E.After(s, events);
            Flowing(s', who) && OnlyNear(s, s', who) && s'.clients[who].near.got == s.clients[who].far.sent
    decreases |s.clients[who].far.sent| - |s.clients[who].near.got|
  {
    hide Linked, SystemOk, OnTheWay, E.Step, E.Possible;
    var c := s.clients[who];
    FollowedIsLinked(s, who);
    GotIsNear(c.far, c.near);
    if |c.near.got| == |c.far.sent| {
      events := [];
    } else {
      var p := FrameFor(s, who, |c.near.got|);
      var event := ClientActs(who, Receive(p));
      ClientHears(s, who, p);
      One(s, event);
      var rest := DeliverAll(E.Step(s, event), who);
      Join(s, [event], rest);
      events := [event] + rest;
    }
  }

  // The server and `who` as before, but for what is outstanding: nothing.
  ghost predicate Settled(s: System, s': System, who: nat) {
    && SystemOk(s') && who < |s.clients| && |s'.clients| == |s.clients|
    && s' == s.(clients := s'.clients) && s'.following == Some(who)
    && var c, c' := s.clients[who], s'.clients[who];
       && c'.far.sent == c.far.sent == c'.near.got
       && c'.asked == c.asked && c'.offered == c.offered
       && c'.far.base == |c.far.sent| && c'.far.end.unacked == map[]
  }

  lemma AckAll(s: System, who: nat) returns (events: seq<E.Event>)
    requires Flowing(s, who) && s.clients[who].near.got == s.clients[who].far.sent
    ensures E.IsRun(s, events) && Settled(s, E.After(s, events), who)
  {
    hide Linked, OnTheWay, E.Step, E.Possible, SystemOk, LanesOk, QueueOk;
    var c := s.clients[who];
    FollowedIsLinked(s, who);
    GotIsNear(c.far, c.near);
    if c.far.base == |c.far.sent| {
      assert c.far.end.unacked == map[] by { LinkedEmpty(c.far, c.near); }
      events := [];
    } else {
      var p := FrameFor(s, who, |c.far.sent| - 1);
      var hears := ClientActs(who, Receive(p));
      ClientHears(s, who, p);
      One(s, hears);
      var s1 := E.Step(s, hears);
      GotAll(c.far, s1.clients[who].near, s1, who);
      var rest := AckBack(s1, who);
      Join(s, [hears], rest);
      events := [hears] + rest;
    }
  }

  lemma LinkedEmpty(a: Side, b: Side)
    requires Linked(a, b) && a.base == |a.sent|
    ensures a.end.unacked == map[]
  {
    EmptyTable(a);
  }

  lemma GotAll(a: Side, b: Side, s: System, who: nat)
    requires Flowing(s, who) && s.clients[who].far == a && s.clients[who].near == b && |b.got| >= |a.sent|
    ensures b.got == a.sent
  {
    hide Linked;
    FollowedIsLinked(s, who);
    GotIsNear(a, b);
  }

  lemma AckBack(s: System, who: nat) returns (events: seq<E.Event>)
    requires Flowing(s, who) && s.clients[who].near.got == s.clients[who].far.sent
    requires s.clients[who].near.end.ackPending
    ensures E.IsRun(s, events) && Settled(s, E.After(s, events), who)
  {
    hide Linked, OnTheWay, SystemOk, LanesOk, QueueOk, Receiving, TakingAck, Deliverable;
    var c := s.clients[who];
    FollowedIsLinked(s, who);
    var takes := ClientActs(who, TakeAck);
    E.StepKeeps(s, takes);
    One(s, takes);
    var s1 := E.Step(s, takes);
    AckEmptiesTheTable(c.far, c.near);
    var ack := Tag(c.near, BareAck(c.near.end));
    var hears := ServerHears(who, ack);
    assert ServerEnd(s1) == c.far.end;
    assert s1.clients[who].near == TakingAck(c.near);
    assert ack in TakingAck(c.near).net by { InNet(TakingAck(c.near), c.far, ack); }
    assert E.Possible(s1, hears);
    E.StepKeeps(s1, hears);
    One(s1, hears);
    TakingAckKeepsGot(c.near);
    Join(s, [takes], [hears]);
    events := [takes] + [hears];
  }

  lemma InNet(a: Side, b: Side, p: Packet)
    requires Deliverable(a, b, p)
    ensures p in a.net
  {
  }

  lemma TakingAckKeepsGot(a: Side)
    ensures TakingAck(a).got == a.got
  {
  }

  lemma FlushOn(s: System, who: nat, now: nat)
    requires SystemOk(s) && s.following == Some(who) && who < |s.clients|
    requires s.clients[who].far.base == |s.clients[who].far.sent| && s.pending != []
    ensures E.Possible(s, Flushes(now))
    ensures var s' := E.Step(s, Flushes(now));
            && Flowing(s', who) && |s'.pending| < |s.pending| && |s'.clients| == |s.clients|
            && s'.maxPayload == s.maxPayload
            && s'.clients[who].asked == s.clients[who].asked && s'.clients[who].offered == s.clients[who].offered
  {
    hide Linked, LanesOk, QueueOk, SystemOk, Flushing, Flush;
    var c := s.clients[who];
    FollowedIsLinked(s, who);
    E.StepKeeps(s, Flushes(now));
    assert OnTheWay(c.far, c.near);
    FlushGoesOut(c.far, c.near, s.pending, now);
    FlushLinks(c.far, c.near, s.pending, now);
    FlushIsFifo(c.far, s.pending, now);
    FlushEnds(c.far, s.pending, now);
    FlushTakesSome(c.far, c.near, s.pending, now);
  }

  // With nothing outstanding a flush takes something off the queue.
  lemma FlushTakesSome(a: Side, b: Side, pending: seq<Message>, now: nat)
    requires Linked(a, b) && a.base == |a.sent| && pending != []
    ensures |Flush(a.end, pending, now).pending| < |pending|
  {
    LinkedEmpty(a, b);
    hide Linked, Sending, Sendable, AfterSend;
    FlushIsFifo(a, pending[1..], now);
    if pending[0].Some? && CanSend(a, pending[0].value) {
      FlushIsFifo(Sending(a, pending[0].value, now), pending[1..], now);
      SendingIsAfterSend(a, pending[0].value, now);
    }
  }

  lemma SendingIsAfterSend(a: Side, message: Bytes, now: nat)
    ensures Sending(a, message, now).end == AfterSend(a.end, message, now)
  {
  }

  /**
   * From every state in which the server follows a client and the frames of what
   * is outstanding are on their way, some run empties the queue however long it
   * is, delivers to the client everything the server was asked to send and
   * offered, and has all of it acknowledged.
   */
  lemma {:induction false} EverythingQueuedCanArrive(s: System, who: nat, now: nat) returns (events: seq<E.Event>)
    requires Flowing(s, who)
    ensures E.IsRun(s, events)
    ensures var s' := E.After(s, events);
            && SystemOk(s') && s'.following == Some(who) && who < |s'.clients| && s'.pending == []
            && var c' := s'.clients[who];
               && c'.asked == s.clients[who].asked && c'.offered == s.clients[who].offered
               && c'.near.got == c'.far.sent && c'.far.end.unacked == map[]
               && |c'.past| == |c'.far.sent|
               && Lane(c'.near.got, c'.past, false) == Sendable(c'.asked, s.maxPayload)
               && Lane(c'.near.got, c'.past, true) == c'.offered
    decreases |s.pending|
  {
    hide Linked, OnTheWay, E.Step, E.Possible, SystemOk, LanesOk, QueueOk, Lane, Sendable;
    var delivered := DeliverAll(s, who);
    var s1 := E.After(s, delivered);
    var acked := AckAll(s1, who);
    Join(s, delivered, acked);
    var s2 := E.After(s1, acked);
    events := delivered + acked;
    if s2.pending == [] {
      AllWentThrough(s2, who);
    } else {
      FlushOn(s2, who, now);
      One(s2, Flushes(now));
      Join(s, events, [Flushes(now)]);
      var rest := EverythingQueuedCanArrive(E.Step(s2, Flushes(now)), who, now);
      Join(s, events + [Flushes(now)], rest);
      events := events + [Flushes(now)] + rest;
    }
  }

  lemma AllWentThrough(s: System, who: nat)
    requires SystemOk(s) && s.following == Some(who) && who < |s.clients| && s.pending == []
    ensures var c := s.clients[who];
            && |c.past| == |c.far.sent| && Lane(c.far.sent, c.past, false) == Sendable(c.asked, s.maxPayload)
            && Lane(c.far.sent, c.past, true) == c.offered
  {
    hide Linked, Lane;
    var c := s.clients[who];
    assert ClientOk(s, c);
    assert Lane(c.far.sent, c.past, false) + [] == Lane(c.far.sent, c.past, false);
  }

  /**
   * A tick that goes on and finds every outstanding entry due puts them all on
   * their way again, so from there too everything can arrive.
   */
  lemma AfterATickEverythingCanArrive(s: System, who: nat, now: nat) returns (events: seq<E.Event>)
    requires SystemOk(s) && s.following == Some(who) && who < |s.clients|
    requires !PeerIsGone(ServerEnd(s), now) && AllDue(ServerEnd(s), now)
    ensures E.IsRun(s, [ServerTicks(now)] + events)
    ensures var s' := E.After(s, [ServerTicks(now)] + events);
            && who < |s'.clients| && s'.pending == []
            && var c' := s'.clients[who];
               && c'.asked == s.clients[who].asked && c'.offered == s.clients[who].offered
               && c'.near.got == c'.far.sent && c'.far.end.unacked == map[]
               && |c'.past| == |c'.far.sent|
               && Lane(c'.near.got, c'.past, false) == Sendable(c'.asked, s.maxPayload)
  {
    hide Linked, OnTheWay, SystemOk, LanesOk, QueueOk, Lane, Sendable, Ticking, PeerIsGone, AllDue;
    var c := s.clients[who];
    FollowedIsLinked(s, who);
    E.StepKeeps(s, ServerTicks(now));
    TickGoesOut(c.far, c.near, now);
    One(s, ServerTicks(now));
    var s1 := E.Step(s, ServerTicks(now));
    events := EverythingQueuedCanArrive(s1, who, now);
    Join(s, [ServerTicks(now)], events);
  }
}
