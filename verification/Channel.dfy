// Two reliable ends joined by a network that loses, duplicates and reorders.
//
// A side carries, beside its `End`, what happened: the messages it sent and
// delivered as unbounded sequences, how often each message was put on the wire,
// and every frame it ever built. A frame once built may be delivered any number
// of times, in any order, or never.

module Channel {
  import opened Basics
  import opened Seq
  import opened Wire
  import opened Reliable

  // A built frame with the counters its wrapped fields stand for.
  datatype Packet = Packet(frame: Frame, index: int, gotThen: nat)

  datatype Side = Side(
    end: End,
    base: nat,           // messages of `sent` before this one have been retired
    sent: seq<Bytes>,
    got: seq<Bytes>,
    times: seq<nat>,     // transmissions of each message of `sent`
    net: set<Packet>)

  function NewSide(maxPayload: nat, epoch: Epoch): Side {
    Side(Fresh(maxPayload, epoch), 0, [], [], [], {})
  }

  // How old a frame may be and still arrive: its payload by what `to` has
  // delivered since that message, its ack by what `to` has sent since it was built.
  predicate Deliverable(from: Side, to: Side, p: Packet) {
    && p in from.net
    && (p.frame.payload.Some? ==> |to.got| - p.index <= SPAN - WINDOW)
    && |to.sent| - p.gotThen < HALF
  }

  // ---- steps ---------------------------------------------------------------

  function Tag(a: Side, f: Frame): Packet {
    Packet(f, Ahead(f.seqNo, a.base), |a.got|)
  }

  function Transmit(a: Side, frames: seq<Frame>): Side {
    a.(net := a.net + set f | f in frames :: Tag(a, f))
  }

  predicate CanSend(a: Side, message: Bytes) {
    SendError(a.end, message).None?
  }

  function Sending(a: Side, message: Bytes, now: nat): Side {
    var after := a.(end := AfterSend(a.end, message, now), sent := a.sent + [message], times := a.times + [1]);
    Transmit(after, [SendFrame(a.end, message)])
  }

  function Counted(a: Side, now: nat): seq<nat> {
    seq(|a.times|, i requires 0 <= i < |a.times| =>
      if Wrap(i) in a.end.unacked && i >= a.base && Due(a.end.unacked[Wrap(i)], now)
      then a.times[i] + 1 else a.times[i])
  }

  function Ticking(a: Side, now: nat): Side {
    Transmit(a, TickFrames(a.end, now)).(end := AfterTick(a.end, now), times := Counted(a, now))
  }

  function TakingAck(a: Side): Side {
    if a.end.ackPending then Transmit(a, [BareAck(a.end)]).(end := a.end.(ackPending := false)) else a
  }

  function Receiving(a: Side, p: Packet): Side {
    var (end, ready) := OnFrame(a.end, p.frame);
    if Classify(a.end.peerEpoch, p.frame.epoch).Stale? then a
    else a.(end := end, got := a.got + ready, base := Later(a.base, p.gotThen))
  }

  // ---- the invariant -------------------------------------------------------

  function AckOf(received: nat): Option<Seq16> {
    if received == 0 then None else Some(Wrap(received - 1))
  }

  // Exactly the counters in [lo, hi) are present under their wrapped names.
  ghost predicate Holds<V>(m: map<Seq16, V>, lo: int, hi: int) {
    forall s: Seq16 :: s in m <==> Ahead(s, lo) < hi
  }

  ghost predicate EntryOk(unacked: map<Seq16, Outstanding>, base: nat, sent: seq<Bytes>, times: seq<nat>, s: Seq16) {
    var i := Ahead(s, base);
    && i < |sent| && i < |times|
    && s in unacked
    && unacked[s].frame.seqNo == s
    && unacked[s].frame.payload == Some(sent[i])
    && unacked[s].attempts < MAX_ATTEMPTS
    && times[i] == unacked[s].attempts + 1
  }

  // The retransmit table is the run [base, |sent|) of at most WINDOW messages.
  ghost predicate TableOk(unacked: map<Seq16, Outstanding>, base: nat, sent: seq<Bytes>, times: seq<nat>) {
    && base <= |sent| <= base + WINDOW
    && |times| == |sent|
    && (forall i :: 0 <= i < |times| ==> 1 <= times[i] <= MAX_ATTEMPTS)
    && Holds(unacked, base, |sent|)
    && forall s :: s in unacked ==> EntryOk(unacked, base, sent, times, s)
  }

  ghost predicate PacketOk(epoch: Epoch, sent: seq<Bytes>, got: nat, p: Packet) {
    && p.frame.epoch == epoch
    && p.gotThen <= got
    && p.frame.ack == Wrap(p.gotThen - 1)
    && (p.frame.payload.Some? ==>
          && 0 <= p.index < |sent|
          && p.frame.seqNo == Wrap(p.index)
          && p.frame.payload.value == sent[p.index])
  }

  ghost predicate PacketsOk(net: set<Packet>, epoch: Epoch, sent: seq<Bytes>, got: nat) {
    forall p :: p in net ==> PacketOk(epoch, sent, got, p)
  }

  // `sent` is what the peer numbers from; `received` of it has been delivered.
  ghost predicate HeldOk(early: map<Seq16, Bytes>, received: nat, sent: seq<Bytes>) {
    forall s: Seq16 :: s in early ==> HeldEntry(early, received, sent, s)
  }

  ghost predicate HeldEntry(early: map<Seq16, Bytes>, received: nat, sent: seq<Bytes>, s: Seq16)
    requires s in early
  {
    var i := Ahead(s, received);
    i < |sent| && early[s] == sent[i]
  }

  // What holds of `a` on its own.
  ghost predicate SideOk(a: Side) {
    && TableOk(a.end.unacked, a.base, a.sent, a.times)
    && a.end.nextSeq == Wrap(|a.sent|)
    && a.end.ack == AckOf(|a.got|)
    && PacketsOk(a.net, a.end.epoch, a.sent, |a.got|)
  }

  // What `b` has taken of what `a` sent.
  ghost predicate FlowOk(a: Side, b: Side) {
    && a.base <= |b.got| <= |a.sent|
    && b.got == a.sent[..|b.got|]
    && HeldOk(b.end.early, |b.got|, a.sent)
    && Wrap(|b.got|) !in b.end.early
    && b.end.peerEpoch in {None, Some(a.end.epoch)}
  }

  ghost predicate Linked(a: Side, b: Side) {
    SideOk(a) && SideOk(b) && FlowOk(a, b) && FlowOk(b, a)
  }

  lemma LinkedIsSymmetric(a: Side, b: Side)
    ensures Linked(a, b) <==> Linked(b, a)
  {
  }

  lemma LinkedDelivers(a: Side, b: Side)
    requires Linked(a, b)
    ensures b.got <= a.sent && a.got <= b.sent
  {
  }

  lemma FreshIsLinked(maxA: nat, epochA: Epoch, maxB: nat, epochB: Epoch)
    ensures Linked(NewSide(maxA, epochA), NewSide(maxB, epochB))
  {
  }

  // ---- window bookkeeping --------------------------------------------------

  lemma {:induction false} WindowSize<V>(m: map<Seq16, V>, lo: int, hi: int)
    requires lo <= hi <= lo + SPAN && Holds(m, lo, hi)
    ensures |m| == hi - lo
    decreases hi - lo
  {
    if lo == hi {
      assert m.Keys == {};
    } else {
      var last := Wrap(hi - 1);
      AheadOfWrap(hi - 1, lo);
      assert last in m;
      var rest := m - {last};
      forall s: Seq16 ensures s in rest <==> Ahead(s, lo) < hi - 1 {
        WrapOfAhead(s, lo);
      }
      WindowSize(rest, lo, hi - 1);
      Shrinks(m, last);
    }
  }

  lemma PacketIsOk(a: Side, p: Packet)
    requires SideOk(a) && p in a.net
    ensures PacketOk(a.end.epoch, a.sent, |a.got|, p)
  {
  }

  // ---- sending -------------------------------------------------------------

  lemma SendKeepsEntry(
      unacked: map<Seq16, Outstanding>, base: nat, sent: seq<Bytes>, times: seq<nat>,
      message: Bytes, o: Outstanding, s: Seq16)
    requires base <= |sent| < base + WINDOW && |times| == |sent|
    requires Holds(unacked, base, |sent|)
    requires s in unacked ==> EntryOk(unacked, base, sent, times, s)
    requires o.frame.seqNo == Wrap(|sent|) && o.frame.payload == Some(message) && o.attempts == 0
    ensures s in unacked[Wrap(|sent|) := o] <==> Ahead(s, base) < |sent| + 1
    ensures s in unacked[Wrap(|sent|) := o] ==>
              EntryOk(unacked[Wrap(|sent|) := o], base, sent + [message], times + [1], s)
  {
    WrapOfAhead(s, base);
    AheadOfWrap(|sent|, base);
  }

  lemma SendKeepsTable(
      unacked: map<Seq16, Outstanding>, base: nat, sent: seq<Bytes>, times: seq<nat>,
      message: Bytes, o: Outstanding)
    requires TableOk(unacked, base, sent, times) && |unacked| < WINDOW
    requires o.frame.seqNo == Wrap(|sent|) && o.frame.payload == Some(message) && o.attempts == 0
    ensures |sent| < base + WINDOW
    ensures TableOk(unacked[Wrap(|sent|) := o], base, sent + [message], times + [1])
  {
    WindowSize(unacked, base, |sent|);
    forall s: Seq16
      ensures s in unacked[Wrap(|sent|) := o] <==> Ahead(s, base) < |sent| + 1
      ensures s in unacked[Wrap(|sent|) := o] ==>
                EntryOk(unacked[Wrap(|sent|) := o], base, sent + [message], times + [1], s)
    {
      SendKeepsEntry(unacked, base, sent, times, message, o, s);
    }
  }

  // Old frames stay what they were as the counters grow.
  lemma PacketsStay(net: set<Packet>, epoch: Epoch, sent: seq<Bytes>, got: nat, sent': seq<Bytes>, got': nat)
    requires PacketsOk(net, epoch, sent, got) && sent <= sent' && got <= got'
    ensures PacketsOk(net, epoch, sent', got')
  {
    forall p | p in net ensures PacketOk(epoch, sent', got', p) {
      assert PacketOk(epoch, sent, got, p);
    }
  }

  lemma SendKeepsPackets(a: Side, message: Bytes, now: nat)
    requires SideOk(a) && a.base <= |a.sent| < a.base + WINDOW
    ensures PacketsOk(Sending(a, message, now).net, a.end.epoch, a.sent + [message], |a.got|)
  {
    hide TableOk;
    PacketsStay(a.net, a.end.epoch, a.sent, |a.got|, a.sent + [message], |a.got|);
    AheadOfWrap(|a.sent|, a.base);
    forall p | p in Sending(a, message, now).net && p !in a.net
      ensures PacketOk(a.end.epoch, a.sent + [message], |a.got|, p)
    {
      assert p == Packet(SendFrame(a.end, message), |a.sent|, |a.got|);
    }
  }

  lemma SendKeeps(a: Side, b: Side, message: Bytes, now: nat)
    requires Linked(a, b) && CanSend(a, message)
    ensures Linked(Sending(a, message, now), b)
  {
    hide TableOk, PacketsOk, HeldOk;
    SendKeepsTable(a.end.unacked, a.base, a.sent, a.times, message, Outstanding(SendFrame(a.end, message), now, 0));
    WindowIsNarrow(a);
    SendKeepsPackets(a, message, now);
    NextIsSuccessor(|a.sent|);
    var after := Sending(a, message, now);
    assert after.sent[..|b.got|] == a.sent[..|b.got|];
    HeldStays(b.end.early, |b.got|, a.sent, message);
  }

  lemma HeldStays(early: map<Seq16, Bytes>, received: nat, sent: seq<Bytes>, message: Bytes)
    requires HeldOk(early, received, sent)
    ensures HeldOk(early, received, sent + [message])
  {
    forall s: Seq16 | s in early ensures HeldEntry(early, received, sent + [message], s) {
      assert HeldEntry(early, received, sent, s);
    }
  }

  // ---- ticking -------------------------------------------------------------

  lemma ResendIsOk(a: Side, now: nat, s: Seq16)
    requires SideOk(a) && s in a.end.unacked
    ensures PacketOk(a.end.epoch, a.sent, |a.got|, Tag(a, Resend(a.end, a.end.unacked[s], now).frame))
  {
    hide PacketsOk;
    assert EntryOk(a.end.unacked, a.base, a.sent, a.times, s);
    WrapOfAhead(s, a.base);
  }

  lemma TickKeepsPackets(a: Side, now: nat)
    requires SideOk(a)
    ensures PacketsOk(Ticking(a, now).net, a.end.epoch, a.sent, |a.got|)
  {
    hide TableOk;
    forall p | p in Ticking(a, now).net && p !in a.net ensures PacketOk(a.end.epoch, a.sent, |a.got|, p) {
      var f :| f in TickFrames(a.end, now) && p == Tag(a, f);
      if !OwesBareAck(a.end, now) {
        ResentAreTheDue(a.end, now, SPAN, f);
        var s :| s in a.end.unacked && f == Resend(a.end, a.end.unacked[s], now).frame;
        ResendIsOk(a, now, s);
      }
    }
  }

  lemma TickKeepsTable(a: Side, now: nat)
    requires SideOk(a) && !PeerIsGone(a.end, now)
    ensures TableOk(Refreshed(a.end, now), a.base, a.sent, Counted(a, now))
  {
    hide PacketsOk;
    var unacked, times := Refreshed(a.end, now), Counted(a, now);
    forall s | s in unacked ensures EntryOk(unacked, a.base, a.sent, times, s) {
      assert EntryOk(a.end.unacked, a.base, a.sent, a.times, s);
      WrapOfAhead(s, a.base);
    }
    forall i | 0 <= i < |times| ensures 1 <= times[i] <= MAX_ATTEMPTS {
      if times[i] != a.times[i] {
        AheadOfWrap(i, a.base);
        assert EntryOk(a.end.unacked, a.base, a.sent, a.times, Wrap(i));
      }
    }
  }

  lemma TickKeeps(a: Side, b: Side, now: nat)
    requires Linked(a, b) && !PeerIsGone(a.end, now)
    ensures Linked(Ticking(a, now), b)
  {
    hide TableOk, PacketsOk, HeldOk;
    TickKeepsPackets(a, now);
    TickKeepsTable(a, now);
  }

  lemma TakeAckKeeps(a: Side, b: Side)
    requires Linked(a, b)
    ensures Linked(TakingAck(a), b)
  {
    hide TableOk, HeldOk;
  }

  // ---- receiving: what the ack retires --------------------------------------

  function Later(base: nat, gotThen: nat): nat {
    if gotThen > base then gotThen else base
  }

  /**
   * What an ack of `acked` messages does to message `i`, however old the ack: it
   * leaves it just if `i` is fewer than HALF - 1 past `acked`, the laps aside. So
   * of the messages not yet delivered it retires those HALF - 1 or more past it.
   */
  lemma AckTells(i: int, acked: nat)
    ensures IsNewerThan(Wrap(i), AckField(AckOf(acked))) <==> (i - acked) % SPAN < HALF - 1
  {
    LapsAside(i, acked - 1);
    LapsAside(i, acked);
  }

  lemma LapsAside(a: int, b: int)
    ensures (Wrap(a) - Wrap(b)) % SPAN == (a - b) % SPAN
    ensures (a - b + 1) % SPAN == if (a - b) % SPAN == SPAN - 1 then 0 else (a - b) % SPAN + 1
  {
  }

  // One entry: an ack of `acked` messages retires it just if it is one of them.
  lemma RetireOne(s: Seq16, base: nat, sent: nat, acked: nat)
    requires base <= sent <= base + WINDOW
    requires sent - HALF < acked <= sent
    ensures Ahead(s, base) < sent && IsNewerThan(s, Wrap(acked - 1)) <==> Ahead(s, Later(base, acked)) < sent
    ensures Ahead(s, Later(base, acked)) < sent ==> Ahead(s, Later(base, acked)) == Ahead(s, base)
  {
    var i := Ahead(s, base);
    WrapOfAhead(s, base);
    WrapOfAhead(s, Later(base, acked));
    if i < sent {
      AckTells(i, acked);
      if i >= acked {
        AheadOfWrap(i, Later(base, acked));
      }
    }
    if Ahead(s, Later(base, acked)) < sent {
      AheadOfWrap(Ahead(s, Later(base, acked)), base);
    }
  }

  // An ack is cumulative: what is left is the run after it.
  lemma RetireKeepsTable(unacked: map<Seq16, Outstanding>, base: nat, sent: seq<Bytes>, times: seq<nat>, acked: nat)
    requires TableOk(unacked, base, sent, times)
    requires |sent| - HALF < acked <= |sent|
    ensures TableOk(Retire(unacked, Wrap(acked - 1)), Later(base, acked), sent, times)
  {
    var left, base' := Retire(unacked, Wrap(acked - 1)), Later(base, acked);
    forall s: Seq16
      ensures s in left <==> Ahead(s, base') < |sent|
      ensures s in left ==> EntryOk(left, base', sent, times, s)
    {
      RetireOne(s, base, |sent|, acked);
      assert s in unacked ==> EntryOk(unacked, base, sent, times, s);
    }
  }

  // ---- receiving: what the payload delivers ---------------------------------

  ghost predicate DeliversFrom(received: nat, sent: seq<Bytes>, d: Drained) {
    var after := received + |d.ready|;
    && after <= |sent|
    && d.ready == sent[received..after]
    && d.ack == AckOf(after)
    && HeldOk(d.early, after, sent)
    && Wrap(after) !in d.early
  }

  lemma WantIsNext(received: nat)
    ensures Want(AckOf(received)) == Wrap(received)
  {
    if received > 0 {
      NextIsSuccessor(received - 1);
    }
  }

  lemma {:induction false} DrainDelivers(received: nat, early: map<Seq16, Bytes>, sent: seq<Bytes>)
    requires received <= |sent| && HeldOk(early, received, sent)
    ensures DeliversFrom(received, sent, Drain(AckOf(received), early))
    decreases |early|
  {
    var want := Wrap(received);
    WantIsNext(received);
    if want in early {
      assert HeldEntry(early, received, sent, want);
      AheadOfWrap(received, received);
      Shrinks(early, want);
      RestIsHeld(received, early, sent);
      DrainDelivers(received + 1, early - {want}, sent);
      DeliveredFirst(received, sent, Drain(AckOf(received + 1), early - {want}), early[want]);
    }
  }

  lemma DeliveredFirst(received: nat, sent: seq<Bytes>, d: Drained, first: Bytes)
    requires received < |sent| && sent[received] == first
    requires DeliversFrom(received + 1, sent, d)
    ensures DeliversFrom(received, sent, d.(ready := [first] + d.ready))
  {
    var after := received + 1 + |d.ready|;
    assert sent[received..after] == [first] + sent[received + 1..after];
  }

  lemma RestIsHeld(received: nat, early: map<Seq16, Bytes>, sent: seq<Bytes>)
    requires HeldOk(early, received, sent)
    ensures HeldOk(early - {Wrap(received)}, received + 1, sent)
  {
    var rest := early - {Wrap(received)};
    forall s: Seq16 | s in rest ensures HeldEntry(rest, received + 1, sent, s) {
      assert HeldEntry(early, received, sent, s);
      WrapOfAhead(s, received);
      AheadOfWrap(Ahead(s, received), received + 1);
    }
  }

  /**
   * Which payloads are taken, however old: those whose number is fewer than
   * WINDOW past what was delivered, the laps aside, and not held already; before
   * anything was delivered also those in the half of the space behind zero.
   */
  lemma PayloadIsTaken(e: End, got: nat, index: int)
    requires e.ack == AckOf(got)
    ensures var ahead := (index - got) % SPAN;
            !Refused(e, Wrap(index))
            <==> Wrap(index) !in e.early && (ahead < WINDOW || (got == 0 && ahead >= HALF))
  {
    WantIsNext(got);
    LapsAside(index, got);
    if got > 0 {
      LapsAside(index, got - 1);
    }
    hide Wrap, Want;
  }

  // A deliverable payload is judged by its unbounded number.
  lemma ArrivalIsPlaced(a: Side, b: Side, p: Packet)
    requires Linked(a, b) && Deliverable(a, b, p) && p.frame.payload.Some?
    ensures 0 <= p.index < |a.sent|
    ensures p.frame.seqNo == Wrap(p.index) && p.frame.payload.value == a.sent[p.index]
    ensures !Refused(b.end, p.frame.seqNo) ==> Ahead(p.frame.seqNo, |b.got|) == p.index
  {
    hide TableOk, PacketsOk, HeldOk, Refused, Wrap;
    PacketIsOk(a, p);
    WindowIsNarrow(a);
    PayloadIsTaken(b.end, |b.got|, p.index);
    if p.index >= |b.got| {
      AheadOfWrap(p.index, |b.got|);
    }
  }

  lemma NewlyHeld(received: nat, early: map<Seq16, Bytes>, sent: seq<Bytes>, index: nat)
    requires HeldOk(early, received, sent)
    requires index < |sent| && Ahead(Wrap(index), received) == index
    ensures HeldOk(early[Wrap(index) := sent[index]], received, sent)
  {
    var after := early[Wrap(index) := sent[index]];
    forall s: Seq16 | s in after ensures HeldEntry(after, received, sent, s) {
      if s != Wrap(index) {
        assert HeldEntry(early, received, sent, s);
      }
    }
  }

  lemma AcceptDelivers(a: Side, b: Side, p: Packet, e: End)
    requires Linked(a, b) && Deliverable(a, b, p) && p.frame.payload.Some?
    requires e.ack == b.end.ack && e.early == b.end.early
    ensures var (end, ready) := Accept(e, p.frame.seqNo, p.frame.payload.value);
            && end == e.(ack := end.ack, early := end.early)
            && DeliversFrom(|b.got|, a.sent, Drained(end.ack, end.early, ready))
  {
    hide TableOk, PacketsOk, HeldOk;
    ArrivalIsPlaced(a, b, p);
    if !Refused(e, p.frame.seqNo) {
      NewlyHeld(|b.got|, b.end.early, a.sent, p.index);
      DrainDelivers(|b.got|, b.end.early[p.frame.seqNo := p.frame.payload.value], a.sent);
    }
  }

  lemma DeliveryExtendsThePrefix(b: seq<Bytes>, sent: seq<Bytes>, d: Drained)
    requires |b| <= |sent| && b == sent[..|b|] && DeliversFrom(|b|, sent, d)
    ensures var got := b + d.ready; |got| <= |sent| && got == sent[..|got|]
  {
    assert sent[..|b| + |d.ready|] == sent[..|b|] + sent[|b|..|b| + |d.ready|];
  }

  // The receiving half: what is delivered extends the prefix.
  lemma ReceiveKeepsFlow(a: Side, b: Side, p: Packet)
    requires Linked(a, b) && Deliverable(b, a, p)
    ensures FlowOk(b, Receiving(a, p))
    ensures Receiving(a, p).end.ack == AckOf(|Receiving(a, p).got|)
    ensures Receiving(a, p).end.unacked == Retire(a.end.unacked, Wrap(p.gotThen - 1))
    ensures a.got <= Receiving(a, p).got && p.gotThen <= |b.got| && |a.sent| - p.gotThen < HALF
  {
    hide TableOk, PacketsOk, HeldOk;
    PacketIsOk(b, p);
    var retired := Adopt(a.end, p.frame.epoch).(unacked := Retire(a.end.unacked, p.frame.ack));
    if p.frame.payload.Some? {
      LinkedIsSymmetric(a, b);
      AcceptDelivers(b, a, p, retired.(ackPending := true));
      var (end, ready) := Accept(retired.(ackPending := true), p.frame.seqNo, p.frame.payload.value);
      DeliveryExtendsThePrefix(a.got, b.sent, Drained(end.ack, end.early, ready));
    }
  }

  lemma ReceiveKeepsSide(a: Side, b: Side, p: Packet)
    requires SideOk(a) && |a.sent| - WINDOW <= a.base <= |b.got| <= |a.sent|
    requires p.gotThen <= |b.got| && |a.sent| < p.gotThen + HALF
    requires a.got <= Receiving(a, p).got
    requires Receiving(a, p).end.ack == AckOf(|Receiving(a, p).got|)
    requires Receiving(a, p).end.unacked == Retire(a.end.unacked, Wrap(p.gotThen - 1))
    ensures SideOk(Receiving(a, p)) && a.base <= Receiving(a, p).base <= |b.got|
  {
    hide TableOk, PacketsOk;
    RetireKeepsTable(a.end.unacked, a.base, a.sent, a.times, p.gotThen);
    PacketsStay(a.net, a.end.epoch, a.sent, |a.got|, a.sent, |Receiving(a, p).got|);
  }

  lemma ReceiveKeeps(a: Side, b: Side, p: Packet)
    requires Linked(a, b) && Deliverable(b, a, p)
    ensures Linked(Receiving(a, p), b)
    ensures a.got <= Receiving(a, p).got && a.base <= Receiving(a, p).base
  {
    hide TableOk, PacketsOk, HeldOk;
    ReceiveKeepsFlow(a, b, p);
    WindowIsNarrow(a);
    ReceiveKeepsSide(a, b, p);
  }

  lemma WindowIsNarrow(a: Side)
    requires SideOk(a)
    ensures a.base <= |a.sent| <= a.base + WINDOW
  {
  }

  // ---- acts ----------------------------------------------------------------

  datatype Act = Send(message: Bytes, now: nat) | Tick(now: nat) | TakeAck | Receive(packet: Packet)

  // A tick that finds the peer gone ends the channel, so it is no step of a run.
  ghost predicate Enabled(a: Side, b: Side, act: Act) {
    match act
    case Send(message, _) => CanSend(a, message)
    case Tick(now) => !PeerIsGone(a.end, now)
    case TakeAck => true
    case Receive(p) => Deliverable(b, a, p)
  }

  function Do(a: Side, act: Act): Side {
    match act
    case Send(message, now) => Sending(a, message, now)
    case Tick(now) => Ticking(a, now)
    case TakeAck => TakingAck(a)
    case Receive(p) => Receiving(a, p)
  }

  lemma ActKeeps(a: Side, b: Side, act: Act)
    requires Linked(a, b) && Enabled(a, b, act)
    ensures Linked(Do(a, act), b)
    ensures a.sent <= Do(a, act).sent && a.got <= Do(a, act).got && a.base <= Do(a, act).base
    ensures Do(a, act).end.epoch == a.end.epoch && Do(a, act).end.maxPayload == a.end.maxPayload
  {
    match act
    case Send(message, now) => SendKeeps(a, b, message, now);
    case Tick(now) => TickKeeps(a, b, now);
    case TakeAck => TakeAckKeeps(a, b);
    case Receive(p) => ReceiveKeeps(a, b, p);
  }

  // ---- what goes on the wire ---------------------------------------------------

  function Emitted(a: Side, act: Act): seq<Frame> {
    match act
    case Send(message, _) => [SendFrame(a.end, message)]
    case Tick(now) => TickFrames(a.end, now)
    case TakeAck => if a.end.ackPending then [BareAck(a.end)] else []
    case Receive(_) => []
  }

  // How many of these frames carry message `i`.
  function Carrying(a: Side, frames: seq<Frame>, i: int): nat {
    if frames == [] then 0
    else
      var rest, last := frames[..|frames| - 1], frames[|frames| - 1];
      Carrying(a, rest, i) + if last.payload.Some? && Tag(a, last).index == i then 1 else 0
  }

  lemma CarryingOneMore(a: Side, frames: seq<Frame>, last: Frame, i: int)
    ensures Carrying(a, frames + [last], i)
            == Carrying(a, frames, i) + if last.payload.Some? && Tag(a, last).index == i then 1 else 0
    ensures Carrying(a, [last], i) == if last.payload.Some? && Tag(a, last).index == i then 1 else 0
  {
    assert (frames + [last])[..|frames|] == frames;
    assert [last][..0] == [];
  }

  // Of the entries below `bound`, just the one of message `i` carries it, if due.
  lemma {:induction false} ResentCarry(a: Side, now: nat, bound: nat, i: nat)
    requires SideOk(a) && bound <= SPAN && i < |a.sent|
    ensures var s := Wrap(i);
            Carrying(a, Resent(a.end, now, bound), i)
            == if s < bound && s in a.end.unacked && i >= a.base && Due(a.end.unacked[s], now) then 1 else 0
    decreases bound
  {
    hide PacketsOk, TableOk, Carrying, Due;
    if bound > 0 {
      ResentCarry(a, now, bound - 1, i);
      var k: Seq16 := bound - 1;
      if k in a.end.unacked && Due(a.end.unacked[k], now) {
        CarryingOneMore(a, Resent(a.end, now, bound - 1), Resend(a.end, a.end.unacked[k], now).frame, i);
        EntryIsItsMessage(a, k, i);
      }
    } else {
      assert Carrying(a, [], i) == 0 by { NoneCarried(a, i); }
    }
  }

  lemma NoneCarried(a: Side, i: int)
    ensures Carrying(a, [], i) == 0
  {
  }

  lemma EntryIsItsMessage(a: Side, k: Seq16, i: nat)
    requires SideOk(a) && k in a.end.unacked && i < |a.sent|
    ensures a.end.unacked[k].frame.seqNo == k && a.end.unacked[k].frame.payload.Some?
    ensures Ahead(k, a.base) == i <==> k == Wrap(i) && i >= a.base
  {
    hide PacketsOk;
    assert EntryOk(a.end.unacked, a.base, a.sent, a.times, k);
    WrapOfAhead(k, a.base);
    if i >= a.base {
      AheadOfWrap(i, a.base);
    }
  }

  /**
   * `times` counts what is put on the wire: whatever an end does, each message's
   * count grows by the number of frames carrying it, and those frames are what
   * the network gains.
   */
  lemma TransmissionsAreCounted(a: Side, act: Act, i: nat)
    requires SideOk(a) && (act.Send? ==> CanSend(a, act.message)) && i < |Do(a, act).times|
    ensures Do(a, act).times[i] == (if i < |a.times| then a.times[i] else 0) + Carrying(a, Emitted(a, act), i)
    ensures act.Receive? || Do(a, act).net == a.net + set f | f in Emitted(a, act) :: Tag(a, f)
  {
    hide PacketsOk, TableOk, Carrying, Resent, Due;
    WindowIsNarrow(a);
    NoneCarried(a, i);
    match act {
      case Send(message, now) => {
        CarryingOneMore(a, [], SendFrame(a.end, message), i);
        AheadOfWrap(|a.sent|, a.base);
        TimesAreAll(a);
      }
      case Tick(now) => {
        CarryingOneMore(a, [], BareAck(a.end), i);
        TimesAreAll(a);
        ResentCarry(a, now, SPAN, i);
      }
      case TakeAck => CarryingOneMore(a, [], BareAck(a.end), i);
      case Receive(p) => {}
    }
  }

  lemma TimesAreAll(a: Side)
    requires SideOk(a)
    ensures |a.times| == |a.sent|
  {
  }

  // ---- whole runs ----------------------------------------------------------------

  datatype Link = Link(left: Side, right: Side)
  datatype Event = AtLeft(act: Act) | AtRight(act: Act)

  function Step(l: Link, event: Event): Link {
    match event
    case AtLeft(act) => l.(left := Do(l.left, act))
    case AtRight(act) => l.(right := Do(l.right, act))
  }

  ghost predicate Possible(l: Link, event: Event) {
    match event
    case AtLeft(act) => Enabled(l.left, l.right, act)
    case AtRight(act) => Enabled(l.right, l.left, act)
  }

  ghost predicate IsRun(l: Link, events: seq<Event>)
    decreases |events|
  {
    events == [] || (Possible(l, events[0]) && IsRun(Step(l, events[0]), events[1..]))
  }

  function After(l: Link, events: seq<Event>): Link
    decreases |events|
  {
    if events == [] then l else After(Step(l, events[0]), events[1..])
  }

  lemma {:induction false} RunKeeps(l: Link, events: seq<Event>)
    requires Linked(l.left, l.right) && IsRun(l, events)
    ensures Linked(After(l, events).left, After(l, events).right)
    decreases |events|
  {
    if events != [] {
      match events[0] {
        case AtLeft(act) => ActKeeps(l.left, l.right, act);
        case AtRight(act) => ActKeeps(l.right, l.left, act);
      }
      RunKeeps(Step(l, events[0]), events[1..]);
    }
  }

  /** A channel is a FIFO: delivered is a prefix of sent, each way, at all times. */
  lemma EveryRunIsFifo(maxL: nat, epochL: Epoch, maxR: nat, epochR: Epoch, events: seq<Event>)
    requires IsRun(Link(NewSide(maxL, epochL), NewSide(maxR, epochR)), events)
    ensures var l := After(Link(NewSide(maxL, epochL), NewSide(maxR, epochR)), events);
            l.right.got <= l.left.sent && l.left.got <= l.right.sent
  {
    FreshIsLinked(maxL, epochL, maxR, epochR);
    RunKeeps(Link(NewSide(maxL, epochL), NewSide(maxR, epochR)), events);
  }

  /**
   * The sender's table is the run of at most WINDOW newest messages and lacks
   * only what the peer has delivered; what is held early lies strictly inside
   * the receive window; nothing is transmitted more than MAX_ATTEMPTS times.
   */
  lemma EveryRunKeepsItsWindows(l: Link, events: seq<Event>)
    requires Linked(l.left, l.right) && IsRun(l, events)
    ensures var e := After(l, events); WindowsHold(e.left, e.right) && WindowsHold(e.right, e.left)
  {
    RunKeeps(l, events);
    var e := After(l, events);
    LinkedWindows(e.left, e.right);
    LinkedWindows(e.right, e.left);
  }

  ghost predicate WindowsHold(a: Side, b: Side) {
    && |a.end.unacked| <= WINDOW
    && (forall i :: 0 <= |a.sent| - |a.end.unacked| <= i < |a.sent| ==>
          Wrap(i) in a.end.unacked && a.end.unacked[Wrap(i)].frame.payload == Some(a.sent[i]))
    && (forall i :: 0 <= i < |a.sent| - |a.end.unacked| ==> i < |b.got| && b.got[i] == a.sent[i])
    && (forall s: Seq16 :: s in b.end.early ==> 1 <= DistanceFrom(s, Want(b.end.ack)) < WINDOW)
    && |a.times| == |a.sent|
    && (forall i :: 0 <= i < |a.times| ==> a.times[i] <= MAX_ATTEMPTS)
  }

  lemma LinkedWindows(a: Side, b: Side)
    requires Linked(a, b)
    ensures WindowsHold(a, b)
  {
    WindowSize(a.end.unacked, a.base, |a.sent|);
    forall i | a.base <= i < |a.sent|
      ensures Wrap(i) in a.end.unacked && a.end.unacked[Wrap(i)].frame.payload == Some(a.sent[i])
    {
      AheadOfWrap(i, a.base);
      assert EntryOk(a.end.unacked, a.base, a.sent, a.times, Wrap(i));
    }
    HeldInWindow(a, b);
  }

  lemma HeldInWindow(a: Side, b: Side)
    requires FlowOk(a, b) && b.end.ack == AckOf(|b.got|) && |a.sent| <= a.base + WINDOW
    ensures forall s: Seq16 :: s in b.end.early ==> 1 <= DistanceFrom(s, Want(b.end.ack)) < WINDOW
  {
    WantIsNext(|b.got|);
    forall s: Seq16 | s in b.end.early ensures 1 <= DistanceFrom(s, Want(b.end.ack)) < WINDOW {
      assert HeldEntry(b.end.early, |b.got|, a.sent, s);
      WrapOfAhead(s, |b.got|);
      ModularOrder(Ahead(s, |b.got|), |b.got|);
    }
  }

  // ---- where the code's own boundaries lie -----------------------------------

  // Once something has been received, the holding area stays inside the window
  // whatever frames arrive, from any peer.
  lemma HoldingAreaIsBounded(e: End, f: Frame)
    requires e.ack.Some? && InWindow(e.early, e.ack)
    ensures var (after, _) := OnFrame(e, f);
            after.ack.Some? && InWindow(after.early, after.ack)
  {
    if !Classify(e.peerEpoch, f.epoch).Stale? && f.payload.Some? && !Refused(e, f.seqNo) {
      DrainStaysInWindow(e.ack, e.early[f.seqNo := f.payload.value]);
    }
  }

  ghost predicate InWindow(early: map<Seq16, Bytes>, ack: Option<Seq16>) {
    (forall s: Seq16 :: s in early ==> Ahead(s, Want(ack)) < Want(ack) + WINDOW) && Want(ack) !in early
  }

  lemma {:induction false} DrainStaysInWindow(ack: Option<Seq16>, early: map<Seq16, Bytes>)
    requires ack.Some? && forall s: Seq16 :: s in early ==> Ahead(s, Want(ack)) < Want(ack) + WINDOW
    ensures Drain(ack, early).ack.Some? && InWindow(Drain(ack, early).early, Drain(ack, early).ack)
    decreases |early|
  {
    var want := Want(ack);
    if want in early {
      Shrinks(early, want);
      forall s: Seq16 | s in early - {want} ensures Ahead(s, Next(want)) < Next(want) + WINDOW {
        OneCloser(s, want);
      }
      DrainStaysInWindow(Some(want), early - {want});
    }
  }

  lemma OneCloser(s: Seq16, want: Seq16)
    requires s != want
    ensures Ahead(s, Next(want)) - Next(want) == Ahead(s, want) - want - 1
  {
  }

  // Before anything is received that needs a peer that numbers from zero: a
  // sequence just behind zero is held.
  lemma FirstDeliveryTrustsThePeer(maxPayload: nat, epoch: Epoch, peer: Epoch, payload: Bytes)
    ensures 65530 in OnFrame(Fresh(maxPayload, epoch), Frame(65530, 0xFFFF, peer, Some(payload))).0.early
  {
    assert DistanceFrom(65530, Want(None)) == -6;
  }

  // One message older than deliverable, a payload is held for a message a lap on.
  lemma OneOlderPayloadIsHeldForAnother(e: End, got: nat, index: int, payload: Bytes)
    requires e.ack == AckOf(got) && SPAN - WINDOW < got - index < SPAN
    requires Wrap(index) !in e.early && Wrap(got) !in e.early
    ensures got < index + SPAN < got + WINDOW
    ensures Accept(e, Wrap(index), payload) == (e.(early := e.early[Wrap(index + SPAN) := payload]), [])
  {
    hide Refused, Wrap, IsNewerThan, DistanceFrom;
    ALapBack(got, index);
    PayloadIsTaken(e, got, index);
    WantIsNext(got);
    var early := e.early[Wrap(index) := payload];
    assert Drain(e.ack, early) == Drained(e.ack, early, []);
  }

  lemma ALapBack(got: nat, index: int)
    requires SPAN - WINDOW < got - index < SPAN
    ensures (index - got) % SPAN == index + SPAN - got < WINDOW
    ensures Wrap(index + SPAN) == Wrap(index) != Wrap(got)
  {
    assert index - got == -SPAN + (index + SPAN - got);
  }

  // One message older than deliverable, an ack retires a message not delivered.
  lemma OneOlderAckRetiresTheUndelivered(unacked: map<Seq16, Outstanding>, acked: nat)
    requires Wrap(acked + HALF - 1) in unacked
    ensures Wrap(acked + HALF - 1) !in Retire(unacked, AckField(AckOf(acked)))
  {
    AckTells(acked + HALF - 1, acked);
  }

  // Between two linked ends: that ack takes the newest message out of the table
  // although the peer has not delivered it, so it is never sent again.
  lemma OneOlderAckLosesAMessage(a: Side, b: Side, p: Packet)
    requires Linked(a, b) && p in b.net && p.frame.payload.None?
    requires |a.sent| - p.gotThen == HALF && |b.got| < |a.sent|
    ensures var newest := |a.sent| - 1;
            && |b.got| <= newest && Wrap(newest) in a.end.unacked
            && Wrap(newest) !in Receiving(a, p).end.unacked && Receiving(a, p).sent == a.sent
  {
    hide TableOk, PacketsOk, HeldOk, Wrap;
    PacketIsOk(b, p);
    WindowIsNarrow(a);
    NewestIsOutstanding(a);
    AckTells(|a.sent| - 1, p.gotThen);
    AckFieldIs(p.gotThen);
  }

  lemma AckFieldIs(acked: nat)
    ensures AckField(AckOf(acked)) == Wrap(acked - 1)
  {
  }

  lemma NewestIsOutstanding(a: Side)
    requires SideOk(a) && a.base < |a.sent|
    ensures Wrap(|a.sent| - 1) in a.end.unacked
  {
    AheadOfWrap(|a.sent| - 1, a.base);
  }

  // A frame one lap old is taken for the message now due.
  lemma BeyondTheLifetimeAFrameIsDeliveredAgain(b: Side, p: Packet, payload: Bytes)
    requires |b.got| == SPAN && b.end.ack == AckOf(|b.got|) && b.end.early == map[]
    requires p.index == 0 && p.frame == Frame(Wrap(0), 0xFFFF, 7, Some(payload))
    requires b.end.peerEpoch == Some(7)
    ensures Receiving(b, p).got == b.got + [payload]
  {
    var e := Adopt(b.end, 7).(unacked := Retire(b.end.unacked, 0xFFFF), ackPending := true);
    assert !Refused(e, 0);
    var early: map<Seq16, Bytes> := map[0 := payload];
    assert e.early[0 := payload] == early;
    assert Drain(e.ack, early) == Drained(Some(0), early - {0}, [payload]);
  }
}
