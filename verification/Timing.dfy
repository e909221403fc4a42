// When each message goes on the wire, and when an ack is owed, over whole runs of
// the reliable channel.

module Timing {
  import opened Basics
  import opened Seq
  import opened Wire
  import opened Reliable
  import opened Channel

  // One end as its wire shows it: `puts[i]` are the times message `i` went out;
  // `owes`, whether a payload came since it last sent a message or a bare ack.
  datatype Watched = Watched(side: Side, puts: seq<seq<nat>>, owes: bool, clock: nat)

  function Watching(maxPayload: nat, epoch: Epoch): Watched {
    Watched(NewSide(maxPayload, epoch), [], false, 0)
  }

  function Now(w: Watched, act: Act): nat {
    match act
    case Send(_, now) => now
    case Tick(now) => now
    case _ => w.clock
  }

  function Copies(n: nat, now: nat): seq<nat> {
    seq(n, k => now)
  }

  // The times as the frames put on the wire tell them.
  function Puts(w: Watched, act: Act): seq<seq<nat>> {
    var frames := Emitted(w.side, act);
    seq(|Do(w.side, act).sent|, i requires 0 <= i < |Do(w.side, act).sent| =>
      (if i < |w.puts| then w.puts[i] else []) + Copies(Carrying(w.side, frames, i), Now(w, act)))
  }

  ghost predicate BareAmong(frames: seq<Frame>) {
    exists f :: f in frames && f.payload.None?
  }

  ghost predicate Asks(w: Watched, act: Act) {
    && act.Receive? && act.packet.frame.payload.Some?
    && (w.side.end.peerEpoch.Some? ==> act.packet.frame.epoch >= w.side.end.peerEpoch.value)
  }

  ghost function Acted(w: Watched, act: Act): Watched {
    Watched(Do(w.side, act), Puts(w, act),
            if act.Send? || BareAmong(Emitted(w.side, act)) then false else w.owes || Asks(w, act),
            Now(w, act))
  }

  // ---- the invariant -------------------------------------------------------

  function Last(times: seq<nat>): nat
    requires times != []
  {
    times[|times| - 1]
  }

  // At most MAX_ATTEMPTS times, never twice within RETRANSMIT_MS.
  ghost predicate PutsOk(times: seq<nat>, clock: nat) {
    && 1 <= |times| <= MAX_ATTEMPTS && Last(times) <= clock
    && forall k :: 0 < k < |times| ==> times[k] - times[k - 1] >= RETRANSMIT_MS
  }

  ghost predicate EntryTimed(w: Watched, i: nat) {
    && i < |w.puts| && w.puts[i] != [] && Wrap(i) in w.side.end.unacked
    && w.side.end.unacked[Wrap(i)].sentAt == Last(w.puts[i])
    && w.side.end.unacked[Wrap(i)].attempts + 1 == |w.puts[i]|
  }

  ghost predicate WatchOk(w: Watched) {
    && |w.puts| == |w.side.sent|
    && (forall i :: 0 <= i < |w.puts| ==> PutsOk(w.puts[i], w.clock))
    && (forall i :: w.side.base <= i < |w.side.sent| ==> EntryTimed(w, i))
    && w.owes == w.side.end.ackPending
  }

  // ---- ticks ---------------------------------------------------------------

  lemma OutstandingIs(a: Side, i: nat)
    requires SideOk(a) && i < |a.sent|
    ensures a.base <= i ==> Wrap(i) in a.end.unacked && EntryOk(a.end.unacked, a.base, a.sent, a.times, Wrap(i))
    ensures a.base <= i ==> Ahead(Wrap(i), a.base) == i
  {
    if a.base <= i {
      AheadOfWrap(i, a.base);
    }
  }

  // Message `i` is outstanding and its entry due.
  predicate DueAt(a: Side, now: nat, i: nat) {
    i >= a.base && Wrap(i) in a.end.unacked && Due(a.end.unacked[Wrap(i)], now)
  }

  // A tick puts message `i` on the wire just if its entry is due.
  lemma TickCarries(a: Side, now: nat, i: nat)
    requires SideOk(a) && i < |a.sent|
    ensures Carrying(a, TickFrames(a.end, now), i) == if DueAt(a, now, i) then 1 else 0
  {
    hide SideOk, Carrying, Resent, Due;
    ResentCarry(a, now, SPAN, i);
    CarryingOneMore(a, [], BareAck(a.end), i);
    NoneCarried(a, i);
  }

  lemma TickPuts(w: Watched, b: Side, now: nat, i: nat)
    requires Linked(w.side, b) && WatchOk(w) && !PeerIsGone(w.side.end, now) && w.clock <= now && i < |w.side.sent|
    ensures i < |w.puts| && i < |Puts(w, Tick(now))|
    ensures PutsOk(Puts(w, Tick(now))[i], now)
    ensures w.side.base <= i ==>
              && Wrap(i) in w.side.end.unacked
              && Puts(w, Tick(now))[i]
                 == if Due(w.side.end.unacked[Wrap(i)], now) then w.puts[i] + [now] else w.puts[i]
  {
    hide PacketsOk, HeldOk, TableOk, Resent, Carrying, Wrap;
    LinkedSides(w.side, b);
    TickCarries(w.side, now, i);
    OutstandingIs(w.side, i);
    PutsAsMany(w, Tick(now));
    hide SideOk, Linked;
    assert PutsOk(w.puts[i], w.clock);
    assert w.side.base <= i ==> EntryTimed(w, i);
  }

  lemma TickTimes(w: Watched, b: Side, now: nat, i: nat)
    requires Linked(w.side, b) && WatchOk(w) && !PeerIsGone(w.side.end, now) && w.clock <= now && i < |w.side.sent|
    ensures PutsOk(Puts(w, Tick(now))[i], now)
    ensures w.side.base <= i ==> EntryTimed(Acted(w, Tick(now)), i)
  {
    TickPuts(w, b, now, i);
    PutsAsMany(w, Tick(now));
    LinkedSides(w.side, b);
    OutstandingIs(w.side, i);
    hide SideOk, Linked, Puts, Wrap, TickFrames, Resent, PutsOk;
    assert w.side.base <= i ==> EntryTimed(w, i);
  }

  lemma ResentHavePayloads(a: Side, now: nat, f: Frame)
    requires SideOk(a) && f in Resent(a.end, now, SPAN)
    ensures f.payload.Some?
  {
    hide PacketsOk, Resent;
    ResentAreTheDue(a.end, now, SPAN, f);
    var s :| s in a.end.unacked && f == Resend(a.end, a.end.unacked[s], now).frame;
    assert EntryOk(a.end.unacked, a.base, a.sent, a.times, s);
  }

  // Nothing is resent just if nothing outstanding is due.
  lemma NothingResent(a: Side, now: nat)
    requires SideOk(a)
    ensures Resent(a.end, now, SPAN) == [] <==> forall i: nat :: !(i < |a.sent| && DueAt(a, now, i))
  {
    hide PacketsOk, Resent, Wrap, Due;
    var frames := Resent(a.end, now, SPAN);
    if frames != [] {
      ResentAreTheDue(a.end, now, SPAN, frames[0]);
      var s :| s in a.end.unacked && Due(a.end.unacked[s], now)
               && frames[0] == Resend(a.end, a.end.unacked[s], now).frame;
      WrapOfAhead(s, a.base);
      assert EntryOk(a.end.unacked, a.base, a.sent, a.times, s);
      assert DueAt(a, now, Ahead(s, a.base));
    }
    forall i: nat | i < |a.sent| && DueAt(a, now, i)
      ensures frames != []
    {
      ResentAreTheDue(a.end, now, SPAN, Resend(a.end, a.end.unacked[Wrap(i)], now).frame);
    }
  }

  // A tick emits a bare ack just if one is owed and nothing was due.
  lemma TickBares(a: Side, now: nat)
    requires SideOk(a)
    ensures BareAmong(TickFrames(a.end, now)) <==> OwesBareAck(a.end, now)
    ensures OwesBareAck(a.end, now) ==> TickFrames(a.end, now) == [BareAck(a.end)]
  {
    hide SideOk, Resent;
    var frames := TickFrames(a.end, now);
    if OwesBareAck(a.end, now) {
      assert BareAck(a.end) in frames;
    } else if BareAmong(frames) {
      var f :| f in frames && f.payload.None?;
      ResentHavePayloads(a, now, f);
    }
  }

  // Whatever a tick emits acknowledges all that was delivered so far.
  lemma TickAcks(a: Side, now: nat, f: Frame)
    requires SideOk(a) && f in TickFrames(a.end, now)
    ensures f.ack == Wrap(|a.got| - 1) && f.epoch == a.end.epoch
  {
    AckFieldIs(|a.got|);
    hide TableOk, PacketsOk, Resent, AckField, Wrap;
    if !OwesBareAck(a.end, now) {
      ResentAreTheDue(a.end, now, SPAN, f);
    }
  }

  lemma BareIsNext(a: Side)
    requires SideOk(a)
    ensures BareAck(a.end).seqNo == Wrap(|a.sent|)
  {
  }

  lemma TickWatches(w: Watched, b: Side, now: nat)
    requires Linked(w.side, b) && WatchOk(w) && !PeerIsGone(w.side.end, now) && w.clock <= now
    ensures WatchOk(Acted(w, Tick(now)))
  {
    hide Linked, PutsOk, EntryTimed, Resent, Carrying;
    assert SideOk(w.side) by { LinkedSides(w.side, b); }
    TickBares(w.side, now);
    hide SideOk;
    forall i: nat | i < |w.side.sent|
      ensures PutsOk(Puts(w, Tick(now))[i], now)
      ensures w.side.base <= i ==> EntryTimed(Acted(w, Tick(now)), i)
    {
      TickTimes(w, b, now, i);
    }
  }

  lemma LinkedSides(a: Side, b: Side)
    requires Linked(a, b)
    ensures SideOk(a) && SideOk(b)
  {
  }

  // ---- the other acts --------------------------------------------------------

  lemma SendPuts(w: Watched, message: Bytes, now: nat, i: nat)
    requires SideOk(w.side) && WatchOk(w) && CanSend(w.side, message) && i <= |w.side.sent|
    ensures |Puts(w, Send(message, now))| == |w.side.sent| + 1
    ensures Puts(w, Send(message, now))[i] == if i < |w.side.sent| then w.puts[i] else [now]
    ensures w.side.base <= |w.side.sent| < w.side.base + WINDOW
  {
    hide PacketsOk, TableOk, Carrying, Wrap;
    var a := w.side;
    CarryingOneMore(a, [], SendFrame(a.end, message), i);
    WindowIsNarrow(a);
    TableHolds(a);
    WindowSize(a.end.unacked, a.base, |a.sent|);
    AheadOfWrap(|a.sent|, a.base);
  }

  lemma SendTimes(w: Watched, b: Side, message: Bytes, now: nat, i: nat)
    requires Linked(w.side, b) && WatchOk(w) && CanSend(w.side, message) && w.clock <= now && i <= |w.side.sent|
    ensures PutsOk(Puts(w, Send(message, now))[i], now)
    ensures w.side.base <= i ==> EntryTimed(Acted(w, Send(message, now)), i)
  {
    LinkedSides(w.side, b);
    SendPuts(w, message, now, i);
    hide Linked, SideOk, Puts, Wrap;
    if i < |w.side.sent| {
      assert PutsOk(w.puts[i], w.clock);
      assert w.side.base <= i ==> EntryTimed(w, i);
      if w.side.base <= i {
        WrapInjective(i, |w.side.sent|);
      }
    } else {
      NextIs(w.side);
    }
  }

  lemma NextIs(a: Side)
    requires SideOk(a)
    ensures a.end.nextSeq == Wrap(|a.sent|)
  {
  }

  lemma TableHolds(a: Side)
    requires SideOk(a)
    ensures Holds(a.end.unacked, a.base, |a.sent|)
  {
  }

  lemma SendWatches(w: Watched, b: Side, message: Bytes, now: nat)
    requires Linked(w.side, b) && WatchOk(w) && CanSend(w.side, message) && w.clock <= now
    ensures WatchOk(Acted(w, Send(message, now)))
  {
    hide Linked, PutsOk, EntryTimed, Carrying, Wrap;
    forall i: nat | i <= |w.side.sent|
      ensures PutsOk(Puts(w, Send(message, now))[i], now)
      ensures w.side.base <= i ==> EntryTimed(Acted(w, Send(message, now)), i)
    {
      SendTimes(w, b, message, now, i);
    }
  }

  // Taking the ack and hearing a frame put no message on the wire.
  lemma QuietPuts(w: Watched, act: Act, i: nat)
    requires act.TakeAck? || act.Receive?
    requires |w.puts| == |w.side.sent| && i < |w.side.sent|
    ensures |Puts(w, act)| == |w.puts| && Puts(w, act)[i] == w.puts[i]
  {
    hide Carrying, OnFrame;
    CarryingOneMore(w.side, [], BareAck(w.side.end), i);
    NoneCarried(w.side, i);
    assert w.puts[i] + Copies(0, Now(w, act)) == w.puts[i];
  }

  lemma TakeAckWatches(w: Watched)
    requires WatchOk(w)
    ensures WatchOk(Acted(w, TakeAck))
  {
    hide PutsOk, Puts, Wrap;
    var w' := Acted(w, TakeAck);
    PutsAsMany(w, TakeAck);
    forall i: nat | i < |w.side.sent|
      ensures w'.puts[i] == w.puts[i]
      ensures w.side.base <= i ==> EntryTimed(w', i)
    {
      QuietPuts(w, TakeAck, i);
      assert w.side.base <= i ==> EntryTimed(w, i);
    }
    assert w.side.end.ackPending ==> BareAck(w.side.end) in Emitted(w.side, TakeAck);
  }

  lemma PutsAsMany(w: Watched, act: Act)
    ensures |Puts(w, act)| == |Do(w.side, act).sent|
  {
  }

  // An ack leaves the entries it does not retire as they were.
  lemma ReceiveEntry(w: Watched, b: Side, p: Packet, i: nat)
    requires Linked(w.side, b) && WatchOk(w) && Deliverable(b, w.side, p)
    requires Receiving(w.side, p).base <= i < |w.side.sent|
    ensures EntryTimed(Acted(w, Receive(p)), i)
  {
    hide OnFrame, Puts;
    var a, a' := w.side, Receiving(w.side, p);
    QuietPuts(w, Receive(p), i);
    PutsAsMany(w, Receive(p));
    ReceiveKeeps(a, b, p);
    ReceiveKeepsFlow(a, b, p);
    LinkedSides(a', b);
    ReceivingSends(a, p);
    hide Linked, SideOk;
    OutstandingIs(a', i);
    assert EntryTimed(w, i);
  }

  lemma ReceivingSends(a: Side, p: Packet)
    ensures Receiving(a, p).sent == a.sent
  {
  }

  lemma ReceiveOwes(a: Side, p: Packet)
    ensures Receiving(a, p).end.ackPending
            == (a.end.ackPending
                || (p.frame.payload.Some? && (a.end.peerEpoch.Some? ==> p.frame.epoch >= a.end.peerEpoch.value)))
  {
    hide Drain, Refused, Retire;
  }

  lemma ReceiveWatches(w: Watched, b: Side, p: Packet)
    requires Linked(w.side, b) && WatchOk(w) && Deliverable(b, w.side, p)
    ensures WatchOk(Acted(w, Receive(p)))
  {
    hide Linked, PutsOk, EntryTimed, Receiving, Puts, Deliverable;
    var w' := Acted(w, Receive(p));
    ReceivingSends(w.side, p);
    ReceiveOwes(w.side, p);
    PutsAsMany(w, Receive(p));
    forall i: nat | i < |w.side.sent|
      ensures w'.puts[i] == w.puts[i]
      ensures w'.side.base <= i ==> EntryTimed(w', i)
    {
      QuietPuts(w, Receive(p), i);
      if w'.side.base <= i {
        ReceiveEntry(w, b, p, i);
      }
    }
    assert Emitted(w.side, Receive(p)) == [];
  }

  // ---- whole runs ------------------------------------------------------------

  datatype Pair = Pair(left: Watched, right: Watched)

  ghost predicate InTime(w: Watched, b: Side, act: Act) {
    Enabled(w.side, b, act) && w.clock <= Now(w, act)
  }

  ghost predicate Possible(p: Pair, event: Event) {
    match event
    case AtLeft(act) => InTime(p.left, p.right.side, act)
    case AtRight(act) => InTime(p.right, p.left.side, act)
  }

  ghost function Step(p: Pair, event: Event): Pair {
    match event
    case AtLeft(act) => p.(left := Acted(p.left, act))
    case AtRight(act) => p.(right := Acted(p.right, act))
  }

  ghost predicate IsRun(p: Pair, events: seq<Event>)
    decreases |events|
  {
    events == [] || (Possible(p, events[0]) && IsRun(Step(p, events[0]), events[1..]))
  }

  ghost function After(p: Pair, events: seq<Event>): Pair
    decreases |events|
  {
    if events == [] then p else After(Step(p, events[0]), events[1..])
  }

  lemma ActWatches(w: Watched, b: Side, act: Act)
    requires Linked(w.side, b) && WatchOk(w) && InTime(w, b, act)
    ensures WatchOk(Acted(w, act)) && Linked(Acted(w, act).side, b)
  {
    ActKeeps(w.side, b, act);
    hide Linked, WatchOk, Do, Puts, Deliverable;
    match act
    case Send(message, now) => SendWatches(w, b, message, now);
    case Tick(now) => TickWatches(w, b, now);
    case TakeAck => TakeAckWatches(w);
    case Receive(p) => ReceiveWatches(w, b, p);
  }

  ghost predicate PairOk(p: Pair) {
    && Linked(p.left.side, p.right.side) && Linked(p.right.side, p.left.side)
    && WatchOk(p.left) && WatchOk(p.right)
  }

  lemma StepWatches(p: Pair, event: Event)
    requires PairOk(p) && Possible(p, event)
    ensures PairOk(Step(p, event))
  {
    hide Linked, WatchOk, Acted, InTime;
    match event {
      case AtLeft(act) => {
        ActWatches(p.left, p.right.side, act);
        LinkedIsSymmetric(Acted(p.left, act).side, p.right.side);
      }
      case AtRight(act) => {
        ActWatches(p.right, p.left.side, act);
        LinkedIsSymmetric(Acted(p.right, act).side, p.left.side);
      }
    }
  }

  lemma {:induction false} RunWatches(p: Pair, events: seq<Event>)
    requires PairOk(p) && IsRun(p, events)
    ensures PairOk(After(p, events))
    decreases |events|
  {
    hide PairOk, Step, Possible;
    if events != [] {
      StepWatches(p, events[0]);
      RunWatches(Step(p, events[0]), events[1..]);
    }
  }

  // Message `i` is unacknowledged and was last put on the wire RETRANSMIT_MS ago
  // or more.
  ghost predicate Overdue(w: Watched, now: nat, i: nat) {
    && w.side.base <= i < |w.puts| && w.puts[i] != []
    && now - Last(w.puts[i]) >= RETRANSMIT_MS
  }

  // What a tick at `now` does, told from the times on the wire.
  ghost predicate GivesUpByTheWire(w: Watched, now: nat) {
    PeerIsGone(w.side.end, now) <==> exists i: nat :: Overdue(w, now, i) && |w.puts[i]| == MAX_ATTEMPTS
  }

  ghost predicate ResendsByTheWire(w: Watched, now: nat) {
    forall i: nat :: i < |w.side.sent| ==>
      Carrying(w.side, TickFrames(w.side.end, now), i) == if Overdue(w, now, i) then 1 else 0
  }

  ghost predicate AcksByTheWire(w: Watched, now: nat) {
    var frames := TickFrames(w.side.end, now);
    && (BareAmong(frames) <==> w.owes && forall i: nat :: !Overdue(w, now, i))
    && (BareAmong(frames) ==> |frames| == 1 && frames[0].seqNo == Wrap(|w.side.sent|))
    && forall f :: f in frames ==> f.ack == Wrap(|w.side.got| - 1) && f.epoch == w.side.end.epoch
  }

  ghost predicate TicksByTheWire(w: Watched, now: nat) {
    GivesUpByTheWire(w, now) && ResendsByTheWire(w, now) && AcksByTheWire(w, now)
  }

  lemma {:induction false} SpacedOut(times: seq<nat>, k: nat)
    requires k < |times| && forall j :: 0 < j < |times| ==> times[j] - times[j - 1] >= RETRANSMIT_MS
    ensures times[k] >= times[0] + k * RETRANSMIT_MS
  {
    if k > 0 {
      SpacedOut(times, k - 1);
    }
  }

  lemma DueIsOverdue(w: Watched, now: nat, i: nat)
    requires SideOk(w.side) && WatchOk(w) && i < |w.side.sent|
    ensures Overdue(w, now, i) <==> DueAt(w.side, now, i)
    ensures i >= w.side.base ==> Wrap(i) in w.side.end.unacked
                                 && w.side.end.unacked[Wrap(i)].attempts + 1 == |w.puts[i]|
  {
    hide PacketsOk, TableOk;
    assert PutsOk(w.puts[i], w.clock);
    assert w.side.base <= i ==> EntryTimed(w, i);
  }

  lemma GivingUpIsByTheWire(w: Watched, now: nat)
    requires SideOk(w.side) && WatchOk(w)
    ensures GivesUpByTheWire(w, now)
  {
    hide SideOk, Wrap, Due, WatchOk;
    PutsAreAll(w);
    var a := w.side;
    if PeerIsGone(a.end, now) {
      var s :| s in a.end.unacked && Exhausted(a.end.unacked[s], now);
      EntryIsOf(a, s);
      DueIsOverdue(w, now, Ahead(s, a.base));
      AttemptsAreFew(a, s);
      assert Overdue(w, now, Ahead(s, a.base));
    }
    if i: nat :| Overdue(w, now, i) && |w.puts[i]| == MAX_ATTEMPTS {
      DueIsOverdue(w, now, i);
      assert Exhausted(a.end.unacked[Wrap(i)], now);
    }
  }

  lemma AttemptsAreFew(a: Side, s: Seq16)
    requires SideOk(a) && s in a.end.unacked
    ensures a.end.unacked[s].attempts < MAX_ATTEMPTS
  {
    hide PacketsOk;
    assert EntryOk(a.end.unacked, a.base, a.sent, a.times, s);
  }

  lemma ResendingIsByTheWire(w: Watched, now: nat)
    requires SideOk(w.side) && WatchOk(w)
    ensures ResendsByTheWire(w, now)
  {
    hide SideOk, Wrap, Due, WatchOk, Overdue, Carrying, TickFrames;
    forall i: nat | i < |w.side.sent|
      ensures Carrying(w.side, TickFrames(w.side.end, now), i) == if Overdue(w, now, i) then 1 else 0
    {
      TickCarries(w.side, now, i);
      DueIsOverdue(w, now, i);
    }
  }

  lemma NobodyOverdue(w: Watched, now: nat)
    requires SideOk(w.side) && WatchOk(w)
    ensures Resent(w.side.end, now, SPAN) == [] <==> forall i: nat :: !Overdue(w, now, i)
  {
    PutsAreAll(w);
    NothingResent(w.side, now);
    hide SideOk, WatchOk, Resent, PutsOk, DueAt;
    forall i: nat
      ensures Overdue(w, now, i) <==> i < |w.side.sent| && DueAt(w.side, now, i)
    {
      if i < |w.side.sent| {
        DueIsOverdue(w, now, i);
      }
    }
    hide Overdue;
  }

  lemma AckingIsByTheWire(w: Watched, now: nat)
    requires SideOk(w.side) && WatchOk(w)
    ensures AcksByTheWire(w, now)
  {
    var a := w.side;
    PutsAreAll(w);
    NobodyOverdue(w, now);
    TickBares(a, now);
    BareIsNext(a);
    hide SideOk, Wrap, WatchOk, Resent, TickFrames, Overdue, BareAck, BareAmong;
    forall f | f in TickFrames(a.end, now)
      ensures f.ack == Wrap(|a.got| - 1) && f.epoch == a.end.epoch
    {
      TickAcks(a, now, f);
    }
  }

  lemma TicksAreByTheWire(w: Watched, b: Side, now: nat)
    requires Linked(w.side, b) && WatchOk(w)
    ensures TicksByTheWire(w, now)
  {
    LinkedSides(w.side, b);
    hide Linked, SideOk, WatchOk, GivesUpByTheWire, ResendsByTheWire, AcksByTheWire;
    GivingUpIsByTheWire(w, now);
    ResendingIsByTheWire(w, now);
    AckingIsByTheWire(w, now);
  }

  lemma PutsAreAll(w: Watched)
    requires WatchOk(w)
    ensures |w.puts| == |w.side.sent| && w.owes == w.side.end.ackPending
    ensures forall i :: 0 <= i < |w.puts| ==> PutsOk(w.puts[i], w.clock)
  {
  }

  lemma EntryIsOf(a: Side, s: Seq16)
    requires SideOk(a) && s in a.end.unacked
    ensures a.base <= Ahead(s, a.base) < |a.sent| && Wrap(Ahead(s, a.base)) == s
  {
    hide PacketsOk;
    WrapOfAhead(s, a.base);
    assert EntryOk(a.end.unacked, a.base, a.sent, a.times, s);
  }

  ghost predicate WireIsTimed(w: Watched) {
    && |w.puts| == |w.side.sent|
    && (forall i :: 0 <= i < |w.puts| ==> PutsOk(w.puts[i], w.clock))
    && (Emitted(w.side, TakeAck) != [] <==> w.owes)
    && forall now: nat :: TicksByTheWire(w, now)
  }

  lemma WatchedIsTimed(w: Watched, b: Side)
    requires Linked(w.side, b) && WatchOk(w)
    ensures WireIsTimed(w)
  {
    PutsAreAll(w);
    forall now: nat
      ensures TicksByTheWire(w, now)
    {
      TicksAreByTheWire(w, b, now);
    }
  }

  /**
   * Over every run with each end's clock not running back, told from the times
   * frames went on the wire: no message goes out more than MAX_ATTEMPTS times, nor
   * twice within RETRANSMIT_MS; a tick puts an unacknowledged message out exactly
   * when its last time is RETRANSMIT_MS past; it finds the peer gone exactly when
   * one such went out MAX_ATTEMPTS times already; it sends a bare ack exactly when
   * nothing goes out and a payload came since the last message or bare ack was
   * sent; and whatever it sends acknowledges all that was delivered so far.
   */
  lemma EveryRunIsTimed(maxL: nat, epochL: Epoch, maxR: nat, epochR: Epoch, events: seq<Event>)
    requires IsRun(Pair(Watching(maxL, epochL), Watching(maxR, epochR)), events)
    ensures var p := After(Pair(Watching(maxL, epochL), Watching(maxR, epochR)), events);
            WireIsTimed(p.left) && WireIsTimed(p.right)
  {
    FreshIsLinked(maxL, epochL, maxR, epochR);
    FreshIsLinked(maxR, epochR, maxL, epochL);
    RunWatches(Pair(Watching(maxL, epochL), Watching(maxR, epochR)), events);
    var p := After(Pair(Watching(maxL, epochL), Watching(maxR, epochR)), events);
    hide Linked, WatchOk;
    WatchedIsTimed(p.left, p.right.side);
    WatchedIsTimed(p.right, p.left.side);
  }

  /** So no end gives its peer up sooner than MAX_ATTEMPTS * RETRANSMIT_MS after some message was first sent. */
  lemma NobodyIsGivenUpEarly(w: Watched, now: nat) returns (i: nat)
    requires WireIsTimed(w) && PeerIsGone(w.side.end, now)
    ensures w.side.base <= i < |w.puts| && |w.puts[i]| == MAX_ATTEMPTS
    ensures now - w.puts[i][0] >= MAX_ATTEMPTS * RETRANSMIT_MS
  {
    assert TicksByTheWire(w, now);
    i :| Overdue(w, now, i) && |w.puts[i]| == MAX_ATTEMPTS;
    assert PutsOk(w.puts[i], w.clock);
    SpacedOut(w.puts[i], MAX_ATTEMPTS - 1);
  }
}
