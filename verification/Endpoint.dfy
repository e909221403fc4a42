// The server's end of the control channel across client restarts, with the
// queue in front of its send window.
//
// A client that restarts is a new incarnation: a fresh `Reliable` with a later
// epoch at a new address. Every incarnation is kept here with its own two
// networks, and any of them may go on acting; the server follows one at a time.

module Endpoint {
  import opened Basics
  import opened Seq
  import opened Wire
  import opened Reliable
  import opened Channel

  // A queued message as its encoder leaves it: None when it cannot be encoded.
  type Message = Option<Bytes>

  datatype Flushed = Flushed(end: End, pending: seq<Message>, frames: seq<Frame>)

  // Unencodable and oversized messages are dropped; a full window stops the flush.
  function Flush(e: End, pending: seq<Message>, now: nat): Flushed
    decreases |pending|
  {
    if pending == [] then Flushed(e, [], [])
    else if pending[0].None? then Flush(e, pending[1..], now)
    else
      match SendError(e, pending[0].value)
      case None =>
        var rest := Flush(AfterSend(e, pending[0].value, now), pending[1..], now);
        rest.(frames := [SendFrame(e, pending[0].value)] + rest.frames)
      case Some(WouldBlock) => Flushed(e, pending, [])
      case Some(_) => Flush(e, pending[1..], now)
  }

  /** The messages of a queue that can go out at all, in order. */
  function Sendable(queue: seq<Message>, maxPayload: nat): seq<Bytes> {
    if queue == [] then []
    else (if queue[0].Some? && |queue[0].value| <= maxPayload then [queue[0].value] else [])
         + Sendable(queue[1..], maxPayload)
  }

  datatype Heard = Heard(end: End, pending: seq<Message>, ready: seq<Bytes>, restarted: bool)

  // A frame of a newer incarnation restarts the channel and empties the queue.
  function OnControl(e: End, pending: seq<Message>, f: Frame): Heard {
    var restarted := Classify(e.peerEpoch, f.epoch).Newer?;
    var (end, ready) := OnFrame(if restarted then Restart(e, f.epoch) else e, f);
    Heard(end, if restarted then [] else pending, ready, restarted)
  }

  class Session {
    const reliable: Reliable
    var pendingOut: seq<Message>

    constructor (maxPayload: nat, epoch: Epoch)
      ensures fresh(reliable) && pendingOut == []
      ensures reliable.State() == Fresh(maxPayload, epoch)
    {
      reliable := new Reliable.WithEpoch(maxPayload, epoch);
      pendingOut := [];
    }

    method FlushControl(now: nat) returns (frames: seq<Bytes>)
      modifies this, reliable
      ensures var f := Flush(old(reliable.State()), old(pendingOut), now);
              reliable.State() == f.end && pendingOut == f.pending && frames == EncodeAll(f.frames)
    {
      frames := [];
      ghost var built: seq<Frame> := [];
      while pendingOut != []
        invariant frames == EncodeAll(built)
        invariant var f := Flush(reliable.State(), pendingOut, now);
                  Flush(old(reliable.State()), old(pendingOut), now) == f.(frames := built + f.frames)
        decreases |pendingOut|
      {
        var message := pendingOut[0];
        if message.None? {
          pendingOut := pendingOut[1..];
          continue;
        }
        ghost var e := reliable.State();
        var r := reliable.Send(message.value, now);
        match r {
          case Ok(frame) =>
            frames := frames + [frame];
            built := built + [SendFrame(e, message.value)];
            pendingOut := pendingOut[1..];
          case Err(WouldBlock) => break;
          case Err(_) => pendingOut := pendingOut[1..];
        }
      }
    }

    method SendToClient(message: Message, now: nat) returns (frames: seq<Bytes>)
      modifies this, reliable
      ensures var f := Flush(old(reliable.State()), old(pendingOut) + [message], now);
              reliable.State() == f.end && pendingOut == f.pending && frames == EncodeAll(f.frames)
    {
      pendingOut := pendingOut + [message];
      frames := FlushControl(now);
    }

    // An authenticated control datagram's frame.
    method Control(frame: Bytes) returns (ready: seq<Bytes>, restarted: bool)
      modifies this, reliable
      ensures match Decode(frame)
              case None =>
                && ready == [] && !restarted
                && pendingOut == old(pendingOut) && reliable.State() == old(reliable.State())
              case Some(f) =>
                Heard(reliable.State(), pendingOut, ready, restarted)
                == OnControl(old(reliable.State()), old(pendingOut), f)
    {
      restarted := false;
      var incarnation := reliable.IncarnationOf(frame);
      if incarnation.Some? && incarnation.value.Newer? {
        reliable.RestartFor(incarnation.value.epoch);
        pendingOut := [];
        restarted := true;
      }
      ready := reliable.Receive(frame);
    }
  }

  // ---- the queue -----------------------------------------------------------

  lemma {:induction false} SendableConcat(a: seq<Message>, b: seq<Message>, maxPayload: nat)
    ensures Sendable(a + b, maxPayload) == Sendable(a, maxPayload) + Sendable(b, maxPayload)
  {
    if a == [] {
      assert a + b == b;
    } else {
      assert (a + b)[0] == a[0] && (a + b)[1..] == a[1..] + b;
      SendableConcat(a[1..], b, maxPayload);
    }
  }

  // The flush as it happens to a side: each message in turn is sent.
  function Flushing(a: Side, pending: seq<Message>, now: nat): Side
    decreases |pending|
  {
    if pending == [] then a
    else if pending[0].Some? && CanSend(a, pending[0].value) then
      Flushing(Sending(a, pending[0].value, now), pending[1..], now)
    else if pending[0].Some? && SendError(a.end, pending[0].value) == Some(WouldBlock) then a
    else Flushing(a, pending[1..], now)
  }

  lemma {:induction false} FlushEnds(a: Side, pending: seq<Message>, now: nat)
    ensures Flushing(a, pending, now).end == Flush(a.end, pending, now).end
    ensures Flushing(a, pending, now).got == a.got
    ensures var e := Flush(a.end, pending, now).end;
            e.peerEpoch == a.end.peerEpoch && e.epoch == a.end.epoch && e.maxPayload == a.end.maxPayload
    decreases |pending|
  {
    if pending != [] {
      if pending[0].Some? && CanSend(a, pending[0].value) {
        FlushEnds(Sending(a, pending[0].value, now), pending[1..], now);
      } else {
        FlushEnds(a, pending[1..], now);
      }
    }
  }

  lemma {:induction false} FlushLinks(a: Side, b: Side, pending: seq<Message>, now: nat)
    requires Linked(a, b)
    ensures Linked(Flushing(a, pending, now), b)
    decreases |pending|
  {
    if pending != [] {
      if pending[0].Some? && CanSend(a, pending[0].value) {
        SendKeeps(a, b, pending[0].value, now);
        FlushLinks(Sending(a, pending[0].value, now), b, pending[1..], now);
      } else {
        FlushLinks(a, b, pending[1..], now);
      }
    }
  }

  /**
   * A flush takes messages off the front only, and each one taken was sent, in
   * order and once, unless it could never go out. It stops with the queue empty
   * or the window full.
   */
  lemma {:induction false} FlushIsFifo(a: Side, pending: seq<Message>, now: nat)
    ensures var f := Flush(a.end, pending, now);
            && Flushing(a, pending, now).sent + Sendable(f.pending, a.end.maxPayload)
               == a.sent + Sendable(pending, a.end.maxPayload)
            && (f.pending == [] || |f.end.unacked| >= WINDOW)
            && |f.pending| <= |pending| && f.pending == pending[|pending| - |f.pending|..]
    decreases |pending|
  {
    if pending == [] {
    } else if pending[0].Some? && CanSend(a, pending[0].value) {
      var message := pending[0].value;
      FlushIsFifo(Sending(a, message, now), pending[1..], now);
      SentFirst(a.sent, pending, a.end.maxPayload);
    } else if pending[0].Some? && SendError(a.end, pending[0].value) == Some(WouldBlock) {
    } else {
      FlushIsFifo(a, pending[1..], now);
      assert Sendable(pending, a.end.maxPayload) == Sendable(pending[1..], a.end.maxPayload);
    }
  }

  lemma SentFirst(sent: seq<Bytes>, pending: seq<Message>, maxPayload: nat)
    requires pending != [] && pending[0].Some? && |pending[0].value| <= maxPayload
    ensures (sent + [pending[0].value]) + Sendable(pending[1..], maxPayload) == sent + Sendable(pending, maxPayload)
  {
  }

  /** The frames a flush returns carry just the messages it sent, in order, numbered on. */
  lemma {:induction false} FlushedAreTheSent(a: Side, pending: seq<Message>, now: nat)
    requires a.end.nextSeq == Wrap(|a.sent|)
    ensures var frames, sent := Flush(a.end, pending, now).frames, Flushing(a, pending, now).sent;
            && |sent| == |a.sent| + |frames| && sent[..|a.sent|] == a.sent
            && forall k :: 0 <= k < |frames| ==>
                 frames[k].payload == Some(sent[|a.sent| + k]) && frames[k].seqNo == Wrap(|a.sent| + k)
    decreases |pending|
  {
    hide Wrap, SendError;
    if pending != [] {
      if pending[0].Some? && CanSend(a, pending[0].value) {
        var next := Sending(a, pending[0].value, now);
        NextIsSuccessor(|a.sent|);
        FlushedAreTheSent(next, pending[1..], now);
        var sent := Flushing(next, pending[1..], now).sent;
        assert sent[..|a.sent|] == sent[..|next.sent|][..|a.sent|] == a.sent;
        assert sent[|a.sent|] == sent[..|next.sent|][|a.sent|];
      } else if pending[0].None? || SendError(a.end, pending[0].value) != Some(WouldBlock) {
        FlushedAreTheSent(a, pending[1..], now);
      }
    }
  }

  // What goes on the wire is what the flush returned.
  lemma {:induction false} FlushTransmits(a: Side, pending: seq<Message>, now: nat, g: Frame)
    ensures a.net <= Flushing(a, pending, now).net
    ensures g in Flush(a.end, pending, now).frames ==>
              exists p :: p in Flushing(a, pending, now).net && p.frame == g
    decreases |pending|
  {
    if pending == [] {
    } else if pending[0].Some? && CanSend(a, pending[0].value) {
      FlushTransmits(Sending(a, pending[0].value, now), pending[1..], now, g);
      var f := SendFrame(a.end, pending[0].value);
      assert f in [f];
      assert Packet(f, Ahead(f.seqNo, a.base), |a.got|) in Sending(a, pending[0].value, now).net;
    } else {
      FlushTransmits(a, pending[1..], now, g);
    }
  }

  // ---- the system ----------------------------------------------------------

  // One incarnation: its own side, the server's side towards it, what the server
  // was asked to queue and what it sent past the queue while following it, and
  // which messages of `far.sent` went past the queue.
  datatype Client = Client(near: Side, far: Side, asked: seq<Message>, offered: seq<Bytes>, past: seq<bool>)

  // The messages that went one way or the other: past the queue, or through it.
  function Lane(sent: seq<Bytes>, past: seq<bool>, lane: bool): seq<Bytes>
    requires |sent| == |past|
  {
    var n := |sent|;
    if n == 0 then []
    else Lane(sent[..n - 1], past[..n - 1], lane) + if past[n - 1] == lane then [sent[n - 1]] else []
  }

  function Padded(past: seq<bool>, n: nat): (r: seq<bool>)
    ensures |past| <= n ==> |r| == n
  {
    past + seq(if |past| < n then n - |past| else 0, i => false)
  }

  lemma LaneOneMore(sent: seq<Bytes>, past: seq<bool>, message: Bytes, way: bool, lane: bool)
    requires |sent| == |past|
    ensures Lane(sent + [message], past + [way], lane) == Lane(sent, past, lane) + if way == lane then [message] else []
  {
    assert (sent + [message])[..|sent|] == sent && (past + [way])[..|past|] == past;
  }

  // What a flush adds goes through the queue.
  lemma {:induction false} LanePadded(sent: seq<Bytes>, past: seq<bool>, gained: seq<Bytes>)
    requires |sent| == |past|
    ensures Lane(sent + gained, Padded(past, |sent| + |gained|), false) == Lane(sent, past, false) + gained
    ensures Lane(sent + gained, Padded(past, |sent| + |gained|), true) == Lane(sent, past, true)
    decreases |gained|
  {
    hide Lane, Padded;
    var n := |gained|;
    PaddedOneMore(past, n);
    if n == 0 {
      assert sent + gained == sent && Lane(sent, past, false) + gained == Lane(sent, past, false);
    } else {
      var before, last := gained[..n - 1], gained[n - 1];
      var lane := Lane(sent, past, false);
      LanePadded(sent, past, before);
      var padded := Padded(past, |sent| + n - 1);
      LaneOneMore(sent + before, padded, last, false, false);
      LaneOneMore(sent + before, padded, last, false, true);
      assert before + [last] == gained;
      Regroup(sent, before, [last]);
      Regroup(lane, before, [last]);
      NothingMore(Lane(sent, past, true));
    }
  }

  lemma NothingMore(s: seq<Bytes>)
    ensures s + [] == s
  {
  }

  lemma PaddedOneMore(past: seq<bool>, n: nat)
    ensures Padded(past, |past|) == past
    ensures n > 0 ==> Padded(past, |past| + n) == Padded(past, |past| + n - 1) + [false]
  {
  }

  datatype System = System(
    maxPayload: nat,
    epoch: Epoch,
    clients: seq<Client>,
    following: Option<nat>,
    pending: seq<Message>)

  ghost predicate FollowsSome(s: System) {
    s.following.Some? && s.following.value < |s.clients|
  }

  // The one `End` the server holds.
  ghost function ServerEnd(s: System): End {
    if FollowsSome(s) then s.clients[s.following.value].far.end else Fresh(s.maxPayload, s.epoch)
  }

  datatype Event =
    | Spawn(maxPayload: nat, epoch: Epoch)     // a new incarnation appears
    | ClientActs(who: nat, act: Act)
    | ServerHears(who: nat, packet: Packet)
    | ServerTicks(now: nat)
    | ServerTakesAck
    | Ask(message: Message, now: nat)          // send_to_client
    | Offers(offer: Bytes, now: nat)           // past the queue, dropped if it cannot go now
    | Flushes(now: nat)

  ghost predicate Possible(s: System, event: Event) {
    match event
    case Spawn(_, epoch) => forall c :: c in s.clients ==> c.near.end.epoch < epoch
    case ClientActs(who, act) => who < |s.clients| && Enabled(s.clients[who].near, s.clients[who].far, act)
    case ServerHears(who, p) =>
      && who < |s.clients| && p in s.clients[who].near.net
      // A frame of an incarnation already left behind may be of any age.
      && (Deliverable(s.clients[who].near, s.clients[who].far, p) || (s.following.Some? && who < s.following.value))
    case ServerTicks(now) => FollowsSome(s) && !PeerIsGone(ServerEnd(s), now)
    case ServerTakesAck => FollowsSome(s)
    case Ask(_, _) => FollowsSome(s)
    case Offers(_, _) => FollowsSome(s)
    case Flushes(_) => FollowsSome(s)
  }

  function WithFar(s: System, who: nat, far: Side): System
    requires who < |s.clients|
  {
    s.(clients := s.clients[who := s.clients[who].(far := far)])
  }

  ghost function Hearing(s: System, who: nat, p: Packet): System
    requires who < |s.clients|
  {
    match Classify(ServerEnd(s).peerEpoch, p.frame.epoch)
    case Stale => s
    case Newer(epoch) =>
      var begun := NewSide(s.maxPayload, s.epoch);
      WithFar(s, who, Receiving(begun.(end := Restart(begun.end, epoch)), p)).(following := Some(who), pending := [])
    case _ => WithFar(s, who, Receiving(s.clients[who].far, p)).(following := Some(who))
  }

  ghost function FlushingQueue(s: System, pending: seq<Message>, now: nat): System
    requires FollowsSome(s)
  {
    var c := s.clients[s.following.value];
    var far := Flushing(c.far, pending, now);
    s.(clients := s.clients[s.following.value := c.(far := far, past := Padded(c.past, |far.sent|))],
       pending := Flush(ServerEnd(s), pending, now).pending)
  }

  ghost function Offering(s: System, message: Bytes, now: nat): System
    requires FollowsSome(s)
  {
    var c := s.clients[s.following.value];
    if !CanSend(c.far, message) then s
    else
      s.(clients := s.clients[s.following.value :=
           c.(far := Sending(c.far, message, now), offered := c.offered + [message], past := c.past + [true])])
  }

  ghost function Step(s: System, event: Event): System
    requires Possible(s, event)
  {
    match event
    case Spawn(maxPayload, epoch) =>
      s.(clients := s.clients + [Client(NewSide(maxPayload, epoch), NewSide(s.maxPayload, s.epoch), [], [], [])])
    case ClientActs(who, act) =>
      s.(clients := s.clients[who := s.clients[who].(near := Do(s.clients[who].near, act))])
    case ServerHears(who, p) => Hearing(s, who, p)
    case ServerTicks(now) => WithFar(s, s.following.value, Ticking(s.clients[s.following.value].far, now))
    case ServerTakesAck => WithFar(s, s.following.value, TakingAck(s.clients[s.following.value].far))
    case Ask(message, now) =>
      var c := s.clients[s.following.value];
      FlushingQueue(s.(clients := s.clients[s.following.value := c.(asked := c.asked + [message])]),
                    s.pending + [message], now)
    case Offers(message, now) => Offering(s, message, now)
    case Flushes(now) => FlushingQueue(s, s.pending, now)
  }

  // ---- the invariant -------------------------------------------------------

  ghost predicate ClientOk(s: System, c: Client) {
    && Linked(c.near, c.far)
    && c.far.end.maxPayload == s.maxPayload && c.far.end.epoch == s.epoch
    && LanesOk(c, s.maxPayload)
  }

  // `far.sent` interleaves what was queued, in order, and what was offered.
  ghost predicate LanesOk(c: Client, maxPayload: nat) {
    && |c.past| == |c.far.sent|
    && Lane(c.far.sent, c.past, false) <= Sendable(c.asked, maxPayload)
    && Lane(c.far.sent, c.past, true) == c.offered
  }

  // Nothing asked for is lost: what went through the queue and what is still in it.
  ghost predicate QueueOk(c: Client, pending: seq<Message>, maxPayload: nat) {
    && |c.past| == |c.far.sent|
    && Lane(c.far.sent, c.past, false) + Sendable(pending, maxPayload) == Sendable(c.asked, maxPayload)
  }

  ghost predicate Untouched(s: System, c: Client) {
    c.far == NewSide(s.maxPayload, s.epoch) && c.asked == [] && c.offered == [] && c.past == []
  }

  ghost predicate SystemOk(s: System) {
    && (forall j, k :: 0 <= j < k < |s.clients| ==> s.clients[j].near.end.epoch < s.clients[k].near.end.epoch)
    && (forall j :: 0 <= j < |s.clients| ==> ClientOk(s, s.clients[j]))
    && (s.following.Some? ==>
          && s.following.value < |s.clients|
          && (var c := s.clients[s.following.value];
              && c.far.end.peerEpoch == Some(c.near.end.epoch)
              && QueueOk(c, s.pending, s.maxPayload)))
    && (s.following.None? ==> s.pending == [])
    && (forall j :: 0 <= j < |s.clients| && (s.following.Some? ==> j > s.following.value) ==>
          Untouched(s, s.clients[j]))
  }

  lemma ClientKeepsEpoch(c: Client, p: Packet)
    requires Linked(c.near, c.far) && p in c.near.net
    ensures p.frame.epoch == c.near.end.epoch
  {
    assert PacketOk(c.near.end.epoch, c.near.sent, |c.near.got|, p);
  }

  // Restarting for incarnation `who` gives a side linked to it from the start.
  lemma RestartedIsLinked(s: System, who: nat)
    requires who < |s.clients| && ClientOk(s, s.clients[who]) && Untouched(s, s.clients[who])
    ensures var begun := NewSide(s.maxPayload, s.epoch); var near := s.clients[who].near;
            Linked(near, begun.(end := Restart(begun.end, near.end.epoch)))
  {
  }

  lemma HeardEpoch(far: Side, p: Packet)
    requires far.end.peerEpoch in {None, Some(p.frame.epoch)}
    ensures Receiving(far, p).end.peerEpoch == Some(p.frame.epoch) && Receiving(far, p).sent == far.sent
  {
  }

  // Moving one incarnation on keeps the rest as it was.
  lemma FollowingOneKeeps(s: System, who: nat, c: Client, pending: seq<Message>)
    requires SystemOk(s) && who < |s.clients| && (s.following.Some? ==> who >= s.following.value)
    requires ClientOk(s, c) && c.near == s.clients[who].near
    requires c.far.end.peerEpoch == Some(c.near.end.epoch)
    requires QueueOk(c, pending, s.maxPayload)
    ensures SystemOk(s.(clients := s.clients[who := c], following := Some(who), pending := pending))
  {
    hide Linked, LanesOk, QueueOk;
    var after := s.(clients := s.clients[who := c], following := Some(who), pending := pending);
    forall j | 0 <= j < |s.clients| ensures ClientOk(after, after.clients[j]) {
      assert ClientOk(s, s.clients[j]);
    }
  }

  lemma HearingNewer(s: System, who: nat, p: Packet)
    requires SystemOk(s) && Possible(s, ServerHears(who, p))
    requires s.following.Some? && who > s.following.value
    ensures SystemOk(Hearing(s, who, p))
  {
    hide Linked, Receiving, LanesOk, QueueOk;
    var c := s.clients[who];
    ClientKeepsEpoch(c, p);
    RestartedIsLinked(s, who);
    var begun := NewSide(s.maxPayload, s.epoch);
    var far := begun.(end := Restart(begun.end, p.frame.epoch));
    LinkedIsSymmetric(c.near, far);
    ActKeeps(far, c.near, Receive(p));
    LinkedIsSymmetric(Receiving(far, p), c.near);
    HeardEpoch(far, p);
    NothingSent(c.(far := Receiving(far, p)), s.maxPayload);
    FollowingOneKeeps(s, who, c.(far := Receiving(far, p)), []);
  }

  lemma NothingSent(c: Client, maxPayload: nat)
    requires c.far.sent == [] && c.asked == [] && c.offered == [] && c.past == []
    ensures LanesOk(c, maxPayload) && QueueOk(c, [], maxPayload)
  {
  }

  lemma SameLanes(c: Client, far: Side, pending: seq<Message>, maxPayload: nat)
    requires far.sent == c.far.sent
    ensures LanesOk(c.(far := far), maxPayload) <==> LanesOk(c, maxPayload)
    ensures QueueOk(c.(far := far), pending, maxPayload) <==> QueueOk(c, pending, maxPayload)
    ensures forall near :: LanesOk(c.(near := near), maxPayload) <==> LanesOk(c, maxPayload)
    ensures forall near :: QueueOk(c.(near := near), pending, maxPayload) <==> QueueOk(c, pending, maxPayload)
  {
  }

  lemma FlushedLanes(c: Client, pending: seq<Message>, maxPayload: nat, now: nat)
    requires LanesOk(c, maxPayload) && QueueOk(c, pending, maxPayload) && c.far.end.maxPayload == maxPayload
    requires c.far.end.nextSeq == Wrap(|c.far.sent|)
    ensures var far := Flushing(c.far, pending, now);
            var after := c.(far := far, past := Padded(c.past, |far.sent|));
            LanesOk(after, maxPayload) && QueueOk(after, Flush(c.far.end, pending, now).pending, maxPayload)
  {
    hide Lane, Sendable, Flushing, Flush, Wrap, Padded;
    FlushIsFifo(c.far, pending, now);
    FlushedAreTheSent(c.far, pending, now);
    var sent, rest := Flushing(c.far, pending, now).sent, Sendable(Flush(c.far.end, pending, now).pending, maxPayload);
    var gained := sent[|c.far.sent|..];
    assert sent == c.far.sent + gained;
    LanePadded(c.far.sent, c.past, gained);
    Regroup(c.far.sent, gained, rest);
    Cancel(c.far.sent, gained + rest, Sendable(pending, maxPayload));
    Regroup(Lane(c.far.sent, c.past, false), gained, rest);
  }

  lemma Cancel<T>(first: seq<T>, a: seq<T>, b: seq<T>)
    requires first + a == first + b
    ensures a == b
  {
    assert a == (first + a)[|first|..] && b == (first + b)[|first|..];
  }

  lemma OfferedLanes(c: Client, message: Bytes, pending: seq<Message>, maxPayload: nat, now: nat)
    requires LanesOk(c, maxPayload) && QueueOk(c, pending, maxPayload)
    ensures var after :=
              c.(far := Sending(c.far, message, now), offered := c.offered + [message], past := c.past + [true]);
            LanesOk(after, maxPayload) && QueueOk(after, pending, maxPayload)
  {
    hide Lane, Sendable;
    LaneOneMore(c.far.sent, c.past, message, true, false);
    LaneOneMore(c.far.sent, c.past, message, true, true);
  }

  lemma AskedLanes(c: Client, message: Message, pending: seq<Message>, maxPayload: nat)
    requires LanesOk(c, maxPayload) && QueueOk(c, pending, maxPayload)
    ensures var after := c.(asked := c.asked + [message]);
            LanesOk(after, maxPayload) && QueueOk(after, pending + [message], maxPayload)
  {
    hide Lane, Sendable;
    SendableConcat(c.asked, [message], maxPayload);
    SendableConcat(pending, [message], maxPayload);
    Regroup(Lane(c.far.sent, c.past, false), Sendable(pending, maxPayload), Sendable([message], maxPayload));
  }

  lemma HearingCurrent(s: System, who: nat, p: Packet)
    requires SystemOk(s) && Possible(s, ServerHears(who, p))
    requires s.following.Some? ==> who == s.following.value
    ensures SystemOk(Hearing(s, who, p))
  {
    hide Linked, Receiving, LanesOk, QueueOk;
    var c := s.clients[who];
    ClientKeepsEpoch(c, p);
    LinkedIsSymmetric(c.near, c.far);
    ActKeeps(c.far, c.near, Receive(p));
    LinkedIsSymmetric(Receiving(c.far, p), c.near);
    HeardEpoch(c.far, p);
    SameLanes(c, Receiving(c.far, p), s.pending, s.maxPayload);
    if s.following.None? {
      NothingSent(c, s.maxPayload);
    }
    FollowingOneKeeps(s, who, c.(far := Receiving(c.far, p)), s.pending);
  }

  /** A frame of an incarnation left behind changes nothing, whatever its age. */
  lemma StaleIsInert(s: System, who: nat, p: Packet)
    requires SystemOk(s) && s.following.Some? && who < s.following.value && p in s.clients[who].near.net
    ensures OnControl(ServerEnd(s), s.pending, p.frame) == Heard(ServerEnd(s), s.pending, [], false)
    ensures Hearing(s, who, p) == s
  {
    hide Linked, LanesOk, QueueOk;
    ClientKeepsEpoch(s.clients[who], p);
  }

  lemma HearingKeeps(s: System, who: nat, p: Packet)
    requires SystemOk(s) && Possible(s, ServerHears(who, p))
    ensures SystemOk(Hearing(s, who, p))
  {
    hide Linked, LanesOk, QueueOk;
    if s.following.Some? && who < s.following.value {
      StaleIsInert(s, who, p);
    } else if s.following.Some? && who > s.following.value {
      HearingNewer(s, who, p);
    } else {
      HearingCurrent(s, who, p);
    }
  }

  // The step of the system is the server's own code on its one `End`.
  lemma HearingIsOnControl(s: System, who: nat, p: Packet)
    requires SystemOk(s) && Possible(s, ServerHears(who, p))
    ensures var h := OnControl(ServerEnd(s), s.pending, p.frame); var after := Hearing(s, who, p);
            && ServerEnd(after) == h.end && after.pending == h.pending
            && after.clients[who].far.got
               == (if h.restarted then [] else s.clients[who].far.got) + h.ready
  {
    hide Linked, LanesOk, QueueOk;
    ClientKeepsEpoch(s.clients[who], p);
    if s.following.Some? && who < s.following.value {
      StaleIsInert(s, who, p);
    }
  }

  lemma FlushKeeps(s: System, pending: seq<Message>, now: nat)
    requires SystemOk(s.(pending := pending)) && FollowsSome(s)
    ensures SystemOk(FlushingQueue(s, pending, now))
  {
    hide Linked, LanesOk, QueueOk, Flushing, Flush;
    var who := s.following.value;
    var c := s.clients[who];
    assert c.far.end.nextSeq == Wrap(|c.far.sent|) by { LinkedNumbers(c.near, c.far); }
    LinkedIsSymmetric(c.near, c.far);
    FlushLinks(c.far, c.near, pending, now);
    LinkedIsSymmetric(Flushing(c.far, pending, now), c.near);
    FlushEnds(c.far, pending, now);
    assert ClientOk(s.(pending := pending), c);
    FlushedLanes(c, pending, s.maxPayload, now);
    var far := Flushing(c.far, pending, now);
    FollowingOneKeeps(s.(pending := pending), who, c.(far := far, past := Padded(c.past, |far.sent|)),
                      Flush(c.far.end, pending, now).pending);
  }

  lemma LinkedNumbers(a: Side, b: Side)
    requires Linked(a, b)
    ensures b.end.nextSeq == Wrap(|b.sent|)
  {
  }

  lemma OfferKeeps(s: System, message: Bytes, now: nat)
    requires SystemOk(s) && FollowsSome(s)
    ensures SystemOk(Offering(s, message, now))
  {
    hide Linked, LanesOk, QueueOk;
    var who := s.following.value;
    var c := s.clients[who];
    if CanSend(c.far, message) {
      LinkedIsSymmetric(c.near, c.far);
      SendKeeps(c.far, c.near, message, now);
      LinkedIsSymmetric(Sending(c.far, message, now), c.near);
      assert ClientOk(s, c);
      OfferedLanes(c, message, s.pending, s.maxPayload, now);
      FollowingOneKeeps(
        s, who, c.(far := Sending(c.far, message, now), offered := c.offered + [message], past := c.past + [true]),
        s.pending);
    }
  }

  lemma AskKeeps(s: System, message: Message)
    requires SystemOk(s) && FollowsSome(s)
    ensures var c := s.clients[s.following.value];
            SystemOk(s.(clients := s.clients[s.following.value := c.(asked := c.asked + [message])],
                        pending := s.pending + [message]))
  {
    hide Linked, LanesOk, QueueOk;
    var c := s.clients[s.following.value];
    assert ClientOk(s, c);
    AskedLanes(c, message, s.pending, s.maxPayload);
    FollowingOneKeeps(s, s.following.value, c.(asked := c.asked + [message]), s.pending + [message]);
  }

  lemma FarActKeeps(s: System, act: Act)
    requires SystemOk(s) && FollowsSome(s) && (act.Tick? || act.TakeAck?)
    requires act.Tick? ==> !PeerIsGone(ServerEnd(s), act.now)
    ensures SystemOk(WithFar(s, s.following.value, Do(s.clients[s.following.value].far, act)))
  {
    hide Linked, LanesOk, QueueOk;
    var c := s.clients[s.following.value];
    LinkedIsSymmetric(c.near, c.far);
    ActKeeps(c.far, c.near, act);
    LinkedIsSymmetric(Do(c.far, act), c.near);
    SameLanes(c, Do(c.far, act), s.pending, s.maxPayload);
    FollowingOneKeeps(s, s.following.value, c.(far := Do(c.far, act)), s.pending);
  }

  lemma NearMoves(s: System, who: nat, near: Side)
    requires SystemOk(s) && who < |s.clients| && Linked(near, s.clients[who].far)
    requires near.end.epoch == s.clients[who].near.end.epoch
    ensures SystemOk(s.(clients := s.clients[who := s.clients[who].(near := near)]))
  {
    hide Linked, LanesOk, QueueOk;
    SameLanes(s.clients[who], s.clients[who].far, s.pending, s.maxPayload);
    var after := s.(clients := s.clients[who := s.clients[who].(near := near)]);
    forall j | 0 <= j < |s.clients| ensures ClientOk(after, after.clients[j]) {
      assert ClientOk(s, s.clients[j]);
    }
  }

  lemma NearActKeeps(s: System, who: nat, act: Act)
    requires SystemOk(s) && Possible(s, ClientActs(who, act))
    ensures SystemOk(Step(s, ClientActs(who, act)))
  {
    hide Linked, LanesOk, QueueOk;
    var c := s.clients[who];
    ActKeeps(c.near, c.far, act);
    NearMoves(s, who, Do(c.near, act));
  }

  lemma SpawnKeeps(s: System, c: Client)
    requires SystemOk(s) && ClientOk(s, c) && Untouched(s, c)
    requires forall d :: d in s.clients ==> d.near.end.epoch < c.near.end.epoch
    ensures SystemOk(s.(clients := s.clients + [c]))
  {
    hide Linked, LanesOk, QueueOk;
    var after := s.(clients := s.clients + [c]);
    forall j | 0 <= j < |after.clients| ensures ClientOk(after, after.clients[j]) {
      if j < |s.clients| {
        assert ClientOk(s, s.clients[j]);
      }
    }
  }

  lemma StepKeeps(s: System, event: Event)
    requires SystemOk(s) && Possible(s, event)
    ensures SystemOk(Step(s, event))
  {
    hide Linked, LanesOk, QueueOk;
    match event
    case Spawn(maxPayload, epoch) =>
      FreshIsLinked(maxPayload, epoch, s.maxPayload, s.epoch);
      NothingSent(Client(NewSide(maxPayload, epoch), NewSide(s.maxPayload, s.epoch), [], [], []), s.maxPayload);
      SpawnKeeps(s, Client(NewSide(maxPayload, epoch), NewSide(s.maxPayload, s.epoch), [], [], []));
    case ClientActs(who, act) => NearActKeeps(s, who, act);
    case ServerHears(who, p) => HearingKeeps(s, who, p);
    case ServerTicks(now) => FarActKeeps(s, Tick(now));
    case ServerTakesAck => FarActKeeps(s, TakeAck);
    case Ask(message, now) =>
      AskKeeps(s, message);
      var c := s.clients[s.following.value];
      FlushKeeps(s.(clients := s.clients[s.following.value := c.(asked := c.asked + [message])]),
                 s.pending + [message], now);
    case Offers(message, now) => OfferKeeps(s, message, now);
    case Flushes(now) => FlushKeeps(s, s.pending, now);
  }

  // ---- runs ----------------------------------------------------------------

  ghost predicate IsRun(s: System, events: seq<Event>)
    decreases |events|
  {
    events == [] || (Possible(s, events[0]) && IsRun(Step(s, events[0]), events[1..]))
  }

  ghost function After(s: System, events: seq<Event>): System
    requires IsRun(s, events)
    decreases |events|
  {
    if events == [] then s else After(Step(s, events[0]), events[1..])
  }

  lemma {:induction false} RunKeeps(s: System, events: seq<Event>)
    requires SystemOk(s) && IsRun(s, events)
    ensures SystemOk(After(s, events))
    decreases |events|
  {
    hide Linked, LanesOk, QueueOk;
    if events != [] {
      StepKeeps(s, events[0]);
      RunKeeps(Step(s, events[0]), events[1..]);
    }
  }

  /**
   * Across any number of restarts: what the server delivered from an
   * incarnation is a prefix of what that incarnation sent, what an incarnation
   * delivered is a prefix of what the server sent it, and that interleaves a
   * prefix of what the server was asked to queue while following it with what it
   * offered past the queue, each in order; what is not sent is still queued.
   */
  lemma EveryRunDeliversPrefixes(maxPayload: nat, epoch: Epoch, events: seq<Event>, who: nat)
    requires IsRun(System(maxPayload, epoch, [], None, []), events)
    requires who < |After(System(maxPayload, epoch, [], None, []), events).clients|
    ensures var s := After(System(maxPayload, epoch, [], None, []), events); var c := s.clients[who];
            && c.far.got <= c.near.sent
            && c.near.got <= c.far.sent
            && LanesOk(c, maxPayload)
            && (s.following == Some(who) ==> QueueOk(c, s.pending, maxPayload))
  {
    hide Linked, LanesOk, QueueOk;
    var s0 := System(maxPayload, epoch, [], None, []);
    RunKeeps(s0, events);
    ConstantsKept(s0, events);
    var c := After(s0, events).clients[who];
    assert ClientOk(After(s0, events), c);
    LinkedDelivers(c.near, c.far);
  }

  lemma {:induction false} ConstantsKept(s: System, events: seq<Event>)
    requires IsRun(s, events)
    ensures After(s, events).maxPayload == s.maxPayload && |After(s, events).clients| >= |s.clients|
    decreases |events|
  {
    if events != [] {
      ConstantsKept(Step(s, events[0]), events[1..]);
    }
  }

  /**
   * Once the server follows a newer incarnation, an older one is history: in
   * every continuation the server delivers nothing more from it, sends nothing
   * more to it and retires nothing by it.
   */
  lemma {:induction false} OldIncarnationsAreFrozen(s: System, events: seq<Event>, earlier: nat)
    requires SystemOk(s) && IsRun(s, events) && s.following.Some? && earlier < s.following.value
    ensures earlier < |After(s, events).clients|
    ensures After(s, events).clients[earlier].far == s.clients[earlier].far
    ensures After(s, events).clients[earlier].asked == s.clients[earlier].asked
    ensures After(s, events).clients[earlier].offered == s.clients[earlier].offered
    decreases |events|
  {
    hide Linked, LanesOk, QueueOk;
    if events != [] {
      StepKeeps(s, events[0]);
      StepLeavesOldAlone(s, events[0], earlier);
      OldIncarnationsAreFrozen(Step(s, events[0]), events[1..], earlier);
    }
  }

  lemma StepLeavesOldAlone(s: System, event: Event, earlier: nat)
    requires SystemOk(s) && Possible(s, event) && s.following.Some? && earlier < s.following.value
    ensures var after := Step(s, event);
            && after.following.Some? && after.following.value >= s.following.value
            && earlier < |after.clients|
            && after.clients[earlier].far == s.clients[earlier].far
            && after.clients[earlier].asked == s.clients[earlier].asked
            && after.clients[earlier].offered == s.clients[earlier].offered
  {
    hide Linked, LanesOk, QueueOk;
    if event.ServerHears? {
      ClientKeepsEpoch(s.clients[event.who], event.packet);
      if event.who < s.following.value {
        StaleIsInert(s, event.who, event.packet);
      }
    }
  }

  // Following a newer incarnation starts from nothing: no message sent to the
  // old one and none queued for it is there to be sent.
  lemma FollowingStartsFromNothing(s: System, who: nat, p: Packet)
    requires SystemOk(s) && Possible(s, ServerHears(who, p)) && s.following.Some? && who > s.following.value
    ensures var after := Hearing(s, who, p);
            && after.following == Some(who) && after.pending == []
            && ServerEnd(after).unacked == map[] && ServerEnd(after).nextSeq == 0
            && after.clients[who].far.sent == []
            && after.clients[who].far.got <= s.clients[who].near.sent
  {
    hide Linked, LanesOk, QueueOk;
    ClientKeepsEpoch(s.clients[who], p);
    HearingNewer(s, who, p);
    var after := Hearing(s, who, p).clients[who];
    assert ClientOk(Hearing(s, who, p), after);
    LinkedDelivers(after.near, after.far);
    RetireNothing(p.frame.ack);
  }

  lemma RetireNothing(ack: Seq16)
    ensures Retire(map[], ack) == map[]
  {
  }

  // Restarting keeps the server's own epoch, so what it built for one incarnation
  // looks to the next like its own: were both on one channel, the new one would
  // deliver a message sent to the old. Each needs a channel of its own.
  lemma OneChannelWouldMixIncarnations(server: End, earlier: Epoch, newer: Epoch, maxPayload: nat, message: Bytes)
    requires server == Restart(server, earlier)
    ensures var built := SendFrame(server, message);
            var client := OnFrame(Fresh(maxPayload, newer), built);
            && client.1 == [message]
            && client.0.peerEpoch == Some(SendFrame(Restart(server, newer), message).epoch)
  {
    var e := Adopt(Fresh(maxPayload, newer), server.epoch).(unacked := map[], ackPending := true);
    RetireNothing(0xFFFF);
    assert !Refused(e, 0);
    var early: map<Seq16, Bytes> := map[0 := message];
    assert e.early[0 := message] == early;
    assert Drain(Some(0), early - {0}) == Drained(Some(0), early - {0}, []);
    assert Drain(None, early) == Drained(Some(0), early - {0}, [message]);
  }
}
