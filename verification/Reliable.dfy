// One end of the reliable control channel: sequence, cumulative ack, retransmit.
//
// `End` is the state of one end and the functions below it are its transitions;
// the class `Reliable` makes the same transitions in place.

module Reliable {
  import opened Basics
  import opened Seq
  import opened Wire

  const WINDOW := 8
  const RETRANSMIT_MS := 200
  const MAX_ATTEMPTS := 8

  datatype Incarnation = First | Same | Newer(epoch: Epoch) | Stale

  datatype Error = WouldBlock | PeerGone | TooLarge(length: nat)

  datatype Result<+T> = Ok(value: T) | Err(error: Error)

  // The frame is kept parsed; `Wire.DecodeEncode` makes that the same as its bytes.
  datatype Outstanding = Outstanding(frame: Frame, sentAt: nat, attempts: nat)

  datatype End = End(
    nextSeq: Seq16,
    ack: Option<Seq16>,
    unacked: map<Seq16, Outstanding>,
    early: map<Seq16, Bytes>,
    ackPending: bool,
    maxPayload: nat,
    epoch: Epoch,
    peerEpoch: Option<Epoch>)

  function Fresh(maxPayload: nat, epoch: Epoch): End {
    End(0, None, map[], map[], false, maxPayload, epoch, None)
  }

  // Before anything is received the field says one less than zero.
  function AckField(ack: Option<Seq16>): Seq16 {
    if ack.Some? then ack.value else 0xFFFF
  }

  function Build(e: End, seqNo: Seq16, payload: Option<Bytes>): Frame {
    Frame(seqNo, AckField(e.ack), e.epoch, payload)
  }

  function Classify(peerEpoch: Option<Epoch>, epoch: Epoch): Incarnation {
    match peerEpoch
    case None => First
    case Some(known) =>
      if epoch == known then Same else if epoch > known then Newer(epoch) else Stale
  }

  function Restart(e: End, peerEpoch: Epoch): End {
    Fresh(e.maxPayload, e.epoch).(peerEpoch := Some(peerEpoch))
  }

  // ---- send ----------------------------------------------------------------

  function SendError(e: End, message: Bytes): Option<Error> {
    if |message| > e.maxPayload then Some(TooLarge(|message|))
    else if |e.unacked| >= WINDOW then Some(WouldBlock)
    else None
  }

  function SendFrame(e: End, message: Bytes): Frame {
    Build(e, e.nextSeq, Some(message))
  }

  function AfterSend(e: End, message: Bytes, now: nat): End {
    e.(nextSeq := Next(e.nextSeq),
       unacked := e.unacked[e.nextSeq := Outstanding(SendFrame(e, message), now, 0)],
       ackPending := false)
  }

  // ---- receive -------------------------------------------------------------

  function Retire(unacked: map<Seq16, Outstanding>, peerAck: Seq16): map<Seq16, Outstanding> {
    map s | s in unacked && IsNewerThan(s, peerAck) :: unacked[s]
  }

  function Want(ack: Option<Seq16>): Seq16 {
    if ack.Some? then Next(ack.value) else 0
  }

  datatype Drained = Drained(ack: Option<Seq16>, early: map<Seq16, Bytes>, ready: seq<Bytes>)

  // Everything now contiguous leaves the holding area.
  function Drain(ack: Option<Seq16>, early: map<Seq16, Bytes>): Drained
    decreases |early|
  {
    var want := Want(ack);
    if want !in early then Drained(ack, early, [])
    else
      assert |early - {want}| < |early| by { Shrinks(early, want); }
      var rest := Drain(Some(want), early - {want});
      rest.(ready := [early[want]] + rest.ready)
  }

  lemma Shrinks<V>(m: map<Seq16, V>, k: Seq16)
    requires k in m
    ensures |m - {k}| == |m| - 1
  {
    assert (m - {k}).Keys == m.Keys - {k};
    assert |m| == |m.Keys| && |m - {k}| == |(m - {k}).Keys|;
  }

  function After(ready: seq<Bytes>, d: Drained): Drained {
    d.(ready := ready + d.ready)
  }

  // One turn of the loop that drains.
  lemma DrainOne(ready: seq<Bytes>, ack: Option<Seq16>, early: map<Seq16, Bytes>)
    requires Want(ack) in early
    ensures |early - {Want(ack)}| < |early|
    ensures After(ready, Drain(ack, early))
            == After(ready + [early[Want(ack)]], Drain(Some(Want(ack)), early - {Want(ack)}))
  {
    Shrinks(early, Want(ack));
    var rest := Drain(Some(Want(ack)), early - {Want(ack)});
    assert ready + ([early[Want(ack)]] + rest.ready) == ready + [early[Want(ack)]] + rest.ready;
  }

  function Adopt(e: End, epoch: Epoch): End {
    if e.peerEpoch.None? then e.(peerEpoch := Some(epoch)) else e
  }

  // Behind what was delivered, held already, or out of reach: acked again, not kept.
  predicate Refused(e: End, seqNo: Seq16) {
    || (e.ack.Some? && !IsNewerThan(seqNo, e.ack.value))
    || seqNo in e.early
    || DistanceFrom(seqNo, Want(e.ack)) >= WINDOW
  }

  function Accept(e: End, seqNo: Seq16, payload: Bytes): (End, seq<Bytes>) {
    if Refused(e, seqNo) then (e, [])
    else
      var d := Drain(e.ack, e.early[seqNo := payload]);
      (e.(ack := d.ack, early := d.early), d.ready)
  }

  function OnFrame(e: End, f: Frame): (End, seq<Bytes>) {
    if Classify(e.peerEpoch, f.epoch).Stale? then (e, [])
    else
      var retired := Adopt(e, f.epoch).(unacked := Retire(e.unacked, f.ack));
      if f.payload.None? then (retired, [])
      else Accept(retired.(ackPending := true), f.seqNo, f.payload.value)
  }

  // ---- tick ----------------------------------------------------------------

  predicate Due(o: Outstanding, now: nat) {
    now >= o.sentAt + RETRANSMIT_MS
  }

  predicate Exhausted(o: Outstanding, now: nat) {
    Due(o, now) && o.attempts + 1 >= MAX_ATTEMPTS
  }

  ghost predicate PeerIsGone(e: End, now: nat) {
    exists s :: s in e.unacked && Exhausted(e.unacked[s], now)
  }

  // A resend is rebuilt, so that it carries the current ack.
  function Resend(e: End, o: Outstanding, now: nat): Outstanding {
    Outstanding(Build(e, o.frame.seqNo, o.frame.payload), now, o.attempts + 1)
  }

  function Refresh(e: End, o: Outstanding, now: nat): Outstanding {
    if Due(o, now) then Resend(e, o, now) else o
  }

  function Refreshed(e: End, now: nat): map<Seq16, Outstanding> {
    map s | s in e.unacked :: Refresh(e, e.unacked[s], now)
  }

  // The frames resent for the entries below `bound`, in key order.
  function Resent(e: End, now: nat, bound: nat): seq<Frame>
    requires bound <= SPAN
  {
    if bound == 0 then []
    else if bound - 1 in e.unacked && Due(e.unacked[bound - 1], now) then
      Resent(e, now, bound - 1) + [Resend(e, e.unacked[bound - 1], now).frame]
    else Resent(e, now, bound - 1)
  }

  function BareAck(e: End): Frame {
    Build(e, e.nextSeq, None)
  }

  predicate OwesBareAck(e: End, now: nat) {
    e.ackPending && Resent(e, now, SPAN) == []
  }

  function TickFrames(e: End, now: nat): seq<Frame> {
    if OwesBareAck(e, now) then [BareAck(e)] else Resent(e, now, SPAN)
  }

  function AfterTick(e: End, now: nat): End {
    e.(unacked := Refreshed(e, now), ackPending := e.ackPending && !OwesBareAck(e, now))
  }

  // A frame is resent exactly when its entry is due.
  lemma {:induction false} ResentAreTheDue(e: End, now: nat, bound: nat, f: Frame)
    requires bound <= SPAN
    ensures f in Resent(e, now, bound) <==>
            exists s :: s in e.unacked && s < bound && Due(e.unacked[s], now) && f == Resend(e, e.unacked[s], now).frame
  {
    if bound > 0 {
      ResentAreTheDue(e, now, bound - 1, f);
    }
  }

  // Where a tick that finds the peer gone stops: entries before the first
  // exhausted one (in key order) were refreshed, that one counted its attempt.
  ghost predicate StoppedAt(e: End, now: nat, s: Seq16, unacked: map<Seq16, Outstanding>) {
    && s in e.unacked && Exhausted(e.unacked[s], now)
    && (forall k :: k in e.unacked && k < s ==> !Exhausted(e.unacked[k], now))
    && unacked.Keys == e.unacked.Keys
    && forall k :: k in e.unacked ==>
         unacked[k] == if k < s then Refresh(e, e.unacked[k], now)
                       else if k == s then e.unacked[k].(attempts := e.unacked[k].attempts + 1)
                       else e.unacked[k]
  }

  // ---- the object ----------------------------------------------------------

  class Reliable {
    var nextSeq: Seq16
    var ack: Option<Seq16>
    var unacked: map<Seq16, Outstanding>
    var early: map<Seq16, Bytes>
    var ackPending: bool
    const maxPayload: nat
    const epoch: Epoch
    var peerEpoch: Option<Epoch>

    ghost function State(): End
      reads this
    {
      End(nextSeq, ack, unacked, early, ackPending, maxPayload, epoch, peerEpoch)
    }

    constructor WithEpoch(maxPayload: nat, epoch: Epoch)
      ensures State() == Fresh(maxPayload, epoch)
    {
      nextSeq, ack, unacked, early, ackPending := 0, None, map[], map[], false;
      this.maxPayload, this.epoch, peerEpoch := maxPayload, epoch, None;
    }

    function IncarnationOf(frame: Bytes): Option<Incarnation>
      reads this
    {
      var f := Decode(frame);
      if f.None? then None else Some(Classify(peerEpoch, f.value.epoch))
    }

    method RestartFor(peerEpoch: Epoch)
      modifies this
      ensures State() == Restart(old(State()), peerEpoch)
    {
      nextSeq := 0;
      ack := None;
      unacked := map[];
      early := map[];
      ackPending := false;
      this.peerEpoch := Some(peerEpoch);
    }

    method TakeAck() returns (frame: Option<Bytes>)
      modifies this
      ensures State() == old(State()).(ackPending := false)
      ensures frame == if old(ackPending) then Some(Encode(BareAck(old(State())))) else None
    {
      if !ackPending {
        return None;
      }
      ackPending := false;
      frame := Some(Encode(Frame(nextSeq, AckField(ack), epoch, None)));
    }

    method Send(message: Bytes, now: nat) returns (r: Result<Bytes>)
      modifies this
      ensures match SendError(old(State()), message)
              case Some(error) => r == Err(error) && State() == old(State())
              case None =>
                && r == Ok(Encode(SendFrame(old(State()), message)))
                && State() == AfterSend(old(State()), message, now)
    {
      if |message| > maxPayload {
        return Err(TooLarge(|message|));
      }
      if |unacked| >= WINDOW {
        return Err(WouldBlock);
      }
      var seqNo := nextSeq;
      nextSeq := Next(seqNo);
      var frame := Frame(seqNo, AckField(ack), epoch, Some(message));
      unacked := unacked[seqNo := Outstanding(frame, now, 0)];
      ackPending := false;
      return Ok(Encode(frame));
    }

    method Receive(frame: Bytes) returns (ready: seq<Bytes>)
      modifies this
      ensures match Decode(frame)
              case None => ready == [] && State() == old(State())
              case Some(f) => (State(), ready) == OnFrame(old(State()), f)
    {
      ready := [];
      var parsed := Decode(frame);
      if parsed.None? {
        return;
      }
      var f := parsed.value;
      match Classify(peerEpoch, f.epoch) {
        case Stale => return;
        case First => peerEpoch := Some(f.epoch);
        case Same =>
        case Newer(_) =>
      }

      unacked := map s | s in unacked && IsNewerThan(s, f.ack) :: unacked[s];
      assert unacked == Retire(old(unacked), f.ack);
      if f.payload.None? {
        return;
      }
      ackPending := true;
      if ack.Some? && !IsNewerThan(f.seqNo, ack.value) {
        return;
      }
      if f.seqNo in early {
        return;
      }
      var want := if ack.Some? then Next(ack.value) else 0;
      if DistanceFrom(f.seqNo, want) >= WINDOW {
        return;
      }
      early := early[f.seqNo := f.payload.value];
      ready := DrainInOrder();
    }

    method DrainInOrder() returns (ready: seq<Bytes>)
      modifies this
      ensures var d := Drain(old(ack), old(early));
              && ready == d.ready
              && State() == old(State()).(ack := d.ack, early := d.early)
    {
      ready := [];
      while true
        invariant State() == old(State()).(ack := ack, early := early)
        invariant Drain(old(ack), old(early)) == After(ready, Drain(ack, early))
        decreases |early|
      {
        var want := if ack.Some? then Next(ack.value) else 0;
        if want !in early {
          break;
        }
        DrainOne(ready, ack, early);
        var payload := early[want];
        early := early - {want};
        ack := Some(want);
        ready := ready + [payload];
      }
    }

    // The ordered walk of the retransmit table is a walk over the key space.
    method Tick(now: nat) returns (r: Result<seq<Bytes>>)
      modifies this
      ensures r.Ok? <==> !PeerIsGone(old(State()), now)
      ensures match r
              case Ok(frames) =>
                && State() == AfterTick(old(State()), now)
                && frames == EncodeAll(TickFrames(old(State()), now))
              case Err(error) =>
                && error == PeerGone
                && State() == old(State()).(unacked := unacked)
                && exists s :: StoppedAt(old(State()), now, s, unacked)
    {
      hide WalkedTo, StoppedAt;
      ghost var was := State();
      var out: seq<Bytes> := [];
      WalkBegins(was, now);
      for k := 0 to SPAN
        invariant State() == was.(unacked := unacked)
        invariant WalkedTo(was, now, k, unacked)
        invariant out == EncodeAll(Resent(was, now, k))
      {
        WalkPasses(was, now, k, unacked);
        if k in unacked && Due(unacked[k], now) {
          var entry := unacked[k];
          if entry.attempts + 1 >= MAX_ATTEMPTS {
            unacked := unacked[k := entry.(attempts := entry.attempts + 1)];
            return Err(PeerGone);
          }
          var frame := Frame(entry.frame.seqNo, AckField(ack), epoch, entry.frame.payload);
          unacked := unacked[k := Outstanding(frame, now, entry.attempts + 1)];
          out := out + [Encode(frame)];
        }
      }
      WalkEnds(was, now, unacked);
      if ackPending && out == [] {
        ackPending := false;
        out := out + [Encode(Frame(nextSeq, AckField(ack), epoch, None))];
      }
      return Ok(out);
    }
  }

  // The walk has passed the keys below `k` and none of them was exhausted.
  ghost predicate WalkedTo(e: End, now: nat, k: int, unacked: map<Seq16, Outstanding>) {
    && unacked.Keys == e.unacked.Keys
    && (forall s :: s in e.unacked && s < k ==> !Exhausted(e.unacked[s], now))
    && (forall s :: s in e.unacked && s < k ==> unacked[s] == Refresh(e, e.unacked[s], now))
    && (forall s :: s in e.unacked && s >= k ==> unacked[s] == e.unacked[s])
  }

  lemma WalkBegins(e: End, now: nat)
    ensures WalkedTo(e, now, 0, e.unacked)
  {
  }

  lemma WalkPasses(e: End, now: nat, k: Seq16, unacked: map<Seq16, Outstanding>)
    requires WalkedTo(e, now, k, unacked)
    ensures k in unacked <==> k in e.unacked
    ensures k in unacked ==> unacked[k] == e.unacked[k]
    ensures k in unacked && Due(unacked[k], now) && !Exhausted(unacked[k], now) ==>
              WalkedTo(e, now, k + 1, unacked[k := Resend(e, unacked[k], now)])
    ensures k in unacked && Exhausted(unacked[k], now) ==>
              StoppedAt(e, now, k, unacked[k := unacked[k].(attempts := unacked[k].attempts + 1)])
    ensures !(k in unacked && Due(unacked[k], now)) ==> WalkedTo(e, now, k + 1, unacked)
  {
  }

  lemma WalkEnds(e: End, now: nat, unacked: map<Seq16, Outstanding>)
    requires WalkedTo(e, now, SPAN, unacked)
    ensures unacked == Refreshed(e, now) && !PeerIsGone(e, now)
  {
  }

  function EncodeAll(frames: seq<Frame>): (out: seq<Bytes>)
    ensures |out| == |frames|
  {
    seq(|frames|, i requires 0 <= i < |frames| => Encode(frames[i]))
  }
}
