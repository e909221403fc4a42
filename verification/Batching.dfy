// Batches of equal-size datagrams, the last perhaps shorter, and the split that
// sends them.

module Batching {
  import opened Basics

  const MAX_BATCH := 32
  const BATCH_BYTES := MAX_BATCH * MAX_PACKET

  datatype Packed = Packed(bytes: Bytes, count: nat, segSize: nat, closed: bool)

  const EMPTY := Packed([], 0, 0, false)

  predicate Refused(r: Packed, pkt: Bytes) {
    || pkt == [] || |pkt| > MAX_PACKET
    || (r.count > 0 && (r.closed || r.count >= MAX_BATCH || |pkt| > r.segSize))
  }

  function Added(r: Packed, pkt: Bytes): Packed {
    var segSize := if r.count == 0 then |pkt| else r.segSize;
    Packed(r.bytes + pkt, r.count + 1, segSize, r.closed || |pkt| < segSize)
  }

  function Split(bytes: Bytes, segSize: nat): seq<Bytes>
    decreases |bytes|
  {
    if bytes == [] then []
    else
      var seg := Min(Max(segSize, 1), |bytes|);
      [bytes[..seg]] + Split(bytes[seg..], segSize)
  }

  function Concat(packets: seq<Bytes>): Bytes {
    if packets == [] then [] else packets[0] + Concat(packets[1..])
  }

  // What a batch may hold: equal sizes, the last perhaps shorter.
  ghost predicate Packs(r: Packed, packets: seq<Bytes>) {
    var n := |packets|;
    && r.bytes == Concat(packets) && r.count == n <= MAX_BATCH && r.segSize <= MAX_PACKET
    && (n == 0 ==> !r.closed)
    && (n > 0 ==> 0 < |packets[n - 1]| <= r.segSize && (r.closed <==> |packets[n - 1]| < r.segSize))
    && (forall k :: 0 <= k < n - 1 ==> |packets[k]| == r.segSize)
  }

  lemma {:induction false} ConcatAppends(packets: seq<Bytes>, pkt: Bytes)
    ensures Concat(packets + [pkt]) == Concat(packets) + pkt
  {
    if packets == [] {
      assert [] + [pkt] == [pkt] && [pkt][1..] == [] && pkt + [] == pkt;
    } else {
      assert (packets + [pkt])[1..] == packets[1..] + [pkt];
      ConcatAppends(packets[1..], pkt);
    }
  }

  lemma {:induction false} ConcatLength(packets: seq<Bytes>, most: nat)
    requires forall k :: 0 <= k < |packets| ==> |packets[k]| <= most
    ensures |Concat(packets)| <= |packets| * most
    decreases |packets|
  {
    if packets != [] {
      ConcatLength(packets[1..], most);
    }
  }

  // A batch never outgrows its buffer.
  lemma PackedFits(r: Packed, packets: seq<Bytes>)
    requires Packs(r, packets)
    ensures |r.bytes| <= r.count * MAX_PACKET <= BATCH_BYTES
  {
    ConcatLength(packets, MAX_PACKET);
  }

  // A packet is refused exactly when the batch with it would not split back.
  lemma RefusalIsExact(r: Packed, packets: seq<Bytes>, pkt: Bytes)
    requires Packs(r, packets)
    ensures Refused(r, pkt) <==> !Packs(Added(r, pkt), packets + [pkt])
  {
    ConcatAppends(packets, pkt);
    var n, more := |packets|, packets + [pkt];
    assert more[n] == pkt && (n > 0 ==> more[n - 1] == packets[n - 1]);
    if !Refused(r, pkt) {
      AddPacks(r, packets, pkt);
    }
  }

  lemma AddPacks(r: Packed, packets: seq<Bytes>, pkt: Bytes)
    requires Packs(r, packets) && !Refused(r, pkt)
    ensures Packs(Added(r, pkt), packets + [pkt])
  {
    ConcatAppends(packets, pkt);
  }

  lemma {:induction false} SplitUndoesConcat(packets: seq<Bytes>, segSize: nat)
    requires forall k :: 0 <= k < |packets| - 1 ==> |packets[k]| == segSize
    requires |packets| > 0 ==> 0 < |packets[|packets| - 1]| <= segSize
    ensures Split(Concat(packets), segSize) == packets
    decreases |packets|
  {
    if |packets| == 1 {
      assert packets[1..] == [] && Concat(packets) == packets[0] + [] == packets[0];
      assert packets == [packets[0]];
    } else if |packets| > 1 {
      var rest := packets[1..];
      SplitUndoesConcat(rest, segSize);
      var bytes := Concat(packets);
      assert bytes[..segSize] == packets[0] && bytes[segSize..] == Concat(rest);
      assert rest[0] != [] && Concat(rest) != [] by { assert |Concat(rest)| >= |rest[0]|; }
      assert packets == [packets[0]] + rest;
    }
  }

  class Batch {
    const buf: array<Byte>
    var len: nat
    var count: nat
    var segSize: nat
    var closed: bool
    ghost var packets: seq<Bytes>

    ghost predicate Valid()
      reads this, buf
    {
      && buf.Length == BATCH_BYTES && len <= buf.Length
      && Packs(State(), packets)
    }

    ghost function State(): Packed
      reads this, buf
    {
      Packed(if len <= buf.Length then buf[..len] else [], count, segSize, closed)
    }

    constructor ()
      ensures Valid() && fresh(buf) && State() == EMPTY && packets == []
    {
      buf := new Byte[BATCH_BYTES](_ => 0);
      len, count, segSize, closed, packets := 0, 0, 0, false, [];
    }

    method TryAdd(pkt: Bytes) returns (added: bool)
      requires Valid()
      modifies this, buf
      ensures Valid() && added == !Refused(old(State()), pkt)
      ensures State() == if added then Added(old(State()), pkt) else old(State())
      ensures packets == if added then old(packets) + [pkt] else old(packets)
    {
      if |pkt| == 0 || |pkt| > MAX_PACKET {
        return false;
      }
      PackedFits(State(), packets);
      if count == 0 {
        segSize := |pkt|;
      } else if closed || count >= MAX_BATCH || |pkt| > segSize {
        return false;
      }
      AddPacks(old(State()), packets, pkt);
      PackedFits(Added(old(State()), pkt), packets + [pkt]);
      hide Packs, Concat;
      Fill(buf, len, pkt);
      len := len + |pkt|;
      count := count + 1;
      if |pkt| < segSize {
        closed := true;
      }
      packets := packets + [pkt];
      assert State() == Added(old(State()), pkt);
      return true;
    }

    static method Fill(to: array<Byte>, start: nat, data: Bytes)
      requires start + |data| <= to.Length
      modifies to
      ensures to[..start + |data|] == old(to[..start]) + data
    {
      for i := 0 to |data|
        invariant to[..start] == old(to[..start]) && to[start..start + i] == data[..i]
      {
        to[start + i] := data[i];
      }
      assert to[..start + |data|] == to[..start] + to[start..start + |data|];
    }

    method Clear()
      requires Valid()
      modifies this
      ensures Valid() && State() == EMPTY && packets == []
    {
      len, count, segSize, closed, packets := 0, 0, 0, false, [];
    }
  }

  // One datagram per chunk of the buffer.
  method SendBatch(bytes: Bytes, segSize: nat) returns (datagrams: seq<Bytes>)
    ensures datagrams == Split(bytes, segSize)
  {
    datagrams := [];
    var at := 0;
    while at < |bytes|
      invariant 0 <= at <= |bytes| && datagrams + Split(bytes[at..], segSize) == Split(bytes, segSize)
    {
      var end := at + Min(Max(segSize, 1), |bytes| - at);
      SplitUnrolls(bytes, at, end, segSize);
      assert (datagrams + [bytes[at..end]]) + Split(bytes[end..], segSize)
             == datagrams + ([bytes[at..end]] + Split(bytes[end..], segSize));
      datagrams := datagrams + [bytes[at..end]];
      at := end;
    }
  }

  lemma SplitUnrolls(bytes: Bytes, at: nat, end: nat, segSize: nat)
    requires at < |bytes| && end == at + Min(Max(segSize, 1), |bytes| - at)
    ensures Split(bytes[at..], segSize) == [bytes[at..end]] + Split(bytes[end..], segSize)
  {
    var rest, seg := bytes[at..], end - at;
    assert rest[..seg] == bytes[at..end] && rest[seg..] == bytes[end..];
  }

  // ---- the send thread -------------------------------------------------------

  // What the wire has had, and what waits in the batch.
  datatype Stream = Stream(wire: seq<Bytes>, run: Packed)

  function Flushed(s: Stream): Stream {
    if s.run.count == 0 then s else Stream(s.wire + Split(s.run.bytes, s.run.segSize), EMPTY)
  }

  function Tried(s: Stream, pkt: Bytes): Stream {
    if Refused(s.run, pkt) then s else s.(run := Added(s.run, pkt))
  }

  // Flush and retry on refusal.
  function Queued(s: Stream, pkt: Bytes): Stream {
    if Refused(s.run, pkt) then Tried(Flushed(s), pkt) else Tried(s, pkt)
  }

  class SendThread {
    const batch: Batch
    var wire: seq<Bytes>

    ghost predicate Valid()
      reads this, batch, batch.buf
    {
      batch.Valid()
    }

    ghost function State(): Stream
      reads this, batch, batch.buf
    {
      Stream(wire, batch.State())
    }

    constructor ()
      ensures Valid() && fresh(batch) && fresh(batch.buf) && State() == Stream([], EMPTY)
    {
      batch := new Batch();
      wire := [];
    }

    method Queue(pkt: Bytes)
      requires Valid()
      modifies this, batch, batch.buf
      ensures Valid() && State() == Queued(old(State()), pkt)
    {
      hide Refused, Added, Split, Packs;
      var added := batch.TryAdd(pkt);
      if !added {
        Flush();
        added := batch.TryAdd(pkt);
      }
    }

    method Flush()
      requires Valid()
      modifies this, batch
      ensures Valid() && State() == Flushed(old(State()))
    {
      if batch.count == 0 {
        return;
      }
      var datagrams := SendBatch(batch.buf[..batch.len], batch.segSize);
      wire := wire + datagrams;
      batch.Clear();
    }
  }

  datatype Event = Sends(pkt: Bytes) | Drained

  function Step(s: Stream, e: Event): Stream {
    if e.Sends? then Queued(s, e.pkt) else Flushed(s)
  }

  function After(s: Stream, events: seq<Event>): Stream
    decreases |events|
  {
    if events == [] then s else After(Step(s, events[0]), events[1..])
  }

  predicate Sendable(pkt: Bytes) {
    0 < |pkt| <= MAX_PACKET
  }

  // The packets given to the thread that a datagram can carry.
  function Sent(events: seq<Event>): seq<Bytes>
    decreases |events|
  {
    if events == [] then []
    else (if events[0].Sends? && Sendable(events[0].pkt) then [events[0].pkt] else []) + Sent(events[1..])
  }

  lemma FlushKeeps(s: Stream, packets: seq<Bytes>)
    requires Packs(s.run, packets)
    ensures Packs(Flushed(s).run, []) && Flushed(s).wire == s.wire + packets
  {
    SplitUndoesConcat(packets, s.run.segSize);
    if packets == [] {
      assert s.wire + packets == s.wire;
    }
  }

  // Whatever is queued joins the wire or the batch behind what was there.
  lemma StepKeeps(s: Stream, e: Event, packets: seq<Bytes>) returns (left: seq<Bytes>)
    requires Packs(s.run, packets)
    ensures Packs(Step(s, e).run, left)
    ensures Step(s, e).wire + left
            == s.wire + packets + if e.Sends? && Sendable(e.pkt) then [e.pkt] else []
  {
    FlushKeeps(s, packets);
    hide Packs, Added, Split;
    assert Flushed(s).run.count == 0 by { EmptyHasNone(Flushed(s).run); }
    if e.Sends? && !Refused(s.run, e.pkt) {
      AddPacks(s.run, packets, e.pkt);
      left := packets + [e.pkt];
      assert s.wire + left == s.wire + packets + [e.pkt];
    } else if e.Sends? && Sendable(e.pkt) {
      AddPacks(Flushed(s).run, [], e.pkt);
      left := [] + [e.pkt];
    } else {
      left := [];
    }
  }

  // A packet joins the batch, and nothing goes out, as long as the batch may hold
  // it: what waits is flushed only for one too many, or too long, or behind a
  // short one, or that no datagram can carry.
  lemma OnlyARefusalFlushes(s: Stream, packets: seq<Bytes>, pkt: Bytes)
    requires Packs(s.run, packets)
    ensures var n := |packets|;
            Queued(s, pkt).wire == s.wire
            <==> n == 0 || (&& Sendable(pkt) && n < MAX_BATCH
                            && |packets[n - 1]| == s.run.segSize && |pkt| <= s.run.segSize)
  {
    FlushKeeps(s, packets);
    hide Split, Concat;
    if packets != [] {
      assert |s.wire + packets| > |s.wire|;
    }
  }

  lemma EmptyHasNone(r: Packed)
    requires Packs(r, [])
    ensures r.count == 0
  {
  }

  lemma {:induction false} RunKeeps(s: Stream, events: seq<Event>, packets: seq<Bytes>) returns (left: seq<Bytes>)
    requires Packs(s.run, packets)
    ensures Packs(After(s, events).run, left)
    ensures After(s, events).wire + left == s.wire + packets + Sent(events)
    decreases |events|
  {
    hide Packs, Step, Sendable, Sent;
    SentUnrolls(events);
    if events == [] {
      left := packets;
      assert s.wire + packets + [] == s.wire + packets;
    } else {
      var now := StepKeeps(s, events[0], packets);
      left := RunKeeps(Step(s, events[0]), events[1..], now);
      var own := if events[0].Sends? && Sendable(events[0].pkt) then [events[0].pkt] else [];
      Regroup(s.wire + packets, own, Sent(events[1..]));
    }
  }

  lemma SentUnrolls(events: seq<Event>)
    ensures Sent(events) ==
            if events == [] then []
            else (if events[0].Sends? && Sendable(events[0].pkt) then [events[0].pkt] else []) + Sent(events[1..])
  {
  }

  /**
   * However packets come and whenever the thread finds its ring dry: flushed, the
   * wire has had exactly the packets a datagram can carry, whole, in order; and
   * no batch ever held more than MAX_BATCH of them or more than its buffer.
   */
  lemma EveryPacketGoesOutWhole(events: seq<Event>)
    ensures var s := After(Stream([], EMPTY), events);
            && Flushed(s).wire == Sent(events)
            && s.run.count <= MAX_BATCH && |s.run.bytes| <= BATCH_BYTES
  {
    var left := RunKeeps(Stream([], EMPTY), events, []);
    var s := After(Stream([], EMPTY), events);
    FlushKeeps(s, left);
    PackedFits(s.run, left);
    assert [] + [] + Sent(events) == Sent(events);
  }
}
