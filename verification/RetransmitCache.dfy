// What a NACK can still be answered with: a ring of packets and a frame table over
// it, against a plain log of what was sent.

module RetransmitCache {
  import opened Basics
  import opened Cursors
  import opened Seq

  const SLOT_BYTES := MAX_PACKET
  const FRAME_TABLE := 64
  const VIDEO := 0
  const LAST_TYPE := 8

  function Word(low: Byte, high: Byte): Seq16 {
    var l: int, h: int := low, high;
    l + 256 * h
  }

  datatype Header = Header(packetType: Byte, frameId: Seq16, pktIdx: Seq16)

  // The fields the cache reads; None for a runt or an unknown type.
  function DecodeHeader(b: Bytes): Option<Header> {
    if |b| < HEADER_LEN || b[0] > LAST_TYPE then None
    else Some(Header(b[0], Word(b[2], b[3]), Word(b[8], b[9])))
  }

  datatype FrameEntry = FrameEntry(frameId: Seq16, first: nat, count: Seq16, valid: bool)

  // A slot is its bytes up to its recorded length; empty until written.
  datatype Cache = Cache(ring: seq<Bytes>, write: nat, frames: seq<FrameEntry>, stored: nat, hits: nat, misses: nat)

  predicate CacheOk(c: Cache) {
    |c.ring| >= 2 && c.write < |c.ring| && |c.frames| == FRAME_TABLE
  }

  function NewCache(slots: nat): (c: Cache)
    ensures CacheOk(c)
  {
    Cache(seq(Max(slots, 2), i => []), 0, seq(FRAME_TABLE, i => FrameEntry(0, 0, 0, false)), 0, 0, 0)
  }

  predicate Accepted(packet: Bytes) {
    var header := DecodeHeader(packet);
    header.Some? && header.value.packetType == VIDEO && |packet| <= SLOT_BYTES
  }

  function EntryFor(c: Cache, header: Header): FrameEntry
    requires CacheOk(c)
  {
    var entry := c.frames[header.frameId % FRAME_TABLE];
    var mine :=
      if !entry.valid || entry.frameId != header.frameId then FrameEntry(header.frameId, c.write, 0, true) else entry;
    mine.(count := Max(mine.count, Next(header.pktIdx)))
  }

  function Store(c: Cache, packet: Bytes): (c': Cache)
    requires CacheOk(c)
    ensures CacheOk(c') && |c'.ring| == |c.ring|
  {
    if !Accepted(packet) then c
    else
      var header := DecodeHeader(packet).value;
      c.(frames := c.frames[header.frameId % FRAME_TABLE := EntryFor(c, header)],
         ring := c.ring[c.write := packet],
         write := (c.write + 1) % |c.ring|,
         stored := c.stored + 1)
  }

  function Lookup(c: Cache, frameId: Seq16, pktIdx: Seq16): Option<Bytes>
    requires CacheOk(c)
  {
    var entry := c.frames[frameId % FRAME_TABLE];
    if !entry.valid || entry.frameId != frameId || pktIdx >= entry.count then None
    else
      var packet := c.ring[(entry.first + pktIdx) % |c.ring|];
      var header := DecodeHeader(packet);
      if header.Some? && header.value.frameId == frameId && header.value.pktIdx == pktIdx then Some(packet) else None
  }

  function Get(c: Cache, frameId: Seq16, pktIdx: Seq16): Cache
    requires CacheOk(c)
  {
    if Lookup(c, frameId, pktIdx).Some? then c.(hits := c.hits + 1) else c.(misses := c.misses + 1)
  }

  class Retransmits {
    const ring: array<Bytes>
    var write: nat
    const frames: array<FrameEntry>
    var stored: nat
    var hits: nat
    var misses: nat

    ghost predicate Valid()
      reads this
    {
      ring.Length >= 2 && write < ring.Length && frames.Length == FRAME_TABLE
    }

    ghost function State(): (c: Cache)
      reads this, ring, frames
      requires Valid()
      ensures CacheOk(c)
    {
      Cache(ring[..], write, frames[..], stored, hits, misses)
    }

    constructor (slots: nat)
      ensures Valid() && fresh(ring) && fresh(frames) && State() == NewCache(slots)
    {
      ring := new Bytes[Max(slots, 2)](_ => []);
      frames := new FrameEntry[FRAME_TABLE](_ => FrameEntry(0, 0, 0, false));
      write, stored, hits, misses := 0, 0, 0, 0;
      new;
      assert ring[..] == NewCache(slots).ring && frames[..] == NewCache(slots).frames;
    }

    method StorePacket(packet: Bytes)
      requires Valid()
      modifies this, ring, frames
      ensures Valid() && State() == Store(old(State()), packet)
    {
      var header := DecodeHeader(packet);
      if header.None? {
        return;
      }
      if header.value.packetType != VIDEO || |packet| > SLOT_BYTES {
        return;
      }
      var index := header.value.frameId % FRAME_TABLE;
      var entry := frames[index];
      if !entry.valid || entry.frameId != header.value.frameId {
        entry := FrameEntry(header.value.frameId, write, 0, true);
      }
      frames[index] := entry.(count := Max(entry.count, Next(header.value.pktIdx)));
      ring[write] := packet;
      write := (write + 1) % ring.Length;
      stored := stored + 1;
    }

    method Fetch(frameId: Seq16, pktIdx: Seq16) returns (packet: Option<Bytes>)
      requires Valid()
      modifies this`hits, this`misses
      ensures Valid() && packet == Lookup(old(State()), frameId, pktIdx)
      ensures State() == Get(old(State()), frameId, pktIdx)
    {
      var entry := frames[frameId % FRAME_TABLE];
      if !entry.valid || entry.frameId != frameId || pktIdx >= entry.count {
        misses := misses + 1;
        return None;
      }
      var held := ring[(entry.first + pktIdx) % ring.Length];
      var header := DecodeHeader(held);
      if header.Some? && header.value.frameId == frameId && header.value.pktIdx == pktIdx {
        hits := hits + 1;
        return Some(held);
      }
      misses := misses + 1;
      return None;
    }
  }

  // ---- the plain log ---------------------------------------------------------

  // The packets sent, frame by frame: frame `f` has the id `Wrap(base + f)` and
  // its packets the indices 0, 1, 2 and on, as the packetizer numbers them.
  type Packets = s: seq<Bytes> | |s| < 0x1_0000
  type Log = seq<Packets>

  function IdOf(base: Seq16, f: int): Seq16 {
    Wrap(base + f)
  }

  // How many packets came before frame `f`.
  function Start(log: Log, f: nat): nat
    requires f <= |log|
  {
    if f == 0 then 0 else Start(log, f - 1) + |log[f - 1]|
  }

  function Total(log: Log): nat {
    Start(log, |log|)
  }

  ghost predicate Is(packet: Bytes, frameId: Seq16, pktIdx: int) {
    Accepted(packet) && DecodeHeader(packet).value.frameId == frameId && DecodeHeader(packet).value.pktIdx == pktIdx
  }

  ghost predicate FrameOk(base: Seq16, f: int, packets: Packets) {
    0 < |packets| && forall i :: 0 <= i < |packets| ==> Is(packets[i], IdOf(base, f), i)
  }

  ghost predicate LogOk(base: Seq16, log: Log) {
    forall f :: 0 <= f < |log| ==> FrameOk(base, f, log[f])
  }

  // The frame among the newest FRAME_TABLE whose id is `frameId`, if one is.
  function Candidate(base: Seq16, log: Log, frameId: Seq16): int {
    |log| - 1 - (IdOf(base, |log| - 1) - frameId) % SPAN
  }

  /** Among the last `slots` packets and the newest FRAME_TABLE frames. */
  function Find(base: Seq16, log: Log, slots: nat, frameId: Seq16, pktIdx: Seq16): Option<Bytes> {
    var f := Candidate(base, log, frameId);
    if f >= 0 && |log| - f <= FRAME_TABLE && pktIdx < |log[f]| && Total(log) - (Start(log, f) + pktIdx) <= slots
    then Some(log[f][pktIdx]) else None
  }

  // Where in the log position `p` lies.
  function Locate(log: Log, f: nat, p: nat): (r: (nat, nat))
    requires f <= |log| && p < Start(log, f)
    ensures r.0 < f && r.1 < |log[r.0]| && Start(log, r.0) + r.1 == p
  {
    if p >= Start(log, f - 1) then (f - 1, p - Start(log, f - 1)) else Locate(log, f - 1, p)
  }

  function At(log: Log, p: nat): Bytes
    requires p < Total(log)
  {
    var (f, i) := Locate(log, |log|, p);
    log[f][i]
  }

  function Index(base: Seq16, f: int): (t: nat)
    ensures t < FRAME_TABLE
  {
    IdOf(base, f) % FRAME_TABLE
  }

  // The newest frame, perhaps a negative one, whose entry is at `t`.
  function Holder(base: Seq16, n: nat, t: nat): (f: int)
    requires t < FRAME_TABLE
    ensures n - FRAME_TABLE <= f < n
  {
    n - 1 - (Index(base, n - 1) - t) % FRAME_TABLE
  }

  // The table divides the id space, so the wrap does not show in an index.
  lemma IndexIs(base: Seq16, f: int)
    ensures Index(base, f) == (base + f) % FRAME_TABLE
  {
    var x := base + f;
    var q, r := x / SPAN, x % SPAN;
    assert x == FRAME_TABLE * (1024 * q + r / FRAME_TABLE) + r % FRAME_TABLE;
    RemainderIs(x, FRAME_TABLE, 1024 * q + r / FRAME_TABLE, r % FRAME_TABLE);
  }

  lemma HolderHolds(base: Seq16, n: nat, t: nat)
    requires t < FRAME_TABLE
    ensures Index(base, Holder(base, n, t)) == t
  {
    var x, h := base + n - 1, Holder(base, n, t);
    IndexIs(base, n - 1);
    IndexIs(base, h);
    hide Index;
    var q := x / FRAME_TABLE + (x % FRAME_TABLE - t) / FRAME_TABLE;
    assert base + h == FRAME_TABLE * q + t;
    RemainderIs(base + h, FRAME_TABLE, q, t);
  }

  lemma IndexTells(base: Seq16, f: int, g: int)
    requires -FRAME_TABLE < f - g < FRAME_TABLE
    ensures Index(base, f) == Index(base, g) <==> f == g
  {
    IndexIs(base, f);
    IndexIs(base, g);
    hide Index;
    var x, y := base + f, base + g;
    if x % FRAME_TABLE == y % FRAME_TABLE {
      assert x - y == FRAME_TABLE * (x / FRAME_TABLE - y / FRAME_TABLE);
      OnlyZeroIsSmall(FRAME_TABLE, x / FRAME_TABLE - y / FRAME_TABLE);
    }
  }

  ghost predicate TableOk(c: Cache, base: Seq16, log: Log)
    requires CacheOk(c)
  {
    && (forall f: nat :: |log| - FRAME_TABLE <= f < |log| ==>
          c.frames[Index(base, f)] == FrameEntry(IdOf(base, f), Start(log, f) % |c.ring|, |log[f]|, true))
    && (forall t: nat :: t < FRAME_TABLE && Holder(base, |log|, t) < 0 ==> !c.frames[t].valid)
  }

  ghost predicate RingOk(c: Cache, log: Log)
    requires CacheOk(c)
  {
    && c.write == Total(log) % |c.ring|
    && (forall p: nat :: Total(log) - |c.ring| <= p < Total(log) ==> c.ring[p % |c.ring|] == At(log, p))
  }

  ghost predicate Tracks(c: Cache, base: Seq16, log: Log) {
    CacheOk(c) && LogOk(base, log) && TableOk(c, base, log) && RingOk(c, log)
  }

  // ---- looking up ------------------------------------------------------------

  lemma {:induction false} LocateIs(log: Log, f: nat, g: nat, i: nat)
    requires g < f <= |log| && i < |log[g]|
    ensures Start(log, g) + i < Start(log, f) && Locate(log, f, Start(log, g) + i) == (g, i)
    decreases f
  {
    if g < f - 1 {
      LocateIs(log, f - 1, g, i);
    }
  }

  // Later positions hold later frames, or later packets of the same one.
  lemma {:induction false} LaterStarts(log: Log, f: nat, g: nat)
    requires f < g <= |log|
    ensures Start(log, f) + |log[f]| <= Start(log, g)
    decreases g
  {
    if f < g - 1 {
      LaterStarts(log, f, g - 1);
    }
  }

  // The packet now in a slot an aged-out one had is not taken for it.
  lemma OtherPacketDiffers(base: Seq16, log: Log, g: nat, i: nat, p: nat)
    requires LogOk(base, log) && g < |log| < g + SPAN && i < |log[g]|
    requires Start(log, g) + i < p < Total(log)
    ensures !Is(At(log, p), IdOf(base, g), i)
  {
    hide FrameOk, Is;
    var (f, j) := Locate(log, |log|, p);
    assert Is(log[f][j], IdOf(base, f), j) by { PacketIs(base, log, f, j); }
    if f < g {
      LaterStarts(log, f, g);
      assert false;
    }
    WrapInjective(base + f, base + g);
    IsOne(log[f][j], IdOf(base, f), j, IdOf(base, g), i);
  }

  lemma PacketIs(base: Seq16, log: Log, f: nat, j: nat)
    requires LogOk(base, log) && f < |log| && j < |log[f]|
    ensures Is(log[f][j], IdOf(base, f), j)
  {
    assert FrameOk(base, f, log[f]);
  }

  lemma IsOne(packet: Bytes, frameId: Seq16, pktIdx: int, frameId': Seq16, pktIdx': int)
    requires Is(packet, frameId, pktIdx)
    ensures Is(packet, frameId', pktIdx') <==> frameId == frameId' && pktIdx == pktIdx'
  {
  }

  // The last position sharing a slot with `p`.
  lemma Latest(p: nat, total: nat, slots: nat) returns (q: nat)
    requires slots > 0 && p < total
    ensures p <= q < total && total - slots <= q && q % slots == p % slots
    ensures total - p > slots ==> p < q
    decreases total - p
  {
    if total - p <= slots {
      q := p;
    } else {
      RemainderIs(p + slots, slots, p / slots + 1, p % slots);
      q := Latest(p + slots, total, slots);
    }
  }

  lemma CandidateIsHolder(base: Seq16, log: Log, frameId: Seq16)
    ensures var f, g := Candidate(base, log, frameId), Holder(base, |log|, frameId % FRAME_TABLE);
            |log| - f <= FRAME_TABLE || IdOf(base, g) == frameId ==> f == g && IdOf(base, g) == frameId
  {
    var f, g := Candidate(base, log, frameId), Holder(base, |log|, frameId % FRAME_TABLE);
    HolderHolds(base, |log|, frameId % FRAME_TABLE);
    CandidateHasId(base, |log|, frameId, f);
    hide Holder;
    if |log| - f <= FRAME_TABLE {
      assert Index(base, f) == frameId % FRAME_TABLE;
      IndexTells(base, f, g);
    } else if IdOf(base, g) == frameId {
      WrapInjective(base + f, base + g);
    }
  }

  lemma CandidateHasId(base: Seq16, n: nat, frameId: Seq16, f: int)
    requires f == n - 1 - (IdOf(base, n - 1) - frameId) % SPAN
    ensures IdOf(base, f) == frameId && n - SPAN <= f < n
  {
    var x, d := base + n - 1, (IdOf(base, n - 1) - frameId) % SPAN;
    var q := x / SPAN + (x % SPAN - frameId) / SPAN;
    assert x - d == SPAN * q + frameId;
    RemainderIs(x - d, SPAN, q, frameId);
  }

  /** The cache finds exactly what the plain log has. */
  lemma LookupIsFind(c: Cache, base: Seq16, log: Log, frameId: Seq16, pktIdx: Seq16)
    requires Tracks(c, base, log)
    ensures Lookup(c, frameId, pktIdx) == Find(base, log, |c.ring|, frameId, pktIdx)
  {
    hide Candidate, Holder, Index, LogOk, Start, At;
    var t := frameId % FRAME_TABLE;
    var g := Holder(base, |log|, t);
    HolderHolds(base, |log|, t);
    CandidateIsHolder(base, log, frameId);
    if g >= 0 && IdOf(base, g) == frameId && pktIdx < |log[g]| {
      assert c.frames[t] == c.frames[Index(base, g)];
      SlotOfPacket(c, base, log, g, pktIdx);
    }
  }

  lemma SlotOfPacket(c: Cache, base: Seq16, log: Log, g: nat, i: nat)
    requires Tracks(c, base, log) && g < |log| <= g + FRAME_TABLE && i < |log[g]|
    ensures var at := (Start(log, g) % |c.ring| + i) % |c.ring|;
            var p := Start(log, g) + i;
            && (Total(log) - p <= |c.ring| ==> c.ring[at] == log[g][i] && Is(log[g][i], IdOf(base, g), i))
            && (Total(log) - p > |c.ring| ==> Accepted(c.ring[at]) && !Is(c.ring[at], IdOf(base, g), i))
  {
    hide TableOk, LogOk, Start, Accepted, Is;
    var p, slots := Start(log, g) + i, |c.ring|;
    AdvanceWrapped(Start(log, g), i, slots);
    LocateIs(log, |log|, g, i);
    PacketIs(base, log, g, i);
    var q := Latest(p, Total(log), slots);
    assert c.ring[q % slots] == At(log, q);
    if p < q {
      OtherPacketDiffers(base, log, g, i, q);
      var (f, j) := Locate(log, |log|, q);
      PacketIs(base, log, f, j);
      IsAccepted(At(log, q), IdOf(base, f), j);
    }
  }

  lemma IsAccepted(packet: Bytes, frameId: Seq16, pktIdx: int)
    requires Is(packet, frameId, pktIdx)
    ensures Accepted(packet)
  {
  }

  // ---- storing ---------------------------------------------------------------

  // The packetizer's next packet: the first of a new frame, or the next of the
  // frame it is on.
  predicate CanSend(log: Log, begins: bool) {
    begins || (|log| > 0 && |log[|log| - 1]| + 1 < SPAN)
  }

  function Sent(log: Log, packet: Bytes, begins: bool): Log
    requires CanSend(log, begins)
  {
    if begins then log + [[packet]] else log[|log| - 1 := log[|log| - 1] + [packet]]
  }

  lemma {:induction false} StartStays(log: Log, packet: Bytes, begins: bool, f: nat)
    requires CanSend(log, begins) && f <= |log| && (begins || f < |log|)
    ensures Start(Sent(log, packet, begins), f) == Start(log, f)
    decreases f
  {
    if f > 0 {
      StartStays(log, packet, begins, f - 1);
    }
  }

  lemma SentAppends(log: Log, packet: Bytes, begins: bool, p: nat)
    requires CanSend(log, begins) && p <= Total(log)
    ensures var log' := Sent(log, packet, begins);
            Total(log') == Total(log) + 1 && At(log', p) == if p < Total(log) then At(log, p) else packet
  {
    hide Start;
    var log' := Sent(log, packet, begins);
    var last := |log'| - 1;
    StartStays(log, packet, begins, last);
    StartUnfolds(log', last);
    if !begins {
      StartUnfolds(log, last);
    }
    if p < Total(log) {
      var (f, i) := Locate(log, |log|, p);
      StartStays(log, packet, begins, f);
      LocateIs(log', |log'|, f, i);
    } else {
      LocateIs(log', |log'|, last, |log'[last]| - 1);
    }
  }

  lemma StartUnfolds(log: Log, f: nat)
    requires f < |log|
    ensures Start(log, f + 1) == Start(log, f) + |log[f]|
  {
  }

  lemma RingKeeps(c: Cache, base: Seq16, log: Log, packet: Bytes, begins: bool)
    requires CacheOk(c) && RingOk(c, log) && Accepted(packet) && CanSend(log, begins)
    ensures RingOk(Store(c, packet), Sent(log, packet, begins))
  {
    hide Accepted, Start, At, Sent;
    var n, slots := Total(log), |c.ring|;
    var c', log' := Store(c, packet), Sent(log, packet, begins);
    SentAppends(log, packet, begins, n);
    AdvanceWrapped(n, 1, slots);
    forall p: nat | Total(log') - slots <= p < Total(log')
      ensures c'.ring[p % slots] == At(log', p)
    {
      SentAppends(log, packet, begins, p);
      if p < n {
        SlotsDiffer(p, n, slots);
      }
    }
  }

  // The packet is the newest of the newest frame once sent.
  ghost predicate IsNewest(base: Seq16, log: Log, packet: Bytes, begins: bool) {
    CanSend(log, begins) &&
    var log' := Sent(log, packet, begins);
    Is(packet, IdOf(base, |log'| - 1), |log'[|log'| - 1]| - 1)
  }

  lemma NewestEntry(c: Cache, base: Seq16, log: Log, packet: Bytes, begins: bool)
    requires CacheOk(c) && TableOk(c, base, log) && RingOk(c, log) && IsNewest(base, log, packet, begins)
    ensures var log' := Sent(log, packet, begins);
            var last := |log'| - 1;
            && Accepted(packet) && DecodeHeader(packet).value.frameId == IdOf(base, last)
            && EntryFor(c, DecodeHeader(packet).value)
               == FrameEntry(IdOf(base, last), Start(log', last) % |c.ring|, |log'[last]|, true)
  {
    hide Start, At, Holder, Index, IdOf, DecodeHeader, Next, Max;
    var last := |Sent(log, packet, begins)| - 1;
    IndexUnfolds(base, last);
    StartStays(log, packet, begins, last);
    OneMoreCounted(|Sent(log, packet, begins)[last]| - 1);
    if begins {
      NoneHasNewId(c, base, log);
    } else {
      assert c.frames[Index(base, last)]
             == FrameEntry(IdOf(base, last), Start(log, last) % |c.ring|, |log[last]|, true);
    }
  }

  lemma OneMoreCounted(n: nat)
    requires n + 1 < SPAN
    ensures Max(n, Next(n)) == n + 1 && Max(0, Next(n)) == n + 1
  {
  }

  lemma IsNewestIsNext(base: Seq16, log: Log, packet: Bytes, begins: bool)
    requires IsNewest(base, log, packet, begins)
    ensures CanSend(log, begins) && |Sent(log, packet, begins)| - 1 == |log| - (if begins then 0 else 1)
  {
  }

  lemma OlderStay(log: Log, packet: Bytes, begins: bool, f: nat)
    requires CanSend(log, begins) && f < |Sent(log, packet, begins)| - 1
    ensures f < |log| && Sent(log, packet, begins)[f] == log[f]
    ensures |Sent(log, packet, begins)| == if begins then |log| + 1 else |log|
  {
  }

  lemma TableKeeps(c: Cache, base: Seq16, log: Log, packet: Bytes, begins: bool)
    requires CacheOk(c) && TableOk(c, base, log) && RingOk(c, log) && IsNewest(base, log, packet, begins)
    ensures TableOk(Store(c, packet), base, Sent(log, packet, begins))
  {
    NewestEntry(c, base, log, packet, begins);
    hide Start, At, Holder, Index, IdOf, RingOk, IsNewest, Accepted, DecodeHeader, EntryFor;
    var log' := Sent(log, packet, begins);
    var last, slots := |log'| - 1, |c.ring|;
    assert last == |log| - (if begins then 0 else 1) && CanSend(log, begins) by {
      IsNewestIsNext(base, log, packet, begins);
    }
    hide Sent, CanSend;
    var t := Index(base, last);
    IndexUnfolds(base, last);
    var frames := Store(c, packet).frames;
    assert frames == c.frames[t := FrameEntry(IdOf(base, last), Start(log', last) % slots, |log'[last]|, true)];
    forall f: nat | |log'| - FRAME_TABLE <= f < |log'|
      ensures frames[Index(base, f)] == FrameEntry(IdOf(base, f), Start(log', f) % slots, |log'[f]|, true)
    {
      IndexTells(base, f, last);
      if f < last {
        StartStays(log, packet, begins, f);
        OlderStay(log, packet, begins, f);
        assert frames[Index(base, f)] == c.frames[Index(base, f)];
      }
    }
    forall k: nat | k < FRAME_TABLE && Holder(base, |log'|, k) < 0
      ensures !frames[k].valid
    {
      HolderHolds(base, |log'|, k);
      HolderMoves(base, |log|, k);
      IndexTells(base, Holder(base, |log'|, k), last);
    }
  }

  lemma IndexUnfolds(base: Seq16, f: int)
    ensures Index(base, f) == IdOf(base, f) % FRAME_TABLE
  {
  }

  // The entry a new frame takes is invalid or another frame's.
  lemma NoneHasNewId(c: Cache, base: Seq16, log: Log)
    requires CacheOk(c) && TableOk(c, base, log)
    ensures var entry := c.frames[Index(base, |log|)]; entry.valid ==> entry.frameId != IdOf(base, |log|)
  {
    var t := Index(base, |log|);
    var g := Holder(base, |log|, t);
    HolderHolds(base, |log|, t);
    hide Start, Index, Holder;
    if g >= 0 {
      assert c.frames[t] == c.frames[Index(base, g)];
      WrapInjective(base + g, base + |log|);
    }
  }

  // A frame later, an entry is held by the same frame or by the new one.
  lemma HolderMoves(base: Seq16, n: nat, t: nat)
    requires t < FRAME_TABLE
    ensures Holder(base, n + 1, t) == n || Holder(base, n + 1, t) == Holder(base, n, t)
  {
    HolderHolds(base, n, t);
    HolderHolds(base, n + 1, t);
    hide Holder, Index;
    var f, g := Holder(base, n, t), Holder(base, n + 1, t);
    if g < n && g >= n - FRAME_TABLE {
      IndexTells(base, f, g);
    }
  }

  lemma LogKeeps(base: Seq16, log: Log, packet: Bytes, begins: bool)
    requires LogOk(base, log) && IsNewest(base, log, packet, begins)
    ensures LogOk(base, Sent(log, packet, begins))
  {
    hide Is;
    var log' := Sent(log, packet, begins);
    forall f | 0 <= f < |log'|
      ensures FrameOk(base, f, log'[f])
    {
      assert f < |log| ==> FrameOk(base, f, log[f]);
    }
  }

  lemma StoreKeeps(c: Cache, base: Seq16, log: Log, packet: Bytes, begins: bool)
    requires Tracks(c, base, log) && IsNewest(base, log, packet, begins)
    ensures Tracks(Store(c, packet), base, Sent(log, packet, begins))
  {
    NewestEntry(c, base, log, packet, begins);
    hide TableOk, RingOk, LogOk, Store, Accepted, Sent, EntryFor;
    RingKeeps(c, base, log, packet, begins);
    TableKeeps(c, base, log, packet, begins);
    LogKeeps(base, log, packet, begins);
  }

  // ---- whole runs ------------------------------------------------------------

  // What the send thread does: sends the packetizer's next packet, stores
  // something that is not video, or answers a NACK.
  datatype Event = Sends(packet: Bytes, begins: bool) | Foreign(packet: Bytes) | Asks(frameId: Seq16, pktIdx: Seq16)

  function Step(c: Cache, e: Event): Cache
    requires CacheOk(c)
    ensures CacheOk(Step(c, e)) && |Step(c, e).ring| == |c.ring|
  {
    if e.Asks? then Get(c, e.frameId, e.pktIdx) else Store(c, e.packet)
  }

  ghost predicate Legal(base: Seq16, log: Log, e: Event) {
    match e
    case Sends(packet, begins) => IsNewest(base, log, packet, begins)
    case Foreign(packet) => !Accepted(packet)
    case Asks(_, _) => true
  }

  function Logged(log: Log, e: Event): Log
    requires e.Sends? ==> CanSend(log, e.begins)
  {
    if e.Sends? then Sent(log, e.packet, e.begins) else log
  }

  ghost predicate LegalRun(base: Seq16, log: Log, events: seq<Event>)
    decreases |events|
  {
    events == [] || (Legal(base, log, events[0]) && LegalRun(base, Logged(log, events[0]), events[1..]))
  }

  ghost function LogAfter(base: Seq16, log: Log, events: seq<Event>): Log
    requires LegalRun(base, log, events)
    decreases |events|
  {
    if events == [] then log else LogAfter(base, Logged(log, events[0]), events[1..])
  }

  function After(c: Cache, events: seq<Event>): Cache
    requires CacheOk(c)
    ensures CacheOk(After(c, events)) && |After(c, events).ring| == |c.ring|
    decreases |events|
  {
    if events == [] then c else After(Step(c, events[0]), events[1..])
  }

  lemma {:induction false} RunTracks(c: Cache, base: Seq16, log: Log, events: seq<Event>)
    requires Tracks(c, base, log) && LegalRun(base, log, events)
    ensures Tracks(After(c, events), base, LogAfter(base, log, events)) && |After(c, events).ring| == |c.ring|
    decreases |events|
  {
    hide Tracks, Store, Get, Sent, CanSend, Is, Accepted;
    assert CacheOk(c) by { TracksIsOk(c, base, log); }
    if events != [] {
      match events[0] {
        case Sends(packet, begins) => { StoreKeeps(c, base, log, packet, begins); }
        case Foreign(packet) => { ForeignChangesNothing(c, packet); }
        case Asks(frameId, pktIdx) => { GetKeeps(c, base, log, frameId, pktIdx); }
      }
      RunTracks(Step(c, events[0]), base, Logged(log, events[0]), events[1..]);
    }
  }

  lemma TracksIsOk(c: Cache, base: Seq16, log: Log)
    requires Tracks(c, base, log)
    ensures CacheOk(c)
  {
  }

  lemma ForeignChangesNothing(c: Cache, packet: Bytes)
    requires CacheOk(c) && !Accepted(packet)
    ensures Store(c, packet) == c
  {
  }

  lemma GetKeeps(c: Cache, base: Seq16, log: Log, frameId: Seq16, pktIdx: Seq16)
    requires Tracks(c, base, log)
    ensures Tracks(Get(c, frameId, pktIdx), base, log) && |Get(c, frameId, pktIdx).ring| == |c.ring|
  {
    hide Lookup, LogOk;
  }

  lemma NewCacheTracks(slots: nat, base: Seq16)
    ensures Tracks(NewCache(slots), base, [])
  {
  }

  /**
   * However the frame ids wrap, whatever is asked and whatever else is stored in
   * between: a lookup answers a packet exactly when it is among the last `slots`
   * stored and its frame among the newest FRAME_TABLE, and then with its bytes.
   */
  lemma EveryLookupIsTheLogs(slots: nat, base: Seq16, events: seq<Event>, frameId: Seq16, pktIdx: Seq16)
    requires LegalRun(base, [], events)
    ensures var log := LogAfter(base, [], events);
            Lookup(After(NewCache(slots), events), frameId, pktIdx) == Find(base, log, Max(slots, 2), frameId, pktIdx)
  {
    NewCacheTracks(slots, base);
    RunTracks(NewCache(slots), base, [], events);
    LookupIsFind(After(NewCache(slots), events), base, LogAfter(base, [], events), frameId, pktIdx);
  }

  // ---- what is counted -------------------------------------------------------

  // How many of the lookups asked for a packet the log still has.
  ghost function Found(base: Seq16, log: Log, slots: nat, events: seq<Event>): nat
    requires LegalRun(base, log, events)
    decreases |events|
  {
    if events == [] then 0
    else
      var e := events[0];
      (if e.Asks? && Find(base, log, slots, e.frameId, e.pktIdx).Some? then 1 else 0)
      + Found(base, Logged(log, e), slots, events[1..])
  }

  function Sends(events: seq<Event>): nat
    decreases |events|
  {
    if events == [] then 0 else (if events[0].Sends? then 1 else 0) + Sends(events[1..])
  }

  lemma StepCounts(c: Cache, base: Seq16, log: Log, e: Event)
    requires Tracks(c, base, log) && Legal(base, log, e)
    ensures CacheOk(c)
    ensures var c' := Step(c, e);
            var found := e.Asks? && Find(base, log, |c.ring|, e.frameId, e.pktIdx).Some?;
            && c'.hits == c.hits + (if found then 1 else 0)
            && c'.misses == c.misses + (if e.Asks? && !found then 1 else 0)
            && c'.stored == c.stored + (if e.Sends? then 1 else 0)
            && Tracks(c', base, Logged(log, e)) && |c'.ring| == |c.ring|
  {
    TracksIsOk(c, base, log);
    match e {
      case Sends(packet, begins) => {
        StoreKeeps(c, base, log, packet, begins);
        hide Tracks, EntryFor, Find;
      }
      case Foreign(packet) => {
        hide Tracks, Find;
      }
      case Asks(frameId, pktIdx) => {
        LookupIsFind(c, base, log, frameId, pktIdx);
        GetKeeps(c, base, log, frameId, pktIdx);
        hide Tracks, Lookup, Find;
      }
    }
  }

  /**
   * For packetizer-shaped traffic: the hits are the lookups whose packet the log
   * still had then, the misses all the others, and what is counted as stored the
   * video packets sent.
   */
  lemma {:induction false} EveryLookupIsCounted(c: Cache, base: Seq16, log: Log, events: seq<Event>)
    requires Tracks(c, base, log) && LegalRun(base, log, events)
    ensures CacheOk(c)
    ensures var c', found := After(c, events), Found(base, log, |c.ring|, events);
            && c'.hits == c.hits + found
            && c'.misses == c.misses + CountAsks(events) - found
            && c'.stored == c.stored + Sends(events)
    decreases |events|
  {
    hide Tracks, Step, Find, CanSend, Is, Accepted, Sent;
    TracksIsOk(c, base, log);
    if events != [] {
      StepCounts(c, base, log, events[0]);
      EveryLookupIsCounted(Step(c, events[0]), base, Logged(log, events[0]), events[1..]);
    }
  }

  // Find by number: a logged frame among the newest FRAME_TABLE is found by its id.
  lemma FindByNumber(base: Seq16, log: Log, slots: nat, f: nat, pktIdx: Seq16)
    requires |log| - FRAME_TABLE <= f < |log|
    ensures Find(base, log, slots, IdOf(base, f), pktIdx)
            == if pktIdx < |log[f]| && Total(log) - (Start(log, f) + pktIdx) <= slots then Some(log[f][pktIdx])
               else None
  {
    hide Start;
    CandidateHasId(base, |log|, IdOf(base, f), Candidate(base, log, IdOf(base, f)));
    WrapInjective(base + f, base + Candidate(base, log, IdOf(base, f)));
  }

  // ---- any traffic -----------------------------------------------------------

  // What the ring holds was stored.
  ghost predicate HoldsOnly(c: Cache, stored: seq<Bytes>) {
    CacheOk(c) && forall k :: 0 <= k < |c.ring| ==> c.ring[k] == [] || (c.ring[k] in stored && Accepted(c.ring[k]))
  }

  function Stored(events: seq<Event>): seq<Bytes> {
    if events == [] then []
    else (if events[0].Asks? then [] else [events[0].packet]) + Stored(events[1..])
  }

  function CountAsks(events: seq<Event>): nat {
    if events == [] then 0 else (if events[0].Asks? then 1 else 0) + CountAsks(events[1..])
  }

  lemma StepHoldsOnly(c: Cache, before: seq<Bytes>, e: Event)
    requires HoldsOnly(c, before)
    ensures HoldsOnly(Step(c, e), before + (if e.Asks? then [] else [e.packet]))
    ensures var c' := Step(c, e); c'.hits + c'.misses == c.hits + c.misses + if e.Asks? then 1 else 0
  {
    hide Accepted, Lookup, EntryFor;
  }

  lemma {:induction false} RunHoldsOnly(c: Cache, before: seq<Bytes>, events: seq<Event>)
    requires HoldsOnly(c, before)
    ensures HoldsOnly(After(c, events), before + Stored(events))
    ensures var c' := After(c, events); c'.hits + c'.misses == c.hits + c.misses + CountAsks(events)
    decreases |events|
  {
    assert CacheOk(c);
    hide HoldsOnly, Step;
    if events == [] {
      assert before + Stored(events) == before;
    } else {
      var now := before + (if events[0].Asks? then [] else [events[0].packet]);
      StepHoldsOnly(c, before, events[0]);
      RunHoldsOnly(Step(c, events[0]), now, events[1..]);
      assert now + Stored(events[1..]) == before + Stored(events);
    }
  }

  /**
   * Whatever was stored, packetizer-shaped or not: a hit is a stored video
   * packet that itself names the frame and index asked for, and every lookup is
   * counted as a hit or a miss.
   */
  lemma EveryHitIsWhatWasAsked(slots: nat, events: seq<Event>, frameId: Seq16, pktIdx: Seq16)
    ensures var c := After(NewCache(slots), events);
            && (Lookup(c, frameId, pktIdx).Some? ==>
                  var packet := Lookup(c, frameId, pktIdx).value;
                  && packet in Stored(events) && HEADER_LEN <= |packet| <= MAX_PACKET && packet[0] == VIDEO
                  && packet[2] as int + 256 * packet[3] as int == frameId
                  && packet[8] as int + 256 * packet[9] as int == pktIdx)
            && c.hits + c.misses == CountAsks(events)
  {
    RunHoldsOnly(NewCache(slots), [], events);
    assert [] + Stored(events) == Stored(events);
  }
}
