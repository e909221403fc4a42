// The lock-free ring of wire packets between the encode and the send thread.
//
// The interleaving model takes one step per atomic access, one per byte copied
// and one for the slot's length, so neither a write nor a read of a slot is
// atomic. Each acquire load is taken to see the latest release store
// (sequential consistency).

module PacketRing {
  import opened Cursors
  import opened Basics

  const SLOT_BYTES := MAX_PACKET

  datatype Slot = Slot(data: Bytes, len: nat)

  datatype Producer =
    | Idle
    | LoadedTail(packet: Bytes, tail: nat)
    | Dropping                                    // refused, not yet counted
    | Copying(packet: Bytes, tail: nat, done: nat)
    | Written(packet: Bytes, tail: nat)           // the slot is whole, not yet published

  datatype Consumer =
    | Waiting
    | LoadedHead(head: nat)
    | Found(head: nat)
    | Reading(head: nat, len: nat, out: Bytes)

  datatype Ring = Ring(
    capacity: nat,
    word: nat,
    slots: seq<Slot>,
    tail: nat,
    head: nat,
    dropped: nat,
    producer: Producer,
    consumer: Consumer,
    offered: nat,               // calls of `push` begun
    refused: nat,               // drops counted, without the counter's wrap
    accepted: seq<Bytes>,       // every packet published
    popped: seq<Bytes>)         // every packet handed to `send`

  function Blank(): Slot {
    Slot(seq(SLOT_BYTES, i => 0), 0)
  }

  function Empty(capacity: nat, word: nat): Ring {
    Ring(capacity, word, seq(capacity, i => Blank()), 0, 0, 0, Idle, Waiting, 0, 0, [], [])
  }

  datatype Step =
    | PushBegin(packet: Bytes)   // size check, load `tail`
    | PushLook                   // load `head`, full or not
    | PushCopy                   // one byte into the slot
    | PushLength                 // the slot's length
    | PushPublish                // store `tail`
    | PushDrop                   // count the drop
    | PopBegin                   // load `head`
    | PopLook                    // load `tail`, empty or not
    | PopLength                  // the slot's length
    | PopCopy                    // one byte out of the slot
    | PopRelease                 // store `head`

  function SlotAt(s: Ring, cursor: nat): nat
    requires s.capacity > 0
  {
    cursor % s.capacity
  }

  // Where the threads stand, and that no index is out of range;
  // `NeitherThreadSticks` shows the second part never stops a run.
  predicate Enabled(s: Ring, step: Step) {
    && s.word > 0 && s.capacity > 0 && |s.slots| == s.capacity
    && match step
    case PushBegin(_) => s.producer.Idle?
    case PushLook => s.producer.LoadedTail?
    case PushCopy =>
      && s.producer.Copying? && s.producer.done < |s.producer.packet|
      && s.producer.done < |s.slots[SlotAt(s, s.producer.tail)].data|
    case PushLength => s.producer.Copying? && s.producer.done == |s.producer.packet|
    case PushPublish => s.producer.Written?
    case PushDrop => s.producer.Dropping?
    case PopBegin => s.consumer.Waiting?
    case PopLook => s.consumer.LoadedHead?
    case PopLength => s.consumer.Found?
    case PopCopy =>
      && s.consumer.Reading? && |s.consumer.out| < s.consumer.len
      && |s.consumer.out| < |s.slots[SlotAt(s, s.consumer.head)].data|
    case PopRelease => s.consumer.Reading? && |s.consumer.out| == s.consumer.len
  }

  function Put(s: Ring, cursor: nat, slot: Slot): Ring
    requires s.capacity > 0 && |s.slots| == s.capacity
  {
    s.(slots := s.slots[SlotAt(s, cursor) := slot])
  }

  function Next(s: Ring, step: Step): Ring
    requires Enabled(s, step)
  {
    match step
    case PushBegin(packet) =>
      s.(offered := s.offered + 1,
         producer := if |packet| > SLOT_BYTES then Dropping else LoadedTail(packet, s.tail))
    case PushLook =>
      var p := s.producer;
      s.(producer := if (p.tail - s.head) % s.word > s.capacity - 1 then Dropping else Copying(p.packet, p.tail, 0))
    case PushCopy =>
      var p := s.producer;
      var slot := s.slots[SlotAt(s, p.tail)];
      Put(s, p.tail, slot.(data := slot.data[p.done := p.packet[p.done]])).(producer := p.(done := p.done + 1))
    case PushLength =>
      var p := s.producer;
      Put(s, p.tail, s.slots[SlotAt(s, p.tail)].(len := |p.packet|)).(producer := Written(p.packet, p.tail))
    case PushPublish =>
      var p := s.producer;
      s.(tail := (p.tail + 1) % s.word, producer := Idle, accepted := s.accepted + [p.packet])
    case PushDrop =>
      s.(dropped := (s.dropped + 1) % s.word, refused := s.refused + 1, producer := Idle)
    case PopBegin => s.(consumer := LoadedHead(s.head))
    case PopLook => s.(consumer := if s.consumer.head == s.tail then Waiting else Found(s.consumer.head))
    case PopLength =>
      s.(consumer := Reading(s.consumer.head, s.slots[SlotAt(s, s.consumer.head)].len, []))
    case PopCopy =>
      var c := s.consumer;
      s.(consumer := c.(out := c.out + [s.slots[SlotAt(s, c.head)].data[|c.out|]]))
    case PopRelease =>
      var c := s.consumer;
      s.(head := (c.head + 1) % s.word, consumer := Waiting, popped := s.popped + [c.out])
  }

  // ---- the invariant -------------------------------------------------------

  ghost predicate Sized(s: Ring) {
    && |s.slots| == s.capacity >= 2
    && s.word > 0
    && (forall i :: 0 <= i < |s.slots| ==> |s.slots[i].data| == SLOT_BYTES)
    && exists laps: nat :: laps >= 2 && s.word == s.capacity * laps
  }

  ghost predicate CountersOk(s: Ring) {
    && s.word > 0
    && |s.popped| <= |s.accepted| <= |s.popped| + s.capacity
    && s.popped == s.accepted[..|s.popped|]
    && s.tail == |s.accepted| % s.word
    && s.head == |s.popped| % s.word
    && s.dropped == s.refused % s.word
    && s.offered == |s.accepted| + s.refused + (if s.producer.Idle? then 0 else 1)
  }

  ghost predicate Carries(slot: Slot, packet: Bytes) {
    slot.len == |packet| <= |slot.data| && slot.data[..|packet|] == packet
  }

  // Every packet published and not yet freed is whole in its slot.
  ghost predicate LiveOk(s: Ring)
    requires s.capacity > 0 && |s.slots| == s.capacity
  {
    forall i :: |s.popped| <= i < |s.accepted| ==> Carries(s.slots[i % s.capacity], s.accepted[i])
  }

  ghost predicate ProducerOk(s: Ring)
    requires s.capacity > 0 && |s.slots| == s.capacity
  {
    var slot := s.slots[|s.accepted| % s.capacity];
    match s.producer
    case Idle => true
    case Dropping => true
    case LoadedTail(packet, tail) => tail == s.tail && |packet| <= SLOT_BYTES
    case Copying(packet, tail, done) =>
      && tail == s.tail && |s.accepted| < |s.popped| + s.capacity
      && done <= |packet| <= SLOT_BYTES == |slot.data| && slot.data[..done] == packet[..done]
    case Written(packet, tail) =>
      && tail == s.tail && |s.accepted| < |s.popped| + s.capacity
      && Carries(slot, packet)
  }

  ghost predicate ConsumerOk(s: Ring)
    requires s.capacity > 0 && |s.slots| == s.capacity
  {
    match s.consumer
    case Waiting => true
    case LoadedHead(head) => head == s.head
    case Found(head) => head == s.head && |s.popped| < |s.accepted|
    case Reading(head, len, out) =>
      && head == s.head && |s.popped| < |s.accepted|
      && len == |s.accepted[|s.popped|]| && |out| <= len
      && out == s.accepted[|s.popped|][..|out|]
  }

  ghost predicate RingOk(s: Ring) {
    Sized(s) && CountersOk(s) && LiveOk(s) && ProducerOk(s) && ConsumerOk(s)
  }

  // ---- cursors -------------------------------------------------------------

  lemma WordIsWide(s: Ring)
    requires Sized(s)
    ensures s.word >= 2 * s.capacity > 0
  {
    var laps: nat :| laps >= 2 && s.word == s.capacity * laps;
    assert s.capacity * laps == s.capacity * (laps - 2) + s.capacity * 2;
    assert s.capacity * (laps - 2) >= 0;
  }

  lemma SlotOf(s: Ring, count: nat)
    requires Sized(s)
    ensures SlotAt(s, count % s.word) == count % s.capacity
  {
    var laps: nat :| laps >= 2 && s.word == s.capacity * laps;
    SlotSurvivesTheWord(count, s.capacity, laps);
  }

  // The wrapped comparisons decide truly: full, and empty.
  lemma Occupancy(s: Ring)
    requires RingOk(s)
    ensures s.word > 0 && |s.popped| <= |s.accepted| <= |s.popped| + s.capacity
    ensures (s.tail - s.head) % s.word == |s.accepted| - |s.popped|
    ensures s.head == s.tail <==> |s.accepted| == |s.popped|
  {
    hide LiveOk, ProducerOk, ConsumerOk;
    WordIsWide(s);
    WrappedDifference(|s.accepted|, |s.popped|, s.word);
    if s.head == s.tail {
      assert (s.tail - s.head) % s.word == 0;
    }
  }

  lemma NeitherThreadSticks(s: Ring)
    requires RingOk(s)
    ensures !s.producer.Idle? ==>
              exists step :: step in {PushLook, PushCopy, PushLength, PushPublish, PushDrop} && Enabled(s, step)
    ensures !s.consumer.Waiting? ==>
              exists step :: step in {PopLook, PopLength, PopCopy, PopRelease} && Enabled(s, step)
  {
    CallGoesOn(s);
    assert s.producer.LoadedTail? ==> Enabled(s, PushLook);
    assert s.producer.Copying? ==> Enabled(s, PushCopy) || Enabled(s, PushLength);
    assert s.producer.Written? ==> Enabled(s, PushPublish);
    assert s.producer.Dropping? ==> Enabled(s, PushDrop);
    assert s.consumer.LoadedHead? ==> Enabled(s, PopLook);
    assert s.consumer.Found? ==> Enabled(s, PopLength);
    assert s.consumer.Reading? ==> Enabled(s, PopCopy) || Enabled(s, PopRelease);
  }

  lemma CallGoesOn(s: Ring)
    requires RingOk(s)
    ensures s.word > 0 && s.capacity > 0 && |s.slots| == s.capacity
    ensures s.producer.Copying? ==>
              Enabled(s, if s.producer.done < |s.producer.packet| then PushCopy else PushLength)
    ensures s.consumer.Reading? ==>
              Enabled(s, if |s.consumer.out| < s.consumer.len then PopCopy else PopRelease)
  {
    SlotOf(s, |s.accepted|);
    SlotOf(s, |s.popped|);
  }

  // ---- each step keeps it --------------------------------------------------

  // A write to the slot at `tail`, while it is free, disturbs no live packet.
  lemma WriteIsApart(s: Ring, slot: Slot)
    requires RingOk(s) && |s.accepted| < |s.popped| + s.capacity && |slot.data| == SLOT_BYTES
    ensures Sized(Put(s, s.tail, slot)) && LiveOk(Put(s, s.tail, slot))
    ensures Put(s, s.tail, slot).slots[|s.accepted| % s.capacity] == slot
  {
    SlotOf(s, |s.accepted|);
    var after := Put(s, s.tail, slot);
    forall i | |s.popped| <= i < |s.accepted| ensures Carries(after.slots[i % s.capacity], s.accepted[i]) {
      SlotsDiffer(i, |s.accepted|, s.capacity);
    }
  }

  lemma PushCopyKeeps(s: Ring)
    requires RingOk(s) && Enabled(s, PushCopy)
    ensures RingOk(Next(s, PushCopy))
  {
    var p := s.producer;
    SlotOf(s, |s.accepted|);
    var slot := s.slots[SlotAt(s, p.tail)];
    var written := slot.(data := slot.data[p.done := p.packet[p.done]]);
    WriteIsApart(s, written);
    assert written.data[..p.done + 1] == slot.data[..p.done] + [p.packet[p.done]];
  }

  lemma PushLengthKeeps(s: Ring)
    requires RingOk(s) && Enabled(s, PushLength)
    ensures RingOk(Next(s, PushLength))
  {
    var p := s.producer;
    SlotOf(s, |s.accepted|);
    WriteIsApart(s, s.slots[SlotAt(s, p.tail)].(len := |p.packet|));
    assert p.packet[..|p.packet|] == p.packet;
  }

  lemma PublishKeepsLive(s: Ring)
    requires Enabled(s, PushPublish) && LiveOk(s) && ProducerOk(s)
    ensures LiveOk(Next(s, PushPublish))
  {
    hide Carries;
  }

  lemma PublishKeepsCounters(s: Ring)
    requires Enabled(s, PushPublish) && CountersOk(s) && ProducerOk(s)
    ensures CountersOk(Next(s, PushPublish))
  {
    hide Carries;
    AdvanceWrapped(|s.accepted|, 1, s.word);
    assert Next(s, PushPublish).accepted[..|s.popped|] == s.accepted[..|s.popped|];
  }

  lemma PushPublishKeeps(s: Ring)
    requires RingOk(s) && Enabled(s, PushPublish)
    ensures RingOk(Next(s, PushPublish))
  {
    PublishKeepsLive(s);
    PublishKeepsCounters(s);
    hide LiveOk, Carries;
  }

  lemma PushDropKeeps(s: Ring)
    requires RingOk(s) && Enabled(s, PushDrop)
    ensures RingOk(Next(s, PushDrop))
  {
    AdvanceWrapped(s.refused, 1, s.word);
  }

  lemma PopLengthKeeps(s: Ring)
    requires RingOk(s) && Enabled(s, PopLength)
    ensures RingOk(Next(s, PopLength))
  {
    SlotOf(s, |s.popped|);
    assert Carries(s.slots[|s.popped| % s.capacity], s.accepted[|s.popped|]);
  }

  lemma PopCopyKeeps(s: Ring)
    requires RingOk(s) && Enabled(s, PopCopy)
    ensures RingOk(Next(s, PopCopy))
  {
    SlotOf(s, |s.popped|);
    var packet, n := s.accepted[|s.popped|], |s.consumer.out|;
    assert Carries(s.slots[|s.popped| % s.capacity], packet);
    assert packet[n] == s.slots[|s.popped| % s.capacity].data[..|packet|][n];
    assert packet[..n + 1] == packet[..n] + [packet[n]];
  }

  lemma PopReleaseKeeps(s: Ring)
    requires RingOk(s) && Enabled(s, PopRelease)
    ensures RingOk(Next(s, PopRelease))
  {
    AdvanceWrapped(|s.popped|, 1, s.word);
    var packet := s.accepted[|s.popped|];
    assert s.consumer.out == packet;
    assert s.accepted[..|s.popped| + 1] == s.accepted[..|s.popped|] + [packet];
  }

  lemma StepKeeps(s: Ring, step: Step)
    requires RingOk(s) && Enabled(s, step)
    ensures RingOk(Next(s, step))
  {
    match step
    case PushCopy => PushCopyKeeps(s);
    case PushLength => PushLengthKeeps(s);
    case PushPublish => PushPublishKeeps(s);
    case PushDrop => PushDropKeeps(s);
    case PopLength => PopLengthKeeps(s);
    case PopCopy => PopCopyKeeps(s);
    case PopRelease => PopReleaseKeeps(s);
    case PushBegin(_) =>
    case PopBegin =>
    case PushLook => LookKeeps(s, step);
    case PopLook => LookKeeps(s, step);
  }

  lemma LookKeeps(s: Ring, step: Step)
    requires RingOk(s) && Enabled(s, step) && (step.PushLook? || step.PopLook?)
    ensures RingOk(Next(s, step))
  {
    Occupancy(s);
  }

  // ---- runs ----------------------------------------------------------------

  // Some interleaving of the two threads' steps leads from `s` to `t`.
  ghost predicate Reaches(s: Ring, steps: seq<Step>, t: Ring)
    decreases |steps|
  {
    if steps == [] then s == t
    else Enabled(s, steps[0]) && Reaches(Next(s, steps[0]), steps[1..], t)
  }

  lemma {:induction false} RunKeeps(s: Ring, steps: seq<Step>, t: Ring)
    requires RingOk(s) && Reaches(s, steps, t)
    ensures RingOk(t) && t.capacity == s.capacity
    decreases |steps|
  {
    if steps != [] {
      StepKeeps(s, steps[0]);
      RunKeeps(Next(s, steps[0]), steps[1..], t);
    }
  }

  lemma EmptyIsOk(capacity: nat, bits: nat)
    requires bits >= 2 && capacity <= Pow2(bits - 1)
    ensures RingOk(Empty(RingCapacity(capacity), Pow2(bits)))
  {
    CapacityDividesTheWord(capacity, bits);
  }

  // The slot a thread's next byte or length access touches, if it has one.
  ghost predicate Writes(s: Ring, slot: nat)
    requires s.capacity > 0
  {
    s.producer.Copying? && slot == SlotAt(s, s.producer.tail)
  }

  ghost predicate Reads(s: Ring, slot: nat)
    requires s.capacity > 0
  {
    (s.consumer.Found? || s.consumer.Reading?) && slot == SlotAt(s, s.consumer.head)
  }

  /**
   * In every interleaving of one producer and one consumer, over cursors that
   * wrap a word of any width: what `send` is handed is a prefix of what was
   * accepted, whole packets in order; occupancy never exceeds the capacity; no
   * slot is written while it is read; and every packet offered was accepted or
   * dropped, but for the one still being pushed.
   */
  lemma EveryInterleavingIsFifo(capacity: nat, bits: nat, steps: seq<Step>, s: Ring)
    requires bits >= 2 && capacity <= Pow2(bits - 1)
    requires Reaches(Empty(RingCapacity(capacity), Pow2(bits)), steps, s)
    ensures s.popped <= s.accepted
    ensures |s.accepted| - |s.popped| <= s.capacity == RingCapacity(capacity)
    ensures forall slot :: !(Writes(s, slot) && Reads(s, slot))
    ensures s.offered == |s.accepted| + s.refused + (if s.producer.Idle? then 0 else 1)
    ensures s.word > 0 && s.dropped == s.refused % s.word
  {
    EmptyIsOk(capacity, bits);
    RunKeeps(Empty(RingCapacity(capacity), Pow2(bits)), steps, s);
    if s.producer.Copying? && (s.consumer.Found? || s.consumer.Reading?) {
      SlotOf(s, |s.accepted|);
      SlotOf(s, |s.popped|);
      SlotsDiffer(|s.popped|, |s.accepted|, s.capacity);
    }
  }

  // ---- one call among the other thread's steps --------------------------------

  // A look sees the truth of its moment: a push goes on just if a slot is free, a
  // pop just if a packet waits.
  lemma LooksAreExact(s: Ring, step: Step)
    requires RingOk(s) && Enabled(s, step)
    ensures step.PushLook? ==>
              if |s.accepted| - |s.popped| < s.capacity then Next(s, step).producer.Copying?
              else Next(s, step).producer.Dropping?
    ensures step.PopLook? ==>
              if |s.popped| < |s.accepted| then Next(s, step).consumer.Found? else Next(s, step).consumer.Waiting?
  {
    Occupancy(s);
    hide LiveOk, CountersOk;
  }

  // A call of `push` with `packet`, begun at `s`, has come as far as `t`.
  ghost predicate Pushing(s: Ring, packet: Bytes, t: Ring) {
    var undecided := t.accepted == s.accepted && t.refused == s.refused;
    match t.producer
    case Idle =>
      || (t.accepted == s.accepted + [packet] && t.refused == s.refused && |packet| <= SLOT_BYTES)
      || (t.accepted == s.accepted && t.refused == s.refused + 1)
    case Dropping => undecided
    case LoadedTail(own, _) => own == packet && undecided && |packet| <= SLOT_BYTES
    case Copying(own, _, _) => own == packet && undecided && |packet| <= SLOT_BYTES
    case Written(own, _) => own == packet && undecided && |packet| <= SLOT_BYTES
  }

  lemma PushingGoesOn(s: Ring, packet: Bytes, t: Ring, step: Step)
    requires Pushing(s, packet, t) && Enabled(t, step) && !step.PushBegin?
    ensures Pushing(s, packet, Next(t, step))
  {
  }

  lemma {:induction false} PushRuns(s: Ring, packet: Bytes, u: Ring, steps: seq<Step>, t: Ring)
    requires Pushing(s, packet, u) && Reaches(u, steps, t) && forall step :: step in steps ==> !step.PushBegin?
    ensures Pushing(s, packet, t)
    decreases |steps|
  {
    hide Pushing, Enabled, Next;
    if steps != [] {
      PushingGoesOn(s, packet, u, steps[0]);
      PushRuns(s, packet, Next(u, steps[0]), steps[1..], t);
    }
  }

  /**
   * Whatever the consumer does meanwhile, a call of `push` that returned either
   * published its own packet, once and whole, or counted one drop; a packet too
   * long for a slot is always dropped.
   */
  lemma EveryPushEndsOnce(s: Ring, packet: Bytes, steps: seq<Step>, t: Ring)
    requires Reaches(s, [PushBegin(packet)] + steps, t) && t.producer.Idle?
    requires forall step :: step in steps ==> !step.PushBegin?
    ensures || (t.accepted == s.accepted + [packet] && t.refused == s.refused && |packet| <= SLOT_BYTES)
            || (t.accepted == s.accepted && t.refused == s.refused + 1)
  {
    var all := [PushBegin(packet)] + steps;
    assert all[0] == PushBegin(packet) && all[1..] == steps;
    PushRuns(s, packet, Next(s, PushBegin(packet)), steps, t);
  }

  // ---- the object ----------------------------------------------------------

  // The ring in memory. Each method is one thread's steps in order; the ghost
  // fields are the histories of the model above.
  class Packets {
    const slots: array<Slot>
    const word: nat
    var tail: nat
    var head: nat
    var dropped: nat
    ghost var offered: nat
    ghost var refused: nat
    ghost var accepted: seq<Bytes>
    ghost var popped: seq<Bytes>

    ghost function Model(producer: Producer, consumer: Consumer): Ring
      reads this, slots
    {
      Ring(slots.Length, word, slots[..], tail, head, dropped, producer, consumer, offered, refused, accepted, popped)
    }

    ghost predicate Valid()
      reads this, slots
    {
      RingOk(Model(Idle, Waiting))
    }

    // Published and not yet freed, oldest first.
    ghost function Contents(): seq<Bytes>
      requires Valid()
      reads this, slots
    {
      accepted[|popped|..]
    }

    constructor (capacity: nat, bits: nat)
      requires bits >= 2 && capacity <= Pow2(bits - 1)
      ensures Valid() && fresh(slots) && slots.Length == RingCapacity(capacity)
      ensures Contents() == [] && dropped == 0
    {
      EmptyIsOk(capacity, bits);
      slots := new Slot[RingCapacity(capacity)](_ => Blank());
      word := Pow2(bits);
      tail, head, dropped := 0, 0, 0;
      offered, refused, accepted, popped := 0, 0, [], [];
      new;
      assert slots[..] == Empty(RingCapacity(capacity), Pow2(bits)).slots;
    }

    method Push(packet: Bytes) returns (ok: bool)
      requires Valid()
      modifies this`tail, this`dropped, this`offered, this`refused, this`accepted, slots
      ensures Valid() && popped == old(popped)
      ensures ok <==> |packet| <= SLOT_BYTES && |old(Contents())| < slots.Length
      ensures Contents() == old(Contents()) + if ok then [packet] else []
      ensures dropped == if ok then old(dropped) else (old(dropped) + 1) % word
    {
      hide RingOk;
      ghost var before := Model(Idle, Waiting);
      Occupancy(before);
      if |packet| > SLOT_BYTES {
        RefusedPush(before, packet);
        CountDrop();
        return false;
      }
      var t := tail;
      var h := head;
      if (t - h) % word > slots.Length - 1 {
        RefusedPush(before, packet);
        CountDrop();
        return false;
      }
      PushStarts(before, packet);
      offered := offered + 1;
      CopyIn(packet, t);
      ghost var written := Model(Written(packet, t), Waiting);
      CallGoesOn(written);
      StepKeeps(written, PushPublish);
      tail := (t + 1) % word;
      accepted := accepted + [packet];
      return true;
    }

    method CountDrop()
      requires word > 0
      modifies this`dropped, this`offered, this`refused
      ensures dropped == (old(dropped) + 1) % word
      ensures offered == old(offered) + 1 && refused == old(refused) + 1
    {
      dropped, offered, refused := (dropped + 1) % word, offered + 1, refused + 1;
    }

    // Fill the slot at `t`, byte by byte, then its length.
    method CopyIn(packet: Bytes, t: nat)
      requires RingOk(Model(Copying(packet, t, 0), Waiting))
      modifies slots
      ensures RingOk(Model(Written(packet, t), Waiting))
    {
      hide RingOk;
      CallGoesOn(Model(Copying(packet, t, 0), Waiting));
      for i := 0 to |packet|
        invariant RingOk(Model(Copying(packet, t, i), Waiting))
      {
        ghost var before := Model(Copying(packet, t, i), Waiting);
        CallGoesOn(before);
        StepKeeps(before, PushCopy);
        var slot := slots[t % slots.Length];
        slots[t % slots.Length] := slot.(data := slot.data[i := packet[i]]);
        assert slots[..] == Next(before, PushCopy).slots;
      }
      ghost var copied := Model(Copying(packet, t, |packet|), Waiting);
      CallGoesOn(copied);
      StepKeeps(copied, PushLength);
      slots[t % slots.Length] := slots[t % slots.Length].(len := |packet|);
      assert slots[..] == Next(copied, PushLength).slots;
    }

    // `packet` is what `send` is handed, None when the ring is empty.
    method PopWith() returns (packet: Option<Bytes>)
      requires Valid()
      modifies this`head, this`popped
      ensures Valid() && accepted == old(accepted)
      ensures packet == if old(Contents()) == [] then None else Some(old(Contents())[0])
      ensures Contents() == if packet.None? then old(Contents()) else old(Contents())[1..]
    {
      hide RingOk;
      Occupancy(Model(Idle, Waiting));
      var h := head;
      var t := tail;
      if h == t {
        return None;
      }
      PopStarts(Model(Idle, Waiting));
      var len := slots[h % slots.Length].len;
      var out: Bytes := [];
      while |out| < len
        invariant head == old(head) && popped == old(popped)
        invariant |out| <= len
        invariant RingOk(Model(Idle, Reading(h, len, out)))
      {
        ghost var before := Model(Idle, Reading(h, len, out));
        CallGoesOn(before);
        StepKeeps(before, PopCopy);
        out := out + [slots[h % slots.Length].data[|out|]];
      }
      ghost var read := Model(Idle, Reading(h, len, out));
      CallGoesOn(read);
      StepKeeps(read, PopRelease);
      HandedOutWhole(read);
      head := (h + 1) % word;
      popped := popped + [out];
      return Some(out);
    }
  }

  // A push that finds no room, or no slot large enough: three steps, one drop.
  lemma RefusedPush(s: Ring, packet: Bytes)
    requires RingOk(s) && s.producer.Idle?
    ensures s.word > 0
    ensures |packet| > SLOT_BYTES || |s.accepted| == |s.popped| + s.capacity ==>
              RingOk(s.(dropped := (s.dropped + 1) % s.word, offered := s.offered + 1, refused := s.refused + 1))
  {
    AdvanceWrapped(s.refused, 1, s.word);
  }

  lemma PushStarts(s: Ring, packet: Bytes)
    requires RingOk(s) && s.producer.Idle? && |packet| <= SLOT_BYTES
    requires |s.accepted| < |s.popped| + s.capacity
    ensures RingOk(s.(offered := s.offered + 1, producer := Copying(packet, s.tail, 0)))
  {
    assert s.slots[|s.accepted| % s.capacity].data[..0] == packet[..0];
  }

  lemma PopStarts(s: Ring)
    requires RingOk(s) && s.consumer.Waiting? && |s.popped| < |s.accepted|
    ensures s.capacity > 0 && |s.slots| == s.capacity
    ensures RingOk(s.(consumer := Reading(s.head, s.slots[SlotAt(s, s.head)].len, [])))
  {
    SlotOf(s, |s.popped|);
    assert Carries(s.slots[|s.popped| % s.capacity], s.accepted[|s.popped|]);
  }

  lemma HandedOutWhole(s: Ring)
    requires RingOk(s) && Enabled(s, PopRelease)
    ensures |s.popped| < |s.accepted| && s.consumer.out == s.accepted[|s.popped|]
  {
  }
}