// The lock-free ring of PCM samples between the decoder thread and the audio
// callback.
//
// The interleaving model takes one step per atomic access and one per sample
// copied. Each acquire load of the other side's cursor is taken to see the
// latest release store (sequential consistency).

module PcmRing {
  import opened Basics
  import opened Cursors

  type Sample = n: int | -0x8000 <= n < 0x8000

  // Where each thread is in its call, with its locals.
  datatype Producer =
    | Idle
    | LoadedWrite(src: seq<Sample>, w: nat)
    | Copying(src: seq<Sample>, w: nat, n: nat, done: nat)
    | Gauging(w: nat)
    | Gauged(n: nat)                 // what `available` answers the producer

  datatype Consumer =
    | Waiting
    | LoadedRead(room: nat, r: nat)
    | Taking(r: nat, n: nat, out: seq<Sample>)
    | Counting(w: nat, seen: nat)    // `seen` samples were published by then
    | Counted(n: nat, seen: nat)     // what `available` answers the consumer

  datatype Ring = Ring(
    capacity: nat,
    word: nat,
    buf: seq<Sample>,
    write: nat,
    read: nat,
    producer: Producer,
    consumer: Consumer,
    accepted: seq<Sample>,   // every sample published
    popped: seq<Sample>)     // every sample handed out

  function Empty(capacity: nat, word: nat): Ring {
    Ring(capacity, word, seq(capacity, i => 0), 0, 0, Idle, Waiting, [], [])
  }

  datatype Step =
    | PushBegin(src: seq<Sample>)   // load `write`
    | PushLook                      // load `read`, compute how many fit
    | PushCopy                      // one sample into the buffer
    | PushPublish                   // store `write`
    | PopBegin(room: nat)           // load `read`
    | PopLook                       // load `write`, compute how many there are
    | PopCopy                       // one sample out of the buffer
    | PopRelease                    // store `read`
    | GaugeBegin                    // the producer asks: load `write`
    | GaugeLook                     // load `read`
    | GaugeReturn
    | CountBegin                    // the consumer asks: load `write`
    | CountLook                     // load `read`
    | CountReturn

  // Where the threads stand, and that no subtraction or index is out of range;
  // `NeitherThreadSticks` shows the second part never stops a run.
  predicate Enabled(s: Ring, step: Step) {
    && s.word > 0 && s.capacity > 0 && |s.buf| == s.capacity
    && match step
    case PushBegin(_) => s.producer.Idle?
    case PushLook => s.producer.LoadedWrite? && Free(s, s.producer.w) >= 0
    case PushCopy => s.producer.Copying? && s.producer.done < s.producer.n <= |s.producer.src|
    case PushPublish => s.producer.Copying? && s.producer.done == s.producer.n <= |s.producer.src|
    case PopBegin(_) => s.consumer.Waiting?
    case PopLook => s.consumer.LoadedRead?
    case PopCopy => s.consumer.Taking? && |s.consumer.out| < s.consumer.n
    case PopRelease => s.consumer.Taking? && |s.consumer.out| == s.consumer.n
    case GaugeBegin => s.producer.Idle?
    case GaugeLook => s.producer.Gauging?
    case GaugeReturn => s.producer.Gauged?
    case CountBegin => s.consumer.Waiting?
    case CountLook => s.consumer.Counting?
    case CountReturn => s.consumer.Counted?
  }

  // `cap - w.wrapping_sub(r)`, in the machine word.
  function Free(s: Ring, w: nat): int
    requires s.word > 0
  {
    s.capacity - (w - s.read) % s.word
  }

  function SlotAt(s: Ring, cursor: nat, i: nat): nat
    requires s.word > 0 && s.capacity > 0
  {
    ((cursor + i) % s.word) % s.capacity
  }

  ghost predicate Sized(s: Ring) {
    && |s.buf| == s.capacity >= 2
    && exists laps: nat :: laps >= 2 && s.word == s.capacity * laps
  }

  function Next(s: Ring, step: Step): Ring
    requires Enabled(s, step)
  {
    match step
    case PushBegin(src) => s.(producer := LoadedWrite(src, s.write))
    case PushLook =>
      var p := s.producer;
      s.(producer := Copying(p.src, p.w, Min(Free(s, p.w), |p.src|), 0))
    case PushCopy =>
      var p := s.producer;
      s.(buf := s.buf[SlotAt(s, p.w, p.done) := p.src[p.done]], producer := p.(done := p.done + 1))
    case PushPublish =>
      var p := s.producer;
      s.(write := (p.w + p.n) % s.word, producer := Idle,
         accepted := s.accepted + p.src[..p.n])
    case PopBegin(room) => s.(consumer := LoadedRead(room, s.read))
    case PopLook =>
      var c := s.consumer;
      s.(consumer := Taking(c.r, Min((s.write - c.r) % s.word, c.room), []))
    case PopCopy =>
      var c := s.consumer;
      s.(consumer := c.(out := c.out + [s.buf[SlotAt(s, c.r, |c.out|)]]))
    case PopRelease =>
      var c := s.consumer;
      s.(read := (c.r + c.n) % s.word, consumer := Waiting, popped := s.popped + c.out)
    case GaugeBegin => s.(producer := Gauging(s.write))
    case GaugeLook => s.(producer := Gauged((s.producer.w - s.read) % s.word))
    case GaugeReturn => s.(producer := Idle)
    case CountBegin => s.(consumer := Counting(s.write, |s.accepted|))
    case CountLook => s.(consumer := Counted((s.consumer.w - s.read) % s.word, s.consumer.seen))
    case CountReturn => s.(consumer := Waiting)
  }

  // ---- the invariant -------------------------------------------------------

  // Counters behind the cursors: published and handed out so far.
  ghost predicate CountersOk(s: Ring) {
    && s.word > 0
    && |s.popped| <= |s.accepted| <= |s.popped| + s.capacity
    && s.popped == s.accepted[..|s.popped|]
    && s.write == |s.accepted| % s.word
    && s.read == |s.popped| % s.word
  }

  // What is published and not handed out is in its slots.
  ghost predicate LiveOk(s: Ring)
    requires s.capacity > 0 && |s.buf| == s.capacity
  {
    forall i :: |s.popped| <= i < |s.accepted| ==> s.buf[i % s.capacity] == s.accepted[i]
  }

  ghost predicate ProducerOk(s: Ring)
    requires s.capacity > 0 && |s.buf| == s.capacity
  {
    match s.producer
    case Idle => true
    case LoadedWrite(_, w) => w == s.write
    case Copying(src, w, n, done) =>
      && w == s.write && done <= n <= |src|
      && |s.accepted| + n <= |s.popped| + s.capacity
      && forall i :: 0 <= i < done ==> s.buf[(|s.accepted| + i) % s.capacity] == src[i]
    case Gauging(w) => w == s.write
    case Gauged(n) => |s.accepted| - |s.popped| <= n <= s.capacity
  }

  ghost predicate ConsumerOk(s: Ring)
    requires s.word > 0
  {
    match s.consumer
    case Waiting => true
    case LoadedRead(_, r) => r == s.read
    case Taking(r, n, out) =>
      && r == s.read && |out| <= n
      && |s.popped| + n <= |s.accepted|
      && out == s.accepted[|s.popped|..|s.popped| + |out|]
    case Counting(w, seen) => |s.popped| <= seen <= |s.accepted| && w == seen % s.word
    case Counted(n, seen) => |s.popped| <= seen <= |s.accepted| && n == seen - |s.popped|
  }

  ghost predicate RingOk(s: Ring) {
    Sized(s) && CountersOk(s) && LiveOk(s) && ProducerOk(s) && ConsumerOk(s)
  }

  // ---- cursors -------------------------------------------------------------

  lemma WordIsWide(s: Ring)
    requires Sized(s)
    ensures s.word >= 2 * s.capacity > 0
  {
    var laps: nat :| laps >= 2 && s.word == s.capacity * laps;
    assert s.capacity * laps == s.capacity * (laps - 2) + s.capacity * 2;
    assert s.capacity * (laps - 2) >= 0;
  }

  lemma SlotOf(s: Ring, count: nat, i: nat)
    requires Sized(s) && s.word > 0
    ensures SlotAt(s, count % s.word, i) == (count + i) % s.capacity
  {
    var laps: nat :| laps >= 2 && s.word == s.capacity * laps;
    AdvanceWrapped(count, i, s.word);
    SlotSurvivesTheWord(count + i, s.capacity, laps);
  }

  // `free` and `avail` are the true distances, though the cursors wrap.
  lemma Occupancy(s: Ring)
    requires RingOk(s)
    ensures s.word > 0 && |s.popped| <= |s.accepted| <= |s.popped| + s.capacity
    ensures (s.write - s.read) % s.word == |s.accepted| - |s.popped|
  {
    WordIsWide(s);
    WrappedDifference(|s.accepted|, |s.popped|, s.word);
  }

  // A thread inside a call always has its next step, wherever the other is.
  lemma NeitherThreadSticks(s: Ring)
    requires RingOk(s)
    ensures !s.producer.Idle? ==> exists step ::
              step in {PushLook, PushCopy, PushPublish, GaugeLook, GaugeReturn} && Enabled(s, step)
    ensures !s.consumer.Waiting? ==> exists step ::
              step in {PopLook, PopCopy, PopRelease, CountLook, CountReturn} && Enabled(s, step)
  {
    Occupancy(s);
    assert s.producer.LoadedWrite? ==> Enabled(s, PushLook);
    assert s.producer.Copying? ==> Enabled(s, PushCopy) || Enabled(s, PushPublish);
    assert s.consumer.LoadedRead? ==> Enabled(s, PopLook);
    assert s.consumer.Taking? ==> Enabled(s, PopCopy) || Enabled(s, PopRelease);
    assert s.producer.Gauging? ==> Enabled(s, GaugeLook);
    assert s.producer.Gauged? ==> Enabled(s, GaugeReturn);
    assert s.consumer.Counting? ==> Enabled(s, CountLook);
    assert s.consumer.Counted? ==> Enabled(s, CountReturn);
  }

  // ---- each step keeps it --------------------------------------------------

  // A sample is copied into a slot nothing live uses.
  lemma PushCopyKeeps(s: Ring)
    requires RingOk(s) && Enabled(s, PushCopy)
    ensures RingOk(Next(s, PushCopy))
  {
    var p := s.producer;
    var at := |s.accepted| + p.done;
    SlotOf(s, |s.accepted|, p.done);
    var after := Next(s, PushCopy);
    forall i | |s.popped| <= i < at
      ensures after.buf[i % s.capacity] == s.buf[i % s.capacity]
    {
      SlotsDiffer(i, at, s.capacity);
    }
    forall i | 0 <= i < p.done + 1 ensures after.buf[(|s.accepted| + i) % s.capacity] == p.src[i] {
      if i < p.done {
        assert after.buf[(|s.accepted| + i) % s.capacity] == s.buf[(|s.accepted| + i) % s.capacity];
      }
    }
  }

  lemma PublishedIsLive(s: Ring)
    requires RingOk(s) && Enabled(s, PushPublish)
    ensures LiveOk(Next(s, PushPublish))
  {
    var p := s.producer;
    var accepted := s.accepted + p.src[..p.n];
    forall i | |s.popped| <= i < |accepted| ensures s.buf[i % s.capacity] == accepted[i] {
      if i >= |s.accepted| {
        assert s.buf[(|s.accepted| + (i - |s.accepted|)) % s.capacity] == p.src[i - |s.accepted|];
      }
    }
  }

  lemma PushPublishKeeps(s: Ring)
    requires RingOk(s) && Enabled(s, PushPublish)
    ensures RingOk(Next(s, PushPublish))
  {
    PublishedIsLive(s);
    hide LiveOk;
    AdvanceWrapped(|s.accepted|, s.producer.n, s.word);
    var after := Next(s, PushPublish);
    assert after.accepted[..|s.popped|] == s.accepted[..|s.popped|];
    if s.consumer.Taking? {
      var k := |s.popped| + |s.consumer.out|;
      assert after.accepted[|s.popped|..k] == s.accepted[|s.popped|..k];
    }
  }

  lemma PopCopyKeeps(s: Ring)
    requires RingOk(s) && Enabled(s, PopCopy)
    ensures RingOk(Next(s, PopCopy))
  {
    var c := s.consumer;
    SlotOf(s, |s.popped|, |c.out|);
    var k := |s.popped| + |c.out|;
    assert s.accepted[|s.popped|..k + 1] == s.accepted[|s.popped|..k] + [s.accepted[k]];
  }

  lemma PopReleaseKeeps(s: Ring)
    requires RingOk(s) && Enabled(s, PopRelease)
    ensures RingOk(Next(s, PopRelease))
  {
    var c := s.consumer;
    AdvanceWrapped(|s.popped|, c.n, s.word);
    assert s.accepted[..|s.popped| + c.n] == s.accepted[..|s.popped|] + s.accepted[|s.popped|..|s.popped| + c.n];
  }

  lemma LookKeeps(s: Ring, step: Step)
    requires RingOk(s) && Enabled(s, step) && (step.PushLook? || step.PopLook?)
    ensures RingOk(Next(s, step))
  {
    Occupancy(s);
  }

  lemma AskingKeeps(s: Ring, step: Step)
    requires RingOk(s) && Enabled(s, step) && (step.GaugeLook? || step.CountLook?)
    ensures RingOk(Next(s, step))
  {
    Occupancy(s);
    WordIsWide(s);
    if step.CountLook? {
      WrappedDifference(s.consumer.seen, |s.popped|, s.word);
    }
    hide LiveOk;
  }

  // Only the consumer's own release takes samples, and nothing unpublishes one.
  lemma OnlyReleaseTakes(s: Ring, step: Step)
    requires Enabled(s, step)
    ensures !step.PopRelease? ==> Next(s, step).popped == s.popped
    ensures s.accepted <= Next(s, step).accepted
  {
  }

  lemma StepKeeps(s: Ring, step: Step)
    requires RingOk(s) && Enabled(s, step)
    ensures RingOk(Next(s, step))
  {
    match step
    case PushCopy => PushCopyKeeps(s);
    case PushPublish => PushPublishKeeps(s);
    case PopCopy => PopCopyKeeps(s);
    case PopRelease => PopReleaseKeeps(s);
    case PushLook => LookKeeps(s, step);
    case PopLook => LookKeeps(s, step);
    case GaugeLook => AskingKeeps(s, step);
    case CountLook => AskingKeeps(s, step);
    case _ =>
  }

  // ---- runs ----------------------------------------------------------------

  // Some interleaving of the two threads' steps leads from `s` to `t`.
  ghost predicate Reaches(s: Ring, steps: seq<Step>, t: Ring)
    decreases |steps|
  {
    if steps == [] then s == t
    else
      Enabled(s, steps[0]) && Reaches(Next(s, steps[0]), steps[1..], t)
  }

  lemma {:induction false} RunKeeps(s: Ring, steps: seq<Step>, t: Ring)
    requires RingOk(s) && Reaches(s, steps, t)
    ensures RingOk(t)
    decreases |steps|
  {
    if steps != [] {
      StepKeeps(s, steps[0]);
      RunKeeps(Next(s, steps[0]), steps[1..], t);
    }
  }

  // Until the consumer releases, what is there stays and only more comes.
  lemma {:induction false} NothingTakenBefore(s: Ring, steps: seq<Step>, t: Ring)
    requires Reaches(s, steps, t) && PopRelease !in steps
    ensures t.popped == s.popped && s.accepted <= t.accepted
    decreases |steps|
  {
    hide Next, Enabled;
    if steps != [] {
      OnlyReleaseTakes(s, steps[0]);
      NothingTakenBefore(Next(s, steps[0]), steps[1..], t);
    }
  }

  /**
   * What `available` told the consumer can be popped: however both threads go on
   * from there, up to where the next pop has looked and before it releases, that
   * pop takes that many samples, or all it has room for.
   */
  lemma CountedCanBePopped(s: Ring, steps: seq<Step>, t: Ring)
    requires RingOk(s) && s.consumer.Counted?
    requires Reaches(s, steps, t) && PopRelease !in steps && t.consumer.LoadedRead?
    ensures Enabled(t, PopLook) && Next(t, PopLook).consumer.n >= Min(s.consumer.n, t.consumer.room)
  {
    RunKeeps(s, steps, t);
    NothingTakenBefore(s, steps, t);
    hide Reaches;
    Occupancy(t);
  }

  lemma EmptyIsOk(capacity: nat, bits: nat)
    requires bits >= 2 && capacity <= Pow2(bits - 1)
    ensures RingOk(Empty(RingCapacity(capacity), Pow2(bits)))
  {
    CapacityDividesTheWord(capacity, bits);
  }

  /**
   * In every interleaving of one producer and one consumer, over cursors that
   * wrap a word of any width: what is popped is a prefix of what was accepted,
   * occupancy never exceeds the capacity, the slot being written is never one
   * being read, and `available`, asked while the other thread runs, never tells
   * the consumer of more than there is nor the producer of less.
   */
  lemma EveryInterleavingIsFifo(capacity: nat, bits: nat, steps: seq<Step>, s: Ring)
    requires bits >= 2 && capacity <= Pow2(bits - 1)
    requires Reaches(Empty(RingCapacity(capacity), Pow2(bits)), steps, s)
    ensures s.popped <= s.accepted
    ensures |s.accepted| - |s.popped| <= s.capacity
    ensures s.consumer.Counted? ==> s.consumer.n <= |s.accepted| - |s.popped|
    ensures s.producer.Gauged? ==> |s.accepted| - |s.popped| <= s.producer.n <= s.capacity
    ensures s.word > 0 && s.capacity > 0
    ensures Enabled(s, PushCopy) && s.consumer.Taking? ==>
              forall i :: 0 <= i < s.consumer.n ==>
                SlotAt(s, s.producer.w, s.producer.done) != SlotAt(s, s.consumer.r, i)
  {
    EmptyIsOk(capacity, bits);
    RunKeeps(Empty(RingCapacity(capacity), Pow2(bits)), steps, s);
    if Enabled(s, PushCopy) && s.consumer.Taking? {
      var p, c := s.producer, s.consumer;
      SlotOf(s, |s.accepted|, p.done);
      forall i | 0 <= i < c.n ensures SlotAt(s, p.w, p.done) != SlotAt(s, c.r, i) {
        SlotOf(s, |s.popped|, i);
        SlotsDiffer(|s.popped| + i, |s.accepted| + p.done, s.capacity);
      }
    }
  }

  // ---- one call among the other thread's steps --------------------------------

  // A look sees the truth of its moment: a push takes as many samples as are free
  // then, a pop as many as wait, neither more than it was asked for.
  lemma LooksAreExact(s: Ring, step: Step)
    requires RingOk(s) && Enabled(s, step)
    ensures step.PushLook? ==>
              var p := Next(s, step).producer;
              p.Copying? && p.n == Min(s.capacity - (|s.accepted| - |s.popped|), |s.producer.src|)
    ensures step.PopLook? ==>
              var c := Next(s, step).consumer;
              c.Taking? && c.n == Min(|s.accepted| - |s.popped|, s.consumer.room)
  {
    Occupancy(s);
    hide LiveOk, CountersOk;
  }

  // A call of `push` with `src`, begun at `s`, has come as far as `t`.
  ghost predicate Pushing(s: Ring, src: seq<Sample>, t: Ring) {
    match t.producer
    case LoadedWrite(own, _) => own == src && t.accepted == s.accepted
    case Copying(own, _, _, _) => own == src && t.accepted == s.accepted
    case _ => exists n :: 0 <= n <= |src| && t.accepted == s.accepted + src[..n]
  }

  lemma PushingGoesOn(s: Ring, src: seq<Sample>, t: Ring, step: Step)
    requires Pushing(s, src, t) && Enabled(t, step) && !step.PushBegin?
    ensures Pushing(s, src, Next(t, step))
  {
  }

  lemma {:induction false} PushRuns(s: Ring, src: seq<Sample>, u: Ring, steps: seq<Step>, t: Ring)
    requires Pushing(s, src, u) && Reaches(u, steps, t) && forall step :: step in steps ==> !step.PushBegin?
    ensures Pushing(s, src, t)
    decreases |steps|
  {
    hide Pushing, Enabled, Next;
    if steps != [] {
      PushingGoesOn(s, src, u, steps[0]);
      PushRuns(s, src, Next(u, steps[0]), steps[1..], t);
    }
  }

  // Whatever the consumer does meanwhile, a call of `push` that returned published
  // a prefix of its own samples, behind all before them.
  lemma EveryPushTakesAPrefix(s: Ring, src: seq<Sample>, steps: seq<Step>, t: Ring)
    requires Reaches(s, [PushBegin(src)] + steps, t) && t.producer.Idle?
    requires forall step :: step in steps ==> !step.PushBegin?
    ensures exists n :: 0 <= n <= |src| && t.accepted == s.accepted + src[..n]
  {
    var all := [PushBegin(src)] + steps;
    assert all[0] == PushBegin(src) && all[1..] == steps;
    PushRuns(s, src, Next(s, PushBegin(src)), steps, t);
  }

  // ---- the object ----------------------------------------------------------

  // The ring in memory. Each method is one thread's steps in order; the ghost
  // fields are the histories of the model above.
  class Pcm {
    const buf: array<Sample>
    const word: nat
    var write: nat
    var read: nat
    ghost var accepted: seq<Sample>
    ghost var popped: seq<Sample>

    ghost function Model(producer: Producer, consumer: Consumer): Ring
      reads this, buf
    {
      Ring(buf.Length, word, buf[..], write, read, producer, consumer, accepted, popped)
    }

    ghost predicate Valid()
      reads this, buf
    {
      RingOk(Model(Idle, Waiting))
    }

    // Published and not yet handed out, oldest first.
    ghost function Contents(): seq<Sample>
      requires Valid()
      reads this, buf
    {
      accepted[|popped|..]
    }

    constructor (capacity: nat, bits: nat)
      requires bits >= 2 && capacity <= Pow2(bits - 1)
      ensures Valid() && fresh(buf) && buf.Length == RingCapacity(capacity) && Contents() == []
    {
      EmptyIsOk(capacity, bits);
      buf := new Sample[RingCapacity(capacity)](_ => 0);
      word := Pow2(bits);
      write, read := 0, 0;
      accepted, popped := [], [];
      new;
      assert buf[..] == Empty(RingCapacity(capacity), Pow2(bits)).buf;
    }

    method Available() returns (n: nat)
      requires Valid()
      ensures n == |Contents()|
    {
      Occupancy(Model(Idle, Waiting));
      n := (write - read) % word;
    }

    method Push(src: seq<Sample>) returns (n: nat)
      requires Valid()
      modifies this`write, this`accepted, buf
      ensures Valid() && popped == old(popped)
      ensures n == Min(buf.Length - |old(Contents())|, |src|)
      ensures Contents() == old(Contents()) + src[..n]
    {
      hide RingOk;
      Occupancy(Model(Idle, Waiting));
      var w := write;
      var r := read;
      var free := buf.Length - (w - r) % word;
      n := Min(free, |src|);
      CallBegins(Model(Idle, Waiting), src, 0);
      for i := 0 to n
        invariant write == old(write) && accepted == old(accepted)
        invariant RingOk(Model(Copying(src, w, n, i), Waiting))
      {
        ghost var before := Model(Copying(src, w, n, i), Waiting);
        CallGoesOn(before);
        StepKeeps(before, PushCopy);
        buf[((w + i) % word) % buf.Length] := src[i];
        assert Model(Copying(src, w, n, i + 1), Waiting) == Next(before, PushCopy);
      }
      ghost var before := Model(Copying(src, w, n, n), Waiting);
      CallGoesOn(before);
      StepKeeps(before, PushPublish);
      write := (w + n) % word;
      accepted := accepted + src[..n];
      assert Model(Idle, Waiting) == Next(before, PushPublish);
    }

    method Pop(dst: array<Sample>) returns (n: nat)
      requires Valid() && dst != buf
      modifies this`read, this`popped, dst
      ensures Valid() && accepted == old(accepted) && buf[..] == old(buf[..])
      ensures n == Min(|old(Contents())|, dst.Length)
      ensures dst[..n] == old(Contents())[..n] && dst[n..] == old(dst[n..])
      ensures Contents() == old(Contents())[n..]
    {
      hide RingOk;
      Occupancy(Model(Idle, Waiting));
      var r := read;
      var w := write;
      var avail := (w - r) % word;
      n := Min(avail, dst.Length);
      CallBegins(Model(Idle, Waiting), [], dst.Length);
      assert dst[..0] == [];
      for i := 0 to n
        invariant read == old(read) && popped == old(popped) && buf[..] == old(buf[..])
        invariant RingOk(Model(Idle, Taking(r, n, dst[..i])))
        invariant dst[n..] == old(dst[n..])
      {
        ghost var before := Model(Idle, Taking(r, n, dst[..i]));
        CallGoesOn(before);
        StepKeeps(before, PopCopy);
        var sample := buf[((r + i) % word) % buf.Length];
        assert Next(before, PopCopy) == before.(consumer := Taking(r, n, dst[..i] + [sample]));
        dst[i] := sample;
        assert buf[..] == before.buf;
        assert dst[..i + 1] == before.consumer.out + [sample];
      }
      ghost var before := Model(Idle, Taking(r, n, dst[..n]));
      CallGoesOn(before);
      StepKeeps(before, PopRelease);
      HandedOutInOrder(before);
      read := (r + n) % word;
      popped := popped + dst[..n];
      assert Model(Idle, Waiting) == Next(before, PopRelease);
    }
  }

  // What a call finds when nothing has moved between its two loads.
  lemma CallBegins(s: Ring, src: seq<Sample>, room: nat)
    requires RingOk(s) && s.producer.Idle? && s.consumer.Waiting?
    ensures s.word > 0 && s.capacity - (s.write - s.read) % s.word >= 0
    ensures |s.popped| <= |s.accepted|
    ensures RingOk(s.(producer := Copying(src, s.write, Min(s.capacity - (s.write - s.read) % s.word, |src|), 0)))
    ensures RingOk(s.(consumer := Taking(s.read, Min((s.write - s.read) % s.word, room), [])))
  {
    Occupancy(s);
  }

  lemma CallGoesOn(s: Ring)
    requires RingOk(s)
    ensures s.producer.Copying? ==>
              Enabled(s, if s.producer.done < s.producer.n then PushCopy else PushPublish)
    ensures s.consumer.Taking? ==>
              Enabled(s, if |s.consumer.out| < s.consumer.n then PopCopy else PopRelease)
  {
  }

  lemma HandedOutInOrder(s: Ring)
    requires RingOk(s) && Enabled(s, PopRelease)
    ensures |s.popped| + s.consumer.n <= |s.accepted|
    ensures s.consumer.out == s.accepted[|s.popped|..][..s.consumer.n]
  {
  }
}
