// Recovery without a keyframe: how the server answers the report of an undecodable
// frame, and what the encoder may then predict from.

module RefState {
  import opened Cursors
  import opened Seq
  import opened Basics

  const TRACK := 64
  const AV1_REF_SLOTS := 8

  datatype Recovery = Nothing | Invalidate(from: Seq16, to: Seq16) | ForceIdr

  datatype Encoded = Encoded(frameId: Seq16, timestamp: nat, valid: bool)

  datatype Record = Record(ring: seq<Encoded>, next: nat, newest: Option<Seq16>, recoveredThrough: Option<Seq16>)

  type Window = w: Record | |w.ring| == TRACK && w.next < TRACK
    witness Record(seq(TRACK, i => Encoded(0, 0, false)), 0, None, None)

  function NewWindow(): Window {
    Record(seq(TRACK, i => Encoded(0, 0, false)), 0, None, None)
  }

  function Encode(w: Window, frameId: Seq16, timestamp: nat, keyframe: bool): Window
  {
    w.(ring := w.ring[w.next := Encoded(frameId, timestamp, true)],
       next := (w.next + 1) % TRACK,
       newest := Some(frameId),
       recoveredThrough := if keyframe then Some(frameId) else w.recoveredThrough)
  }

  predicate Matches(e: Encoded, frameId: Seq16) {
    e.valid && e.frameId == frameId
  }

  // The first match from position `k` on.
  function Find(ring: seq<Encoded>, frameId: Seq16, k: nat): Option<nat>
    requires k <= |ring|
    decreases |ring| - k
  {
    if k == |ring| then None
    else if Matches(ring[k], frameId) then Some(ring[k].timestamp)
    else Find(ring, frameId, k + 1)
  }

  function TimestampOf(w: Window, frameId: Seq16): Option<nat> {
    Find(w.ring, frameId, 0)
  }

  function Abandon(w: Window, frameId: Seq16, depth: nat): (Window, Recovery) {
    if w.newest.None? then (w, Nothing)
    else if w.recoveredThrough.Some? && !IsNewerThan(frameId, w.recoveredThrough.value) then (w, Nothing)
    else
      var recovered := w.(recoveredThrough := w.newest);
      if TimestampOf(w, frameId).None? then (recovered, ForceIdr)
      else
        var since := DistanceFrom(w.newest.value, frameId);
        (recovered, if since < 0 || since + 1 >= depth then ForceIdr else Invalidate(frameId, w.newest.value))
  }

  // HEVC and H.264 take the encoder's depth, at least two; AV1 has its slots.
  datatype Codec = Hevc(dpbDepth: nat) | H264(dpbDepth: nat) | Av1

  function DepthOf(codec: Codec): nat {
    match codec
    case Av1 => AV1_REF_SLOTS
    case _ => if codec.dpbDepth > 2 then codec.dpbDepth else 2
  }

  class Tracker {
    const ring: array<Encoded>
    var next: nat
    var newest: Option<Seq16>
    var recoveredThrough: Option<Seq16>
    const codec: Codec

    ghost predicate Valid()
      reads this
    {
      ring.Length == TRACK && next < TRACK
    }

    ghost function State(): Window
      reads this, ring
      requires Valid()
    {
      Record(ring[..], next, newest, recoveredThrough)
    }

    constructor (codec: Codec)
      ensures Valid() && fresh(ring) && State() == NewWindow() && this.codec == codec
    {
      ring := new Encoded[TRACK](_ => Encoded(0, 0, false));
      next, newest, recoveredThrough := 0, None, None;
      this.codec := codec;
      new;
      assert ring[..] == NewWindow().ring;
    }

    method OnEncoded(frameId: Seq16, timestamp: nat, keyframe: bool)
      requires Valid()
      modifies this, ring
      ensures Valid() && State() == Encode(old(State()), frameId, timestamp, keyframe)
    {
      ring[next] := Encoded(frameId, timestamp, true);
      next := (next + 1) % TRACK;
      newest := Some(frameId);
      if keyframe {
        recoveredThrough := Some(frameId);
      }
    }

    method Timestamp(frameId: Seq16) returns (timestamp: Option<nat>)
      requires Valid()
      ensures timestamp == TimestampOf(State(), frameId)
    {
      for k := 0 to TRACK
        invariant Find(ring[..], frameId, 0) == Find(ring[..], frameId, k)
      {
        if ring[k].valid && ring[k].frameId == frameId {
          return Some(ring[k].timestamp);
        }
      }
      return None;
    }

    method OnAbandoned(frameId: Seq16) returns (recovery: Recovery)
      requires Valid()
      modifies this`recoveredThrough
      ensures Valid() && (State(), recovery) == Abandon(old(State()), frameId, DepthOf(codec))
    {
      if newest.None? {
        return Nothing;
      }
      if recoveredThrough.Some? && !IsNewerThan(frameId, recoveredThrough.value) {
        return Nothing;
      }
      var tracked := Timestamp(frameId);
      recoveredThrough := newest;
      if tracked.None? {
        return ForceIdr;
      }
      var since := DistanceFrom(newest.value, frameId);
      if since < 0 || since + 1 >= DepthOf(codec) {
        return ForceIdr;
      }
      return Invalidate(frameId, newest.value);
    }
  }

  // ---- the encoder beside it -------------------------------------------------

  // Frame number `i` has the id `Wrap(base + i)`. A P-frame predicts from the
  // newest frame not invalidated when it is encoded.
  datatype Frame = Frame(timestamp: nat, keyframe: bool, reference: nat)

  datatype Stream = Stream(
    window: Window,
    depth: nat,
    base: Seq16,
    frames: seq<Frame>,
    through: Option<nat>,   // the frame `recoveredThrough` names
    lost: set<nat>,         // frames abandoned
    invalid: set<nat>,      // frames in a returned range
    owed: bool,             // the next frame is to be a keyframe
    lastKey: nat)

  function NewStream(depth: nat, base: Seq16): Stream {
    Stream(NewWindow(), depth, base, [], None, {}, {}, true, 0)
  }

  function IdOf(s: Stream, i: int): Seq16 {
    Wrap(s.base + i)
  }

  // The newest of the first `n` frames not invalidated, or 0.
  function NewestUsable(n: nat, invalid: set<nat>): nat {
    if n == 0 then 0 else if n - 1 !in invalid then n - 1 else NewestUsable(n - 1, invalid)
  }

  // A fresh stream and a ForceIdr make the next frame a keyframe whatever was
  // asked for.
  function Encoding(s: Stream, timestamp: nat, asked: bool): Stream
  {
    var n, keyframe := |s.frames|, asked || s.owed;
    s.(window := Encode(s.window, IdOf(s, n), timestamp, keyframe),
       frames := s.frames + [Frame(timestamp, keyframe, NewestUsable(n, s.invalid))],
       through := if keyframe then Some(n) else s.through,
       owed := false,
       lastKey := if keyframe then n else s.lastKey)
  }

  function Answer(s: Stream, f: nat): Recovery {
    Abandon(s.window, IdOf(s, f), s.depth).1
  }

  function Abandoning(s: Stream, f: nat): Stream {
    var answer := Answer(s, f);
    var n := |s.frames|;
    s.(window := Abandon(s.window, IdOf(s, f), s.depth).0,
       lost := s.lost + {f},
       through := if answer.Nothing? || n == 0 then s.through else Some(n - 1),
       invalid := if answer.Invalidate? then s.invalid + Range(f, n) else s.invalid,
       owed := s.owed || answer.ForceIdr?)
  }

  function Range(from: nat, to: nat): (r: set<nat>)
    ensures forall i :: i in r <==> from <= i < to
  {
    if from >= to then {} else Range(from, to - 1) + {to - 1}
  }

  // ---- the window read by number ---------------------------------------------

  function Slot(i: nat): nat {
    i % TRACK
  }

  function RecordOf(s: Stream, i: nat): Encoded
    requires i < |s.frames|
  {
    Encoded(IdOf(s, i), s.frames[i].timestamp, true)
  }

  ghost predicate WindowOk(s: Stream) {
    var n := |s.frames|;
    && s.window.next == Slot(n)
    && s.window.newest == (if n == 0 then None else Some(IdOf(s, n - 1)))
    && s.window.recoveredThrough == (if s.through.None? then None else Some(IdOf(s, s.through.value)))
    && (s.through.Some? ==> s.through.value < n)
    && (forall i: nat :: n - TRACK <= i < n ==> s.window.ring[Slot(i)] == RecordOf(s, i))
    && (forall k :: n <= k < TRACK ==> !s.window.ring[k].valid)
  }

  // Frames the sequence numbers can still tell apart.
  ghost predicate Recent(s: Stream, f: nat) {
    && f < |s.frames| < f + HALF
    && (s.through.Some? ==> |s.frames| - s.through.value < HALF)
  }

  lemma {:induction false} FindHits(ring: seq<Encoded>, frameId: Seq16, k: nat, at: nat)
    requires k <= at < |ring| && Matches(ring[at], frameId)
    requires forall j :: k <= j < at ==> !Matches(ring[j], frameId)
    ensures Find(ring, frameId, k) == Some(ring[at].timestamp)
    decreases at - k
  {
    if k < at {
      FindHits(ring, frameId, k + 1, at);
    }
  }

  lemma {:induction false} FindMisses(ring: seq<Encoded>, frameId: Seq16, k: nat)
    requires k <= |ring| && forall j :: k <= j < |ring| ==> !Matches(ring[j], frameId)
    ensures Find(ring, frameId, k) == None
    decreases |ring| - k
  {
    if k < |ring| {
      FindMisses(ring, frameId, k + 1);
    }
  }

  // The frame in slot `k` when `n` are encoded; negative when there is none.
  function Holder(n: nat, k: nat): (i: int)
    requires k < TRACK
    ensures n - TRACK <= i < n
    ensures i >= 0 ==> Slot(i) == k
    ensures i < 0 ==> n <= k
  {
    n - 1 - (n - 1 - k) % TRACK
  }

  lemma SlotHolds(s: Stream, k: nat, f: nat)
    requires WindowOk(s) && k < TRACK && f < |s.frames| < f + HALF
    ensures Matches(s.window.ring[k], IdOf(s, f)) <==> Holder(|s.frames|, k) == f
  {
    hide Slot, Wrap;
    var i := Holder(|s.frames|, k);
    if i >= 0 {
      assert s.window.ring[Slot(i)] == RecordOf(s, i);
      WrapInjective(s.base + i, s.base + f);
    }
  }

  // A frame among the last TRACK has its own timestamp on record; an older one,
  // while its number is unambiguous, has none.
  lemma TimestampIsOwn(s: Stream, f: nat)
    requires WindowOk(s) && f < |s.frames| < f + HALF
    ensures TimestampOf(s.window, IdOf(s, f))
            == if f >= |s.frames| - TRACK then Some(s.frames[f].timestamp) else None
  {
    hide Slot, Wrap, Matches, Holder, Find;
    var n := |s.frames|;
    var id := IdOf(s, f);
    forall k | 0 <= k < TRACK
      ensures Matches(s.window.ring[k], id) <==> Holder(n, k) == f
    {
      SlotHolds(s, k, f);
    }
    if f >= n - TRACK {
      SlotOf(n, f);
      FindHits(s.window.ring, id, 0, Slot(f));
    } else {
      FindMisses(s.window.ring, id, 0);
    }
  }

  lemma SlotOf(n: nat, f: nat)
    requires n - TRACK <= f < n
    ensures Slot(f) < TRACK && Holder(n, Slot(f)) == f
    ensures forall k :: 0 <= k < Slot(f) ==> Holder(n, k) != f
  {
    var i := Holder(n, Slot(f));
    if 0 <= i < f {
      SlotsDiffer(i, f, TRACK);
    } else if f < i {
      SlotsDiffer(f, i, TRACK);
    }
  }

  /**
   * The answer by frame number: nothing up to the last recovery, a keyframe when
   * the report is too old, else the range through the newest. The depth counts
   * from the report; how far back the fallback then lies is another matter.
   */
  lemma AnswerIsExact(s: Stream, f: nat)
    requires WindowOk(s) && Recent(s, f)
    ensures var n := |s.frames|;
            Answer(s, f)
            == if s.through.Some? && f <= s.through.value then Nothing
               else if f < n - TRACK || n - f >= s.depth then ForceIdr
               else Invalidate(IdOf(s, f), IdOf(s, n - 1))
  {
    var n := |s.frames|;
    if s.through.Some? {
      ModularOrder(s.base + f, s.base + s.through.value);
    }
    ModularOrder(s.base + n - 1, s.base + f);
    TimestampIsOwn(s, f);
  }

  // How far back each codec recovers without a keyframe: AV1 seven frames, HEVC and
  // H.264 one fewer than their depth, and all of them the newest.
  lemma DepthByCodec(s: Stream, f: nat, codec: Codec)
    requires WindowOk(s) && Recent(s, f) && s.depth == DepthOf(codec) && (s.through.Some? ==> s.through.value < f)
    ensures var back := |s.frames| - f;
            Answer(s, f).Invalidate?
            <==> match codec
                 case Av1 => back <= 7
                 case Hevc(depth) => back == 1 || (back < depth && back <= TRACK)
                 case H264(depth) => back == 1 || (back < depth && back <= TRACK)
  {
    AnswerIsExact(s, f);
  }

  // Every frame of a returned range has its own recorded timestamp.
  lemma RangeHasItsTimestamps(s: Stream, f: nat, i: nat)
    requires WindowOk(s) && Recent(s, f) && Answer(s, f).Invalidate? && f <= i < |s.frames|
    ensures TimestampOf(Abandoning(s, f).window, IdOf(s, i)) == Some(s.frames[i].timestamp)
  {
    AnswerIsExact(s, f);
    TimestampIsOwn(s, i);
  }

  lemma EncodingKeepsTheWindow(s: Stream, timestamp: nat, asked: bool)
    requires WindowOk(s)
    ensures WindowOk(Encoding(s, timestamp, asked))
  {
    hide Wrap;
    var n := |s.frames|;
    var s' := Encoding(s, timestamp, asked);
    SlotMoves(n);
    hide Slot;
    forall i: nat | n + 1 - TRACK <= i < n + 1
      ensures s'.window.ring[Slot(i)] == RecordOf(s', i)
    {
      if i < n {
        SlotApart(i, n);
        assert s.window.ring[Slot(i)] == RecordOf(s, i);
      }
    }
  }

  lemma SlotMoves(n: nat)
    ensures Slot(n + 1) == (Slot(n) + 1) % TRACK
    ensures n < TRACK ==> Slot(n) == n
  {
  }

  lemma SlotApart(i: nat, n: nat)
    requires i < n < i + TRACK
    ensures Slot(i) != Slot(n)
  {
    SlotsDiffer(i, n, TRACK);
  }

  lemma AbandoningKeepsTheWindow(s: Stream, f: nat)
    requires WindowOk(s)
    ensures WindowOk(Abandoning(s, f))
  {
    hide Slot, Wrap, TimestampOf;
  }

  // ---- what may be predicted from --------------------------------------------

  // Decodable at the client: nothing it depends on was abandoned.
  predicate Good(frames: seq<Frame>, lost: set<nat>, i: nat)
    decreases i
  {
    && i < |frames| && i !in lost
    && (frames[i].keyframe || (frames[i].reference < i && Good(frames, lost, frames[i].reference)))
  }

  predicate Usable(s: Stream, i: nat) {
    s.lastKey <= i < |s.frames| && i !in s.invalid
  }

  ghost predicate PredictionOk(s: Stream) {
    var n := |s.frames|;
    && (forall i: nat :: i in s.lost || i in s.invalid ==> i < n)
    && (forall i: nat :: i in s.invalid ==> s.through.Some? && i <= s.through.value)
    && (!s.owed ==> s.through.Some? && (s.through.value == s.lastKey || s.through.value in s.invalid))
    && (!s.owed ==>
          && s.lastKey < n && s.frames[s.lastKey].keyframe && s.lastKey !in s.invalid
          && s.through.Some? && s.lastKey <= s.through.value
          && forall i: nat :: Usable(s, i) && i != s.lastKey ==>
               !s.frames[i].keyframe && s.frames[i].reference < i && Usable(s, s.frames[i].reference))
  }

  // Nothing the encoder may predict from was abandoned.
  ghost predicate NoneLost(s: Stream) {
    !s.owed ==> forall i: nat :: Usable(s, i) ==> i !in s.lost
  }

  lemma {:induction false} NewestUsableIsNewest(s: Stream, n: nat)
    requires s.lastKey < n <= |s.frames| && s.lastKey !in s.invalid
    ensures var r := NewestUsable(n, s.invalid);
            Usable(s, r) && r < n && forall i: nat :: Usable(s, i) && i < n ==> i <= r
  {
    if n - 1 in s.invalid {
      NewestUsableIsNewest(s, n - 1);
    }
  }

  lemma EncodingKeepsPrediction(s: Stream, timestamp: nat, asked: bool)
    requires WindowOk(s) && PredictionOk(s)
    ensures PredictionOk(Encoding(s, timestamp, asked))
    ensures NoneLost(s) ==> NoneLost(Encoding(s, timestamp, asked))
  {
    hide Encode;
    var n := |s.frames|;
    var s' := Encoding(s, timestamp, asked);
    if !(asked || s.owed) {
      NewestUsableIsNewest(s, n);
      forall i: nat | Usable(s', i) && i != s'.lastKey
        ensures !s'.frames[i].keyframe && s'.frames[i].reference < i && Usable(s', s'.frames[i].reference)
        ensures NoneLost(s) ==> i !in s.lost
      {
        assert i < n ==> Usable(s, i);
      }
      assert Usable(s, s.lastKey);
    }
  }

  lemma AbandoningKeepsPrediction(s: Stream, f: nat)
    requires WindowOk(s) && PredictionOk(s) && Recent(s, f)
    ensures PredictionOk(Abandoning(s, f))
  {
    hide Abandon, TimestampOf;
    AnswerIsExact(s, f);
    var s' := Abandoning(s, f);
    if !s'.owed {
      forall i: nat | Usable(s', i) && i != s'.lastKey
        ensures !s'.frames[i].keyframe && s'.frames[i].reference < i && Usable(s', s'.frames[i].reference)
      {
        assert Usable(s, i);
        assert Usable(s, s.frames[i].reference);
      }
    }
  }

  // What the server can check of a report: an earlier answer took the frame out,
  // a keyframe superseded it or is on its way, or it is newer than every recovery.
  predicate Covered(s: Stream, f: nat) {
    s.owed || f in s.invalid || f < s.lastKey || s.through.None? || f > s.through.value
  }

  /**
   * After an abandon the encoder predicts from nothing abandoned exactly when
   * the report was covered: the rule that a report at or before the last
   * recovery is old news is wrong in every other case.
   */
  lemma CoveredIsExact(s: Stream, f: nat)
    requires WindowOk(s) && PredictionOk(s) && NoneLost(s) && Recent(s, f)
    ensures NoneLost(Abandoning(s, f)) <==> Covered(s, f)
  {
    hide Abandon, TimestampOf;
    AnswerIsExact(s, f);
    var s' := Abandoning(s, f);
    forall i: nat | Usable(s', i) && !s.owed && i != f
      ensures i !in s'.lost
    {
      assert Usable(s, i);
    }
    assert Usable(s', f) ==> f in s'.lost;
  }

  lemma {:induction false} UsableIsGood(s: Stream, i: nat)
    requires PredictionOk(s) && NoneLost(s) && !s.owed && Usable(s, i)
    ensures Good(s.frames, s.lost, i)
    decreases i
  {
    if i != s.lastKey {
      UsableIsGood(s, s.frames[i].reference);
    }
  }

  // ---- whole streams ---------------------------------------------------------

  datatype Event = Encodes(timestamp: nat, asked: bool) | Abandons(f: nat)

  function Step(s: Stream, e: Event): Stream
  {
    match e
    case Encodes(timestamp, asked) => Encoding(s, timestamp, asked)
    case Abandons(f) => Abandoning(s, f)
  }

  // Reports come oldest first and never name a keyframe.
  ghost predicate Legal(s: Stream, e: Event, oldest: nat) {
    e.Abandons? ==> Recent(s, e.f) && oldest <= e.f && !s.frames[e.f].keyframe
  }

  function OldestNext(e: Event, oldest: nat): nat {
    if e.Abandons? then e.f else oldest
  }

  // A report still to come at or before the last recovery names a frame it took out.
  ghost predicate OldNewsIsInvalid(s: Stream, oldest: nat) {
    !s.owed && s.through.Some? ==> forall i: nat :: oldest <= i <= s.through.value && s.lastKey < i ==> i in s.invalid
  }

  ghost predicate StreamOk(s: Stream, oldest: nat) {
    WindowOk(s) && PredictionOk(s) && NoneLost(s) && OldNewsIsInvalid(s, oldest)
  }

  lemma StepKeeps(s: Stream, e: Event, oldest: nat)
    requires StreamOk(s, oldest) && Legal(s, e, oldest)
    ensures StreamOk(Step(s, e), OldestNext(e, oldest))
    ensures e.Abandons? ==> Covered(s, e.f)
  {
    hide Abandon, TimestampOf, Encode;
    match e {
      case Encodes(timestamp, asked) => {
        EncodingKeepsTheWindow(s, timestamp, asked);
        EncodingKeepsPrediction(s, timestamp, asked);
      }
      case Abandons(f) => {
        AbandoningKeepsTheWindow(s, f);
        AbandoningKeepsPrediction(s, f);
        CoveredIsExact(s, f);
        AnswerIsExact(s, f);
      }
    }
  }

  ghost predicate LegalRun(s: Stream, events: seq<Event>, oldest: nat)
    decreases |events|
  {
    events == [] ||
    (Legal(s, events[0], oldest) && LegalRun(Step(s, events[0]), events[1..], OldestNext(events[0], oldest)))
  }

  function After(s: Stream, events: seq<Event>): Stream
    decreases |events|
  {
    if events == [] then s else After(Step(s, events[0]), events[1..])
  }

  lemma {:induction false} RunKeeps(s: Stream, events: seq<Event>, oldest: nat) returns (last: nat)
    requires StreamOk(s, oldest) && LegalRun(s, events, oldest)
    ensures StreamOk(After(s, events), last)
    decreases |events|
  {
    hide WindowOk, PredictionOk, NoneLost, OldNewsIsInvalid, Step;
    if events == [] {
      last := oldest;
    } else {
      StepKeeps(s, events[0], oldest);
      last := RunKeeps(Step(s, events[0]), events[1..], OldestNext(events[0], oldest));
    }
  }

  lemma NewStreamOk(depth: nat, base: Seq16)
    ensures StreamOk(NewStream(depth, base), 0)
  {
  }

  /**
   * Over every run with reports oldest first that never name a keyframe, the
   * next frame, unless it is a keyframe, predicts from one the client can decode
   * all the way back to a keyframe; and every frame since the last keyframe that
   * it cannot decode lies in a returned range.
   */
  lemma EveryRunPredictsFromTheDecodable(depth: nat, base: Seq16, events: seq<Event>, timestamp: nat)
    requires LegalRun(NewStream(depth, base), events, 0)
    ensures var s := After(NewStream(depth, base), events);
            var next := Encoding(s, timestamp, false);
            var n := |s.frames|;
            && |next.frames| == n + 1
            && (next.frames[n].keyframe || Good(s.frames, s.lost, next.frames[n].reference))
            && (s.owed || forall i: nat :: s.lastKey <= i < n && !Good(s.frames, s.lost, i) ==> i in s.invalid)
  {
    var s := After(NewStream(depth, base), events);
    NewStreamOk(depth, base);
    var _ := RunKeeps(NewStream(depth, base), events, 0);
    if !s.owed {
      NewestUsableIsNewest(s, |s.frames|);
      forall i: nat | Usable(s, i)
        ensures Good(s.frames, s.lost, i)
      {
        UsableIsGood(s, i);
      }
    }
  }

  /**
   * After an invalidation the fallback is the newest frame below the abandoned
   * one not taken out before, and it is still among the last `depth` frames if
   * and only if earlier recoveries left one of those below the abandoned frame.
   */
  lemma FallbackIsInTheDpb(s: Stream, f: nat)
    requires WindowOk(s) && PredictionOk(s) && Recent(s, f) && !s.owed
    requires Answer(s, f).Invalidate?
    ensures var s' := Abandoning(s, f);
            var r := NewestUsable(|s'.frames|, s'.invalid);
            && r < f && r !in s.invalid && (forall i: nat :: r < i < f ==> i in s.invalid)
            && (|s.frames| - r <= s.depth <==> !(Range(Max(0, |s.frames| - s.depth), f) <= s.invalid))
  {
    hide Abandon, TimestampOf;
    AnswerIsExact(s, f);
    var s' := Abandoning(s, f);
    var r := NewestUsable(|s'.frames|, s'.invalid);
    NewestUsableIsNewest(s', |s'.frames|);
    assert Usable(s', s.lastKey);
    forall i: nat | r < i < f
      ensures i in s.invalid
    {
      assert !Usable(s', i);
    }
    if |s.frames| - r <= s.depth {
      assert r in Range(Max(0, |s.frames| - s.depth), f);
    }
  }

  // It is the frame just before the abandoned one exactly when that frame is newer
  // than the last recovery, or is the last keyframe; then it is never too far back.
  lemma FirstRecoveryFallsBackOne(s: Stream, f: nat)
    requires WindowOk(s) && PredictionOk(s) && Recent(s, f) && !s.owed
    requires Answer(s, f).Invalidate?
    ensures var s' := Abandoning(s, f);
            var first := s.through.value < f - 1 || s.lastKey == f - 1;
            && (NewestUsable(|s'.frames|, s'.invalid) == f - 1 <==> first)
            && (first ==> |s.frames| - (f - 1) <= s.depth)
  {
    FallbackIsInTheDpb(s, f);
    AnswerIsExact(s, f);
    JustBelowTheReport(s, f);
    hide Abandon, TimestampOf, WindowOk, PredictionOk, NewestUsable;
  }

  lemma JustBelowTheReport(s: Stream, f: nat)
    requires WindowOk(s) && PredictionOk(s) && Recent(s, f) && !s.owed && s.through.Some? && f > s.through.value
    ensures f - 1 in s.invalid <==> !(s.through.value < f - 1 || s.lastKey == f - 1)
  {
    var prev: nat := f - 1;
    assert prev in s.invalid ==> prev <= s.through.value;
  }

  // Frame `n` encoded and abandoned, and the next, `count` times.
  function Rounds(n: nat, count: nat): seq<Event>
    decreases count
  {
    if count == 0 then [] else [Encodes(n, false), Abandons(n)] + Rounds(n + 1, count - 1)
  }

  // Of `n` frames all but the keyframe were lost, reported and taken out.
  ghost predicate Losing(s: Stream, n: nat) {
    && WindowOk(s) && |s.frames| == n >= 1 && s.depth >= 2
    && s.lastKey == 0 && !s.owed && s.through == Some(n - 1) && s.invalid == Range(1, n)
  }

  lemma LosesOneMore(s: Stream, n: nat, oldest: nat)
    requires Losing(s, n) && oldest <= n
    ensures var s1 := Encoding(s, n, false);
            Legal(s1, Abandons(n), oldest) && Losing(Abandoning(s1, n), n + 1) && Abandoning(s1, n).depth == s.depth
  {
    hide Abandon, TimestampOf, Encode, Slot;
    EncodingKeepsTheWindow(s, n, false);
    var s1 := Encoding(s, n, false);
    AnswerIsExact(s1, n);
    AbandoningKeepsTheWindow(s1, n);
    assert Range(1, n) + Range(n, n + 1) == Range(1, n + 1);
  }

  lemma {:induction false} LosesOn(s: Stream, n: nat, count: nat, oldest: nat)
    requires Losing(s, n) && oldest <= n
    ensures LegalRun(s, Rounds(n, count), oldest)
    ensures var end := After(s, Rounds(n, count)); Losing(end, n + count) && end.depth == s.depth
    decreases count
  {
    hide Losing, Legal, Encoding, Abandoning;
    if count > 0 {
      var events := Rounds(n, count);
      var s1 := Encoding(s, n, false);
      LosesOneMore(s, n, oldest);
      LosesOn(Abandoning(s1, n), n + 1, count - 1, n);
      assert events[0] == Encodes(n, false) && events[1..][0] == Abandons(n);
      assert events[1..][1..] == Rounds(n + 1, count - 1);
      assert Legal(s, events[0], oldest) by { EncodingIsLegal(s, n, oldest); }
      RunUnrolls(s, events, oldest);
      RunUnrolls(s1, events[1..], oldest);
    }
  }

  lemma EncodingIsLegal(s: Stream, timestamp: nat, oldest: nat)
    ensures Legal(s, Encodes(timestamp, false), oldest)
  {
  }

  lemma RunUnrolls(s: Stream, events: seq<Event>, oldest: nat)
    requires events != []
    ensures LegalRun(s, events, oldest)
            <==> Legal(s, events[0], oldest) && LegalRun(Step(s, events[0]), events[1..], OldestNext(events[0], oldest))
    ensures After(s, events) == After(Step(s, events[0]), events[1..])
  {
  }

  lemma {:induction false} OnlyTheFirstIsUsable(n: nat)
    requires n >= 1
    ensures NewestUsable(n, Range(1, n)) == 0
  {
    OnlyTheFirstIsUsableOf(n, n);
  }

  lemma {:induction false} OnlyTheFirstIsUsableOf(m: nat, n: nat)
    requires 1 <= m <= n
    ensures NewestUsable(m, Range(1, n)) == 0
  {
    if m > 1 {
      OnlyTheFirstIsUsableOf(m - 1, n);
    }
  }

  /**
   * The bound on the report does not bound the fallback: lose `depth` frames after
   * a keyframe, each reported before the next is encoded, and every answer is an
   * invalidation, none a keyframe, yet the next frame predicts from the keyframe,
   * one further back than `depth`.
   */
  lemma ChainedRecoveriesLeaveTheDpb(depth: nat, base: Seq16)
    requires depth >= 2
    ensures var events := [Encodes(0, true)] + Rounds(1, depth);
            && LegalRun(NewStream(depth, base), events, 0)
            && var s := After(NewStream(depth, base), events);
               var next := Encoding(s, 0, false);
               && !s.owed && |s.frames| == depth + 1
               && |next.frames| == depth + 2 && !next.frames[depth + 1].keyframe
               && next.frames[depth + 1].reference == 0 && |s.frames| - 0 > depth
  {
    hide Losing, Legal, WindowOk, Abandoning, Encode;
    var s0 := NewStream(depth, base);
    var events := [Encodes(0, true)] + Rounds(1, depth);
    assert events[0] == Encodes(0, true) && events[1..] == Rounds(1, depth);
    assert Legal(s0, events[0], 0) by { FirstIsLegal(s0); }
    RunUnrolls(s0, events, 0);
    KeyframeAlone(depth, base);
    LosesOn(Encoding(s0, 0, true), 1, depth, 0);
    var s := After(s0, events);
    LosingIs(s, depth + 1);
    OnlyTheFirstIsUsable(depth + 1);
  }

  lemma FirstIsLegal(s: Stream)
    ensures Legal(s, Encodes(0, true), 0)
  {
  }

  lemma KeyframeAlone(depth: nat, base: Seq16)
    requires depth >= 2
    ensures var s := Encoding(NewStream(depth, base), 0, true); Losing(s, 1) && s.depth == depth
  {
    NewStreamOk(depth, base);
    EncodingKeepsTheWindow(NewStream(depth, base), 0, true);
    hide WindowOk, Encode;
  }

  lemma LosingIs(s: Stream, n: nat)
    requires Losing(s, n)
    ensures |s.frames| == n && !s.owed && s.invalid == Range(1, n)
  {
  }

  /**
   * Reported out of order, a loss is missed: with 2 abandoned and answered, the
   * report of 1 gets no answer and the next frame predicts from it.
   */
  lemma NewestFirstIsMissed(base: Seq16)
    ensures var s := After(NewStream(8, base), [Encodes(0, true), Encodes(1, false), Encodes(2, false), Abandons(2)]);
            && Answer(s, 1) == Nothing
            && var next := Encoding(Abandoning(s, 1), 3, false);
               !next.frames[3].keyframe && next.frames[3].reference == 1 && 1 in next.lost
  {
    hide WindowOk, PredictionOk, NoneLost, OldNewsIsInvalid, Abandon, Encode, TimestampOf, Wrap;
    var s0 := NewStream(8, base);
    var s1 := Encoding(s0, 0, true);
    var s2 := Encoding(s1, 1, false);
    var s3 := Encoding(s2, 2, false);
    var s4 := Abandoning(s3, 2);
    NewStreamOk(8, base);
    StepKeeps(s0, Encodes(0, true), 0);
    StepKeeps(s1, Encodes(1, false), 0);
    StepKeeps(s2, Encodes(2, false), 0);
    AnswerIsExact(s3, 2);
    StepKeeps(s3, Abandons(2), 0);
    AnswerIsExact(s4, 1);
    assert NewestUsable(3, s4.invalid) == NewestUsable(2, s4.invalid) == 1;
    var events := [Encodes(0, true), Encodes(1, false), Encodes(2, false), Abandons(2)];
    assert s4 == After(s0, events) by {
      assert events[1..] == [Encodes(1, false), Encodes(2, false), Abandons(2)];
      assert events[1..][1..] == [Encodes(2, false), Abandons(2)];
      assert events[1..][1..][1..] == [Abandons(2)];
      assert events[1..][1..][1..][1..] == [];
    }
  }
}
