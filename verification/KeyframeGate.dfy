// The client's keyframe gate, and the release loop that drives it: nothing is
// fed to the decoder whose reference was never fed.

module KeyframeGate {
  import opened Basics
  import opened Cursors
  import opened Seq

  const IDR_RETRY_MS := 500

  datatype GateState = GateState(first: Seq16, open: bool, askAtMs: nat)

  function NewGate(first: Seq16, nowMs: nat): GateState {
    GateState(first, false, nowMs)
  }

  // The build's IDR went to the old configuration.
  predicate Spent(first: Seq16, lastFed: Option<Seq16>) {
    lastFed.Some? && !IsNewerThan(first, lastFed.value)
  }

  function Close(g: GateState, first: Seq16, lastFed: Option<Seq16>, nowMs: nat): GateState {
    GateState(first, false, if Spent(first, lastFed) then nowMs else nowMs + IDR_RETRY_MS)
  }

  predicate Admits(g: GateState, frameId: Seq16, keyframe: bool) {
    !IsNewerThan(g.first, frameId) && (g.open || keyframe)
  }

  function OnFed(g: GateState, keyframe: bool): GateState {
    g.(open := g.open || keyframe)
  }

  function OnLoss(g: GateState, nowMs: nat): GateState {
    if g.open then g.(open := false, askAtMs := nowMs + IDR_RETRY_MS) else g
  }

  predicate Asks(g: GateState, nowMs: nat) {
    !g.open && g.askAtMs <= nowMs
  }

  function OnTick(g: GateState, nowMs: nat): GateState {
    if Asks(g, nowMs) then g.(askAtMs := nowMs + IDR_RETRY_MS) else g
  }

  class Gate {
    var first: Seq16
    var open: bool
    var askAtMs: nat

    ghost function State(): GateState
      reads this
    {
      GateState(first, open, askAtMs)
    }

    constructor (first: Seq16, nowMs: nat)
      ensures State() == NewGate(first, nowMs)
    {
      this.first, open, askAtMs := first, false, nowMs;
    }

    method Shut(first: Seq16, lastFed: Option<Seq16>, nowMs: nat)
      modifies this
      ensures State() == Close(old(State()), first, lastFed, nowMs)
    {
      this.first := first;
      open := false;
      var spent := lastFed.Some? && !IsNewerThan(first, lastFed.value);
      askAtMs := if spent then nowMs else nowMs + IDR_RETRY_MS;
    }

    method Admit(frameId: Seq16, keyframe: bool) returns (admitted: bool)
      ensures admitted == Admits(State(), frameId, keyframe)
    {
      if IsNewerThan(first, frameId) {
        return false;
      }
      return open || keyframe;
    }

    method Fed(keyframe: bool)
      modifies this`open
      ensures State() == OnFed(old(State()), keyframe)
    {
      if keyframe {
        open := true;
      }
    }

    method Loss(nowMs: nat)
      modifies this
      ensures State() == OnLoss(old(State()), nowMs)
    {
      if open {
        open := false;
        askAtMs := nowMs + IDR_RETRY_MS;
      }
    }

    method Tick(nowMs: nat) returns (ask: bool)
      modifies this`askAtMs
      ensures ask == Asks(old(State()), nowMs) && State() == OnTick(old(State()), nowMs)
    {
      if open || nowMs < askAtMs {
        return false;
      }
      askAtMs := nowMs + IDR_RETRY_MS;
      return true;
    }
  }

  // ---- the release loop ------------------------------------------------------

  // `queued` is what the decoder took since it was last configured; `reported`
  // the frames told to the server as abandoned; `discarded` those whose
  // fragments the reassembler was told to drop.
  datatype Loop = Loop(
    gate: GateState,
    gateOnLoss: bool,
    lastFed: Option<Seq16>,
    queued: seq<(Seq16, bool)>,
    reported: seq<Seq16>,
    discarded: seq<Seq16>)

  // From one id up to another, through the wrap.
  function Walk(from: Seq16, to: Seq16): seq<Seq16>
    decreases (to - from) % SPAN
  {
    if from == to then [] else
    StepShortens(from, to);
    [from] + Walk(Next(from), to)
  }

  lemma StepShortens(from: Seq16, to: Seq16)
    requires from != to
    ensures (to - Next(from)) % SPAN == (to - from) % SPAN - 1
  {
    assert (to - from) % SPAN == if to > from then to - from else to - from + SPAN;
  }

  lemma {:induction false} WalkIsTheRange(from: int, count: nat)
    requires count < SPAN
    ensures var ids := Walk(Wrap(from), Wrap(from + count));
            |ids| == count && forall k :: 0 <= k < count ==> ids[k] == Wrap(from + k)
    decreases count
  {
    hide Wrap;
    WrapInjective(from, from + count);
    if count > 0 {
      NextIsSuccessor(from);
      WalkIsTheRange(from + 1, count - 1);
      var ids, rest := Walk(Wrap(from), Wrap(from + count)), Walk(Wrap(from + 1), Wrap(from + count));
      assert ids == [Wrap(from)] + rest;
      forall k | 0 <= k < count
        ensures ids[k] == Wrap(from + k)
      {
        assert k > 0 ==> rest[k - 1] == Wrap(from + 1 + (k - 1));
      }
    }
  }

  function LossGate(l: Loop, nowMs: nat): GateState {
    if l.gateOnLoss then OnLoss(l.gate, nowMs) else l.gate
  }

  function SteppedOver(l: Loop, from: Seq16, frameId: Seq16, nowMs: nat): Loop {
    l.(reported := l.reported + [from], discarded := l.discarded + Walk(from, frameId), gate := LossGate(l, nowMs))
  }

  // `copied`: the frame's bytes were still there. `taken`: the decoder queued it.
  function Offered(l: Loop, frameId: Seq16, keyframe: bool, copied: bool, taken: bool, nowMs: nat): Loop {
    if !(Admits(l.gate, frameId, keyframe) && copied) then l
    else if taken then
      l.(gate := OnFed(l.gate, keyframe), lastFed := Some(frameId), queued := l.queued + [(frameId, keyframe)])
    else l.(reported := l.reported + [frameId], gate := LossGate(l, nowMs))
  }

  function Released(l: Loop, frameId: Seq16, steppedOver: Option<Seq16>, keyframe: bool,
                    copied: bool, taken: bool, nowMs: nat): Loop {
    var stepped := if steppedOver.Some? then SteppedOver(l, steppedOver.value, frameId, nowMs) else l;
    Offered(stepped, frameId, keyframe, copied, taken, nowMs)
  }

  // A CodecPrivate that changes what the decoder sees.
  function Reconfigured(l: Loop, first: Seq16, nowMs: nat): Loop {
    l.(gate := Close(l.gate, first, l.lastFed, nowMs), queued := [])
  }

  function Drained(l: Loop, abandoned: seq<Seq16>, nowMs: nat): Loop {
    l.(reported := l.reported + abandoned, gate := if abandoned == [] then l.gate else LossGate(l, nowMs))
  }

  class ReleaseLoop {
    const gate: Gate
    const gateOnLoss: bool
    var lastFed: Option<Seq16>
    var queued: seq<(Seq16, bool)>
    var reported: seq<Seq16>
    var discarded: seq<Seq16>

    ghost function State(): Loop
      reads this, gate
    {
      Loop(gate.State(), gateOnLoss, lastFed, queued, reported, discarded)
    }

    constructor (first: Seq16, gateOnLoss: bool, nowMs: nat)
      ensures fresh(gate) && State() == Loop(NewGate(first, nowMs), gateOnLoss, None, [], [], [])
    {
      gate := new Gate(first, nowMs);
      this.gateOnLoss := gateOnLoss;
      lastFed, queued, reported, discarded := None, [], [], [];
    }

    method Release(frameId: Seq16, steppedOver: Option<Seq16>, keyframe: bool, copied: bool, taken: bool, nowMs: nat)
      modifies this, gate
      ensures State() == Released(old(State()), frameId, steppedOver, keyframe, copied, taken, nowMs)
    {
      if steppedOver.Some? {
        reported := reported + [steppedOver.value];
        Discard(steppedOver.value, frameId);
        if gateOnLoss {
          gate.Loss(nowMs);
        }
      }
      var admitted := gate.Admit(frameId, keyframe);
      if admitted && copied {
        if taken {
          queued := queued + [(frameId, keyframe)];
          gate.Fed(keyframe);
          lastFed := Some(frameId);
        } else {
          reported := reported + [frameId];
          if gateOnLoss {
            gate.Loss(nowMs);
          }
        }
      }
    }

    method Discard(from: Seq16, to: Seq16)
      modifies this`discarded
      ensures discarded == old(discarded) + Walk(from, to)
    {
      var id := from;
      while id != to
        invariant discarded + Walk(id, to) == old(discarded) + Walk(from, to)
        decreases (to - id) % SPAN
      {
        StepShortens(id, to);
        assert discarded + Walk(id, to) == (discarded + [id]) + Walk(Next(id), to);
        discarded := discarded + [id];
        id := Next(id);
      }
    }

    method Reconfigure(first: Seq16, nowMs: nat)
      modifies this, gate
      ensures State() == Reconfigured(old(State()), first, nowMs)
    {
      queued := [];
      gate.Shut(first, lastFed, nowMs);
    }

    method DrainAbandoned(abandoned: seq<Seq16>, nowMs: nat)
      modifies this, gate
      ensures State() == Drained(old(State()), abandoned, nowMs)
    {
      reported := reported + abandoned;
      if |abandoned| > 0 && gateOnLoss {
        gate.Loss(nowMs);
      }
    }
  }

  // ---- whole sessions --------------------------------------------------------

  // Frame number `n` has the id `Wrap(base + n)`. `first` is the number the
  // gate's build starts at, `next` the one the jitter buffer expects, `decoder`
  // the numbers behind `loop.queued`.
  datatype Picture = Picture(number: int, keyframe: bool)

  datatype Session = Session(
    loop: Loop, base: Seq16, first: int, next: Option<int>, decoder: seq<Picture>, clock: nat, asks: seq<nat>)

  datatype Event =
    | Releases(number: int, keyframe: bool, copied: bool, taken: bool, at: nat)
    | Rebuilds(first: int, changed: bool, at: nat)
    | Drains(abandoned: seq<Seq16>, at: nat)
    | Ticks(at: nat)

  function NewSession(base: Seq16, first: int, gateOnLoss: bool, now: nat): Session {
    Session(Loop(NewGate(Wrap(base + first), now), gateOnLoss, None, [], [], []), base, first, None, [], now, [])
  }

  function IdOf(s: Session, number: int): Seq16 {
    Wrap(s.base + number)
  }

  // The jitter buffer names the frame it expected when it released a later one.
  function SteppedFrom(s: Session, number: int): Option<Seq16> {
    if s.next.Some? && s.next.value < number then Some(IdOf(s, s.next.value)) else None
  }

  function Step(s: Session, e: Event): Session {
    match e
    case Releases(number, keyframe, copied, taken, at) =>
      var loop := Released(s.loop, IdOf(s, number), SteppedFrom(s, number), keyframe, copied, taken, at);
      s.(loop := loop, next := Some(number + 1), clock := at,
         decoder := if |loop.queued| > |s.loop.queued| then s.decoder + [Picture(number, keyframe)] else s.decoder)
    case Rebuilds(first, changed, at) =>
      if !changed then s.(clock := at)
      else s.(loop := Reconfigured(s.loop, IdOf(s, first), at), first := first, decoder := [], clock := at)
    case Drains(abandoned, at) =>
      s.(loop := Drained(s.loop, abandoned, at), clock := at)
    case Ticks(at) =>
      s.(loop := s.loop.(gate := OnTick(s.loop.gate, at)), clock := at,
         asks := if Asks(s.loop.gate, at) then s.asks + [at] else s.asks)
  }

  // Releases in order, their numbers within half the space of the build's first,
  // every admitted frame's bytes still held, the clock not running back.
  predicate Legal(s: Session, e: Event) {
    && s.clock <= e.at
    && (e.Releases? ==>
          e.copied && -HALF < e.number - s.first < HALF && (s.next.Some? ==> s.next.value <= e.number))
  }

  // Every P-frame follows its predecessor, back to a keyframe of this build.
  ghost predicate Anchored(decoder: seq<Picture>, first: int) {
    forall k :: 0 <= k < |decoder| ==>
      && first <= decoder[k].number
      && (decoder[k].keyframe || (k > 0 && decoder[k].number == decoder[k - 1].number + 1))
  }

  // What was queued, by number.
  ghost predicate QueuedAre(queued: seq<(Seq16, bool)>, base: Seq16, decoder: seq<Picture>) {
    && |queued| == |decoder|
    && forall k :: 0 <= k < |decoder| ==> queued[k] == (Wrap(base + decoder[k].number), decoder[k].keyframe)
  }

  ghost predicate SessionOk(s: Session) {
    && s.loop.gate.first == IdOf(s, s.first)
    && QueuedAre(s.loop.queued, s.base, s.decoder)
    && Anchored(s.decoder, s.first)
    && (s.loop.gate.open ==> |s.decoder| > 0 && s.next == Some(s.decoder[|s.decoder| - 1].number + 1))
    && (!s.loop.gate.open ==> s.loop.gate.askAtMs <= s.clock + IDR_RETRY_MS)
  }

  lemma ReleaseKeeps(s: Session, e: Event)
    requires SessionOk(s) && s.loop.gateOnLoss && Legal(s, e) && e.Releases?
    ensures SessionOk(Step(s, e)) && Step(s, e).loop.gateOnLoss
  {
    hide Wrap, Walk, IsNewerThan, Anchored, QueuedAre;
    ModularOrder(s.base + s.first, s.base + e.number);
    QueueGrows(s.loop.queued, s.base, s.decoder, e.number, e.keyframe);
    if e.keyframe || (|s.decoder| > 0 && e.number == s.decoder[|s.decoder| - 1].number + 1) {
      if s.first <= e.number {
        AnchoredGrows(s.decoder, s.first, e.number, e.keyframe);
      }
    }
    if s.loop.gate.open {
      LastIsCurrent(s.decoder, s.first);
    }
  }

  lemma QueueGrows(queued: seq<(Seq16, bool)>, base: Seq16, decoder: seq<Picture>, number: int, keyframe: bool)
    requires QueuedAre(queued, base, decoder)
    ensures QueuedAre(queued + [(Wrap(base + number), keyframe)], base, decoder + [Picture(number, keyframe)])
  {
  }

  lemma LastIsCurrent(decoder: seq<Picture>, first: int)
    requires Anchored(decoder, first) && |decoder| > 0
    ensures first <= decoder[|decoder| - 1].number
  {
  }

  lemma AnchoredGrows(decoder: seq<Picture>, first: int, number: int, keyframe: bool)
    requires Anchored(decoder, first) && first <= number
    requires keyframe || (|decoder| > 0 && number == decoder[|decoder| - 1].number + 1)
    ensures Anchored(decoder + [Picture(number, keyframe)], first)
  {
  }

  lemma StepKeeps(s: Session, e: Event)
    requires SessionOk(s) && s.loop.gateOnLoss && Legal(s, e)
    ensures SessionOk(Step(s, e)) && Step(s, e).loop.gateOnLoss
  {
    hide Wrap, Walk, IsNewerThan, Anchored;
    if e.Releases? {
      ReleaseKeeps(s, e);
    } else if e.Rebuilds? {
      assert Anchored([], e.first) by { NothingIsAnchored(e.first); }
    }
  }

  lemma NothingIsAnchored(first: int)
    ensures Anchored([], first)
  {
  }

  ghost predicate LegalRun(s: Session, events: seq<Event>)
    decreases |events|
  {
    events == [] || (Legal(s, events[0]) && LegalRun(Step(s, events[0]), events[1..]))
  }

  function After(s: Session, events: seq<Event>): Session
    decreases |events|
  {
    if events == [] then s else After(Step(s, events[0]), events[1..])
  }

  lemma {:induction false} RunKeeps(s: Session, events: seq<Event>)
    requires SessionOk(s) && s.loop.gateOnLoss && LegalRun(s, events)
    ensures SessionOk(After(s, events))
    decreases |events|
  {
    hide SessionOk, Step, Legal;
    if events != [] {
      StepKeeps(s, events[0]);
      RunKeeps(Step(s, events[0]), events[1..]);
    }
  }

  /**
   * Over every session that gates on loss, through rebuilds, losses and refused
   * feeds: a P-frame in the decoder directly follows its predecessor there, and
   * so on back to a keyframe of the build the decoder is configured for. A
   * closed gate asks for a keyframe within IDR_RETRY_MS.
   */
  lemma EverySessionIsAnchored(base: Seq16, first: int, now: nat, events: seq<Event>)
    requires LegalRun(NewSession(base, first, true, now), events)
    ensures var s := After(NewSession(base, first, true, now), events);
            && QueuedAre(s.loop.queued, s.base, s.decoder) && Anchored(s.decoder, s.first)
            && (!s.loop.gate.open ==> forall later :: s.clock + IDR_RETRY_MS <= later ==> Asks(s.loop.gate, later))
  {
    RunKeeps(NewSession(base, first, true, now), events);
  }

  // The gate closes on a loss only together with a report to the server, and
  // after a report it is open only if a keyframe went in in the same step.
  lemma LossIsReportedAndGated(s: Session, e: Event)
    requires s.loop.gateOnLoss
    ensures var s' := Step(s, e);
            var told := |s'.loop.reported| > |s.loop.reported|;
            && (s.loop.gate.open && !s'.loop.gate.open && !(e.Rebuilds? && e.changed) ==> told)
            && (told && s'.loop.gate.open ==>
                  e.Releases? && e.keyframe && s'.decoder == s.decoder + [Picture(e.number, true)])
  {
    hide Walk, IsNewerThan, Wrap;
  }

  // A released frame that steps over a gap discards exactly the gap.
  lemma SteppingDiscardsTheGap(s: Session, e: Event, k: nat)
    requires e.Releases? && s.next.Some? && 0 < e.number - s.next.value < SPAN && k < e.number - s.next.value
    ensures var before, after := |s.loop.discarded|, Step(s, e).loop.discarded;
            |after| == before + e.number - s.next.value && after[before + k] == IdOf(s, s.next.value + k)
  {
    hide Wrap, IsNewerThan;
    WalkIsTheRange(s.base + s.next.value, e.number - s.next.value);
  }

  // Without gating on loss a P-frame goes in after a gap.
  lemma UngatedLossFeedsOnAGap(base: Seq16)
    ensures var s := After(NewSession(base, 0, false, 0),
                           [Releases(0, true, true, true, 0), Releases(2, false, true, true, 0)]);
            s.decoder == [Picture(0, true), Picture(2, false)] && !Anchored(s.decoder, s.first)
  {
    hide Wrap, Walk, IsNewerThan;
    var events := [Releases(0, true, true, true, 0), Releases(2, false, true, true, 0)];
    var s0 := NewSession(base, 0, false, 0);
    ModularOrder(base, base + 0);
    ModularOrder(base, base + 2);
    var s1 := Step(s0, events[0]);
    assert events[1..] == [events[1]] && events[1..][1..] == [];
    assert After(s0, events) == Step(s1, events[1]);
    var s := After(s0, events);
    assert s.decoder[1].number != s.decoder[0].number + 1;
  }

  // A frame whose bytes are gone is lost without a report: the gate stays open.
  lemma UncopiedFrameFeedsOnAGap(base: Seq16)
    ensures var s := After(NewSession(base, 0, true, 0),
                           [Releases(0, true, true, true, 0), Releases(1, false, false, true, 0),
                            Releases(2, false, true, true, 0)]);
            s.decoder == [Picture(0, true), Picture(2, false)] && s.loop.reported == []
  {
    hide Wrap, Walk, IsNewerThan;
    var events := [Releases(0, true, true, true, 0), Releases(1, false, false, true, 0),
                   Releases(2, false, true, true, 0)];
    var s0 := NewSession(base, 0, true, 0);
    ModularOrder(base, base + 0);
    ModularOrder(base, base + 1);
    ModularOrder(base, base + 2);
    var s1 := Step(s0, events[0]);
    var s2 := Step(s1, events[1]);
    assert events[1..] == [events[1], events[2]] && events[1..][1..] == [events[2]] && events[1..][1..][1..] == [];
    assert After(s0, events) == Step(s2, events[2]);
  }

  /**
   * What the gate admits, by number: the laps aside, what is at most half the
   * space past the build's first, and while closed only keyframes of that.
   */
  lemma AdmissionIsExact(s: Session, number: int, keyframe: bool)
    requires s.loop.gate.first == IdOf(s, s.first)
    ensures Admits(s.loop.gate, IdOf(s, number), keyframe)
            <==> (number - s.first) % SPAN <= HALF && (s.loop.gate.open || keyframe)
  {
    ForwardIs(s.base + s.first, s.base + number);
    hide Wrap;
  }

  lemma ForwardIs(a: int, b: int)
    ensures (Wrap(a) - Wrap(b)) % SPAN == if (b - a) % SPAN == 0 then 0 else SPAN - (b - a) % SPAN
  {
    var d := b - a;
    var q, r := d / SPAN, d % SPAN;
    var laps := b / SPAN - a / SPAN - q;
    assert Wrap(a) - Wrap(b) == SPAN * laps - r;
    if r == 0 {
      RemainderIs(Wrap(a) - Wrap(b), SPAN, laps, 0);
    } else {
      RemainderIs(Wrap(a) - Wrap(b), SPAN, laps - 1, SPAN - r);
    }
  }

  // So half the space on, the build's own frames are refused, and a frame the
  // gate refuses leaves it, the decoder and the server's reports as they were.
  lemma RefusalIsSilent(s: Session, e: Event)
    requires s.loop.gate.first == IdOf(s, s.first) && e.Releases?
    requires s.next.None? || e.number <= s.next.value
    requires (e.number - s.first) % SPAN > HALF
    ensures Step(s, e) == s.(next := Some(e.number + 1), clock := e.at)
  {
    AdmissionIsExact(s, e.number, e.keyframe);
    hide Admits, Wrap, Walk;
  }

  // `count` frames released in order, the bytes there and the decoder taking
  // them; number 0 is a keyframe.
  function Frames(from: int, count: nat): seq<Event>
    decreases count
  {
    if count == 0 then [] else [Releases(from, from == 0, true, true, 0)] + Frames(from + 1, count - 1)
  }

  // Frames 0 to `n - 1` went by: fed up to half the space, refused after that.
  ghost predicate Played(s: Session, n: int) {
    && s.loop.gateOnLoss && s.loop.gate.open && s.loop.gate.first == IdOf(s, s.first) && s.first == 0
    && s.next == Some(n) && s.loop.reported == []
    && |s.decoder| > 0 && s.decoder[|s.decoder| - 1].number == Min(n - 1, HALF)
  }

  lemma PlaysOneMore(s: Session, n: int)
    requires Played(s, n) && 1 <= n <= SPAN
    ensures var s' := Step(s, Releases(n, false, true, true, 0));
            && (n < SPAN ==> Played(s', n + 1))
            && (n == SPAN ==>
                  && s'.decoder == s.decoder + [Picture(SPAN, false)]
                  && s'.loop.reported == [] && s'.loop.gate.open && s'.first == 0)
  {
    AdmissionIsExact(s, n, false);
    assert n % SPAN == if n == SPAN then 0 else n;
    hide Admits, Wrap, Walk;
  }

  lemma {:induction false} PlaysPastALap(s: Session, n: int)
    requires Played(s, n) && 1 <= n <= SPAN
    ensures var end := After(s, Frames(n, SPAN + 1 - n));
            && FedOnAGap(end.decoder) && end.loop.reported == [] && end.loop.gate.open && end.first == 0
    decreases SPAN - n
  {
    hide Played, Step, Frames;
    PlaysOneMore(s, n);
    var s' := Step(s, Releases(n, false, true, true, 0));
    FramesUnroll(n, SPAN + 1 - n);
    if n == SPAN {
      assert Frames(n + 1, 0) == [] by { NoFrames(n + 1); }
      LastIsPlayed(s, n);
    } else {
      PlaysPastALap(s', n + 1);
    }
  }

  lemma LastIsPlayed(s: Session, n: int)
    requires Played(s, n)
    ensures |s.decoder| > 0 && s.decoder[|s.decoder| - 1].number == Min(n - 1, HALF)
  {
  }

  lemma FirstIsPlayed(base: Seq16)
    ensures Played(Step(NewSession(base, 0, true, 0), Releases(0, true, true, true, 0)), 1)
  {
    AdmissionIsExact(NewSession(base, 0, true, 0), 0, true);
    hide Admits, Wrap, Walk;
  }

  // A P-frame a lap on, right behind the last frame of the build's first half.
  ghost predicate FedOnAGap(decoder: seq<Picture>) {
    var n := |decoder|;
    n >= 2 && decoder[n - 1] == Picture(SPAN, false) && decoder[n - 2].number == HALF
  }

  /**
   * The build's first id never moves on, so after one lap of consecutive frames,
   * all there and all taken, with losses gated and none reported, a P-frame is
   * fed on a gap of half the space.
   */
  lemma ALapOnTheBuildFeedsOnAGap(base: Seq16)
    ensures var s := After(NewSession(base, 0, true, 0), Frames(0, SPAN + 1));
            && FedOnAGap(s.decoder) && !Anchored(s.decoder, s.first)
            && s.loop.reported == [] && s.loop.gate.open
  {
    hide Played, Step, Frames, Anchored, FedOnAGap, NewSession;
    var s0 := NewSession(base, 0, true, 0);
    var s1 := Step(s0, Releases(0, true, true, true, 0));
    FirstIsPlayed(base);
    FramesUnroll(0, SPAN + 1);
    PlaysPastALap(s1, 1);
    var s := After(s1, Frames(1, SPAN));
    GapIsUnanchored(s.decoder, s.first);
  }

  lemma NoFrames(from: int)
    ensures Frames(from, 0) == []
  {
  }

  lemma FramesUnroll(from: int, count: nat)
    requires count > 0
    ensures Frames(from, count) != [] && Frames(from, count)[0] == Releases(from, from == 0, true, true, 0)
    ensures Frames(from, count)[1..] == Frames(from + 1, count - 1)
  {
  }

  lemma GapIsUnanchored(decoder: seq<Picture>, first: int)
    requires FedOnAGap(decoder)
    ensures !Anchored(decoder, first)
  {
    var n := |decoder|;
    assert decoder[n - 1].number != decoder[n - 2].number + 1;
  }

  // ---- asking ----------------------------------------------------------------

  // A rebuild whose IDR the old configuration consumed asks at once.
  predicate AsksAtOnce(s: Session, e: Event) {
    e.Rebuilds? && e.changed && Spent(IdOf(s, e.first), s.loop.lastFed)
  }

  // It was consumed there exactly when the newest frame fed is at or past the
  // build's first.
  lemma RebuildAsksExactlyWhenSpent(s: Session, fed: int, first: int, now: nat)
    requires s.loop.lastFed == Some(IdOf(s, fed)) && -HALF < fed - first < HALF
    ensures Asks(Reconfigured(s.loop, IdOf(s, first), now).gate, now) <==> first <= fed
  {
    ModularOrder(s.base + first, s.base + fed);
  }

  ghost predicate Spaced(s: Session) {
    && (forall k :: 0 < k < |s.asks| ==> s.asks[k - 1] + IDR_RETRY_MS <= s.asks[k])
    && (|s.asks| > 0 ==>
          var last := s.asks[|s.asks| - 1];
          last <= s.clock && (!s.loop.gate.open ==> last + IDR_RETRY_MS <= s.loop.gate.askAtMs))
  }

  // The clock does not run back and no rebuild asks at once.
  ghost predicate Patient(s: Session, events: seq<Event>)
    decreases |events|
  {
    events == [] || (!AsksAtOnce(s, events[0]) && s.clock <= events[0].at && Patient(Step(s, events[0]), events[1..]))
  }

  lemma StepKeepsSpacing(s: Session, e: Event)
    requires Spaced(s) && !AsksAtOnce(s, e) && s.clock <= e.at
    ensures Spaced(Step(s, e))
  {
    hide Wrap, Walk, IsNewerThan;
  }

  /**
   * Requests for a keyframe are at least IDR_RETRY_MS apart, whatever is
   * released, lost, drained or rebuilt between them and whether or not losses
   * close the gate, unless a rebuild finds its keyframe already spent.
   */
  lemma {:induction false} RequestsAreSpaced(s: Session, events: seq<Event>)
    requires Spaced(s) && Patient(s, events)
    ensures Spaced(After(s, events))
    decreases |events|
  {
    hide Spaced, Step, AsksAtOnce;
    if events != [] {
      StepKeepsSpacing(s, events[0]);
      RequestsAreSpaced(Step(s, events[0]), events[1..]);
    }
  }
}
