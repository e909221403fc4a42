// The bitrate target under reports of queueing and loss, and the range it may move in.

module RateControl {
  import opened Basics

  type I32 = n: int | -0x8000_0000 <= n < 0x8000_0000

  const SESSION_FLOOR_KBPS := 10_000
  const GRADIENT_DOWN_US_PER_S := 5_000
  const GRADIENT_FLAT_US_PER_S := 1_000
  const HOLD_AFTER_DECREASE_MS := 1_000
  const INCREASE_INTERVAL_MS := 500
  const INCREASE_FRACTION := 0.05
  const CEILING_MARGIN := 0.95
  const PROBE_INTERVAL_MS := 5_000
  const LOSS_DECREASE := 0.85
  const LOSS_WINDOW_MS := 1_000
  const LOSS_FRACTION_FOR_DECREASE := 0.05
  const ESTIMATE_MARGIN := 0.9

  // A float to a word: the fraction dropped, out of range to the nearest end.
  function AsU32(x: real): U32 {
    Max(0, Min(x.Floor, MAX_U32))
  }

  function Clamp(x: U32, lo: U32, hi: U32): U32
    requires lo <= hi
  {
    Max(lo, Min(x, hi))
  }

  // ---- a session's bounds ----------------------------------------------------

  datatype Codec = Hevc | H264 | Av1

  datatype Bounds = Bounds(min: U32, max: U32, initial: U32)

  datatype BitrateAsk = BitrateAsk(codec: Codec, target: U32, min: U32, max: U32, decoderHintBps: U32, clientMax: U32)

  function CodecCeiling(codec: Codec): U32 {
    match codec
    case Av1 => 100_000
    case _ => 150_000
  }

  function Cap(ask: BitrateAsk): U32 {
    var cap := Min(CodecCeiling(ask.codec), ask.decoderHintBps / 1000);
    if ask.clientMax > 0 then Min(cap, ask.clientMax) else cap
  }

  function SessionBitrate(ask: BitrateAsk): Bounds {
    var initial := Max(Min(ask.target, Cap(ask)), SESSION_FLOOR_KBPS);
    Bounds(Clamp(ask.min, 1, initial),
           if ask.max > 0 then Max(Min(ask.max, Cap(ask)), initial) else initial,
           initial)
  }

  // No cap is passed: not the codec's, the decoder's hint, or the client's ask.
  predicate InCaps(ask: BitrateAsk, kbps: int) {
    && kbps <= (if ask.codec == Av1 then 100_000 else 150_000)
    && 1000 * kbps <= ask.decoderHintBps
    && (ask.clientMax > 0 ==> kbps <= ask.clientMax)
  }

  // The largest rate up to `most` that passes no cap, or else the session floor.
  ghost predicate Highest(ask: BitrateAsk, most: int, kbps: int) {
    && SESSION_FLOOR_KBPS <= kbps
    && (kbps > SESSION_FLOOR_KBPS ==> kbps <= most && InCaps(ask, kbps))
    && forall better :: kbps < better <= most ==> !InCaps(ask, better)
  }

  /**
   * The range never inverts. It starts at the largest rate up to the target that
   * passes no cap, tops out at the largest up to the configured ceiling (or where
   * it starts, if that is more or none is configured), and its bottom is the one
   * configured as far as the start and one kilobit allow; no cap takes the start
   * below the session floor.
   */
  lemma SessionStaysInItsCaps(ask: BitrateAsk)
    ensures var b := SessionBitrate(ask);
            && 1 <= b.min <= b.initial <= b.max
            && Highest(ask, ask.target, b.initial)
            && (ask.max > b.initial ==> Highest(ask, ask.max, b.max))
            && (ask.max <= b.initial ==> b.max == b.initial)
            && (1 <= ask.min <= b.initial ==> b.min == ask.min)
            && (ask.min < 1 ==> b.min == 1) && (ask.min > b.initial ==> b.min == b.initial)
  {
    CapIsTheMost(ask);
  }

  lemma CapIsTheMost(ask: BitrateAsk)
    ensures forall kbps: int :: InCaps(ask, kbps) <==> kbps <= Cap(ask)
  {
  }

  // ---- the controller --------------------------------------------------------

  datatype Feedback = Feedback(owdGradient: I32, framesReceived: U32, framesDropped: U32)

  datatype LossWindow = LossWindow(
    start: Option<nat>, received: U32, dropped: U32, lastReceived: Option<U32>, lastDropped: Option<U32>)

  datatype Controller = Controller(
    min: U32,
    max: U32,
    target: U32,
    ceiling: Option<U32>,
    lastDecrease: Option<nat>,
    lastIncrease: Option<nat>,
    lastProbe: Option<nat>,
    lastLoss: Option<nat>,
    window: LossWindow)

  type Ranged = c: Controller | c.min <= c.max
    witness Controller(0, 0, 0, None, None, None, None, None, LossWindow(None, 0, 0, None, None))

  function NewController(b: Bounds): Ranged
    requires b.min <= b.max
  {
    Controller(b.min, b.max, Clamp(b.initial, b.min, b.max), None, None, None, None, None,
               LossWindow(None, 0, 0, None, None))
  }

  function Grown(last: Option<U32>, counter: U32): U32 {
    if last.None? then 0 else (counter - last.value) % U32_SPAN
  }

  function Counted(w: LossWindow, fb: Feedback, now: nat): LossWindow {
    LossWindow(
      if w.start.None? then Some(now) else w.start,
      Min(w.received + Grown(w.lastReceived, fb.framesReceived), MAX_U32),
      Min(w.dropped + Grown(w.lastDropped, fb.framesDropped), MAX_U32),
      Some(fb.framesReceived), Some(fb.framesDropped))
  }

  predicate Closes(w: LossWindow, now: nat) {
    w.start.Some? && Max(now - w.start.value, 0) >= LOSS_WINDOW_MS
  }

  predicate Lossy(w: LossWindow) {
    w.dropped > 0 && w.dropped as real >= (w.received as real + w.dropped as real) * LOSS_FRACTION_FOR_DECREASE
  }

  function Reopened(w: LossWindow, now: nat): LossWindow {
    if Closes(w, now) then w.(start := Some(now), received := 0, dropped := 0) else w
  }

  predicate Within(last: Option<nat>, now: nat, ms: nat) {
    last.Some? && Max(now - last.value, 0) < ms
  }

  function Decreased(c: Ranged, kbps: real, now: nat): Ranged {
    var clamped := Clamp(AsU32(kbps), c.min, c.max);
    if clamped == c.target then c else c.(target := clamped, lastDecrease := Some(now))
  }

  function Increased(c: Ranged, kbps: real, now: nat): Ranged {
    var clamped := Clamp(AsU32(kbps), c.min, c.max);
    if clamped == c.target then c else c.(target := clamped, lastIncrease := Some(now))
  }

  predicate MayIncrease(c: Controller, now: nat) {
    && !Within(c.lastDecrease, now, HOLD_AFTER_DECREASE_MS)
    && !Within(c.lastLoss, now, HOLD_AFTER_DECREASE_MS)
    && !Within(c.lastIncrease, now, INCREASE_INTERVAL_MS)
  }

  function StepUp(target: U32): real {
    target as real * (1.0 + INCREASE_FRACTION)
  }

  function Under(ceiling: U32): real {
    ceiling as real * CEILING_MARGIN
  }

  predicate UnderCeiling(c: Controller) {
    c.ceiling.Some? && StepUp(c.target) <= Under(c.ceiling.value)
  }

  predicate Probes(c: Controller, now: nat) {
    c.ceiling.Some? && !UnderCeiling(c) && !Within(c.lastProbe, now, PROBE_INTERVAL_MS)
  }

  function MaybeIncreased(c: Ranged, now: nat): Ranged {
    if !MayIncrease(c, now) then c
    else if c.ceiling.Some? && !UnderCeiling(c) && !Probes(c, now) then c
    else
      var probed := if Probes(c, now) then c.(lastProbe := Some(now), ceiling := None) else c;
      if AsU32(StepUp(c.target)) > c.target then Increased(probed, StepUp(c.target), now) else probed
  }

  function Estimate(c: Controller, gradient: int): real
    requires gradient > 0
  {
    c.target as real / (1.0 + gradient as real / 1_000_000.0)
  }

  // The clock of increases starts with the first report; the window's counts
  // and its verdict come before the gradient is looked at.
  function Noted(c: Ranged, fb: Feedback, now: nat): Ranged {
    var w := Counted(c.window, fb, now);
    c.(lastIncrease := if c.lastIncrease.None? then Some(now) else c.lastIncrease,
       lastLoss := if Closes(w, now) && Lossy(w) then Some(now) else c.lastLoss,
       window := Reopened(w, now))
  }

  predicate Loses(c: Controller, fb: Feedback, now: nat) {
    var w := Counted(c.window, fb, now);
    Closes(w, now) && Lossy(w)
  }

  function OnFeedback(c: Ranged, fb: Feedback, now: nat): Ranged {
    var n := Noted(c, fb, now);
    if fb.owdGradient > GRADIENT_DOWN_US_PER_S then
      var estimate := Estimate(n, fb.owdGradient);
      Decreased(n.(ceiling := Some(Min(n.target, AsU32(estimate)))), estimate * ESTIMATE_MARGIN, now)
    else if Loses(c, fb, now) then
      Decreased(n.(ceiling := Some(n.target)), n.target as real * LOSS_DECREASE, now)
    else if fb.owdGradient < GRADIENT_FLAT_US_PER_S then MaybeIncreased(n, now)
    else n
  }

  class RateController {
    const min: U32
    const max: U32
    var target: U32
    var ceiling: Option<U32>
    var lastDecrease: Option<nat>
    var lastIncrease: Option<nat>
    var lastProbe: Option<nat>
    var lastLoss: Option<nat>
    var lastReceived: Option<U32>
    var lastDropped: Option<U32>
    var windowStart: Option<nat>
    var windowReceived: U32
    var windowDropped: U32
    var decreased: nat
    var increased: nat

    ghost predicate Valid() {
      min <= max
    }

    ghost predicate InBounds()
      reads this
    {
      min <= target <= max
    }

    ghost function State(): Ranged
      reads this
      requires Valid()
    {
      Controller(min, max, target, ceiling, lastDecrease, lastIncrease, lastProbe, lastLoss, Window())
    }

    ghost function Window(): LossWindow
      reads this
    {
      LossWindow(windowStart, windowReceived, windowDropped, lastReceived, lastDropped)
    }

    constructor (b: Bounds)
      requires b.min <= b.max
      ensures Valid() && InBounds() && State() == NewController(b) && decreased == increased == 0
    {
      min, max := b.min, b.max;
      target := Clamp(b.initial, b.min, b.max);
      ceiling, lastDecrease, lastIncrease, lastProbe, lastLoss := None, None, None, None, None;
      lastReceived, lastDropped, windowStart := None, None, None;
      windowReceived, windowDropped, decreased, increased := 0, 0, 0, 0;
    }

    method Report(fb: Feedback, now: nat) returns (changed: Option<U32>)
      requires Valid() && InBounds()
      modifies this
      ensures Valid() && InBounds() && State() == OnFeedback(old(State()), fb, now)
      ensures changed == if target != old(target) then Some(target) else None
      ensures decreased == old(decreased) + if target < old(target) then 1 else 0
      ensures increased == old(increased) + if target > old(target) then 1 else 0
    {
      hide AsU32, Clamp, Counted, Reopened, Closes, Lossy, MaybeIncreased, Decreased, Increased, Grown;
      var before := target;
      if lastIncrease.None? {
        lastIncrease := Some(now);
      }
      var lost := LossyWindow(fb, now);
      assert lost == Loses(old(State()), fb, now);
      if lost {
        lastLoss := Some(now);
      }
      if fb.owdGradient > GRADIENT_DOWN_US_PER_S {
        var g := fb.owdGradient as real / 1_000_000.0;
        var estimate := target as real / (1.0 + g);
        ceiling := Some(Min(target, AsU32(estimate)));
        Set(estimate * ESTIMATE_MARGIN, now, true);
      } else if lost {
        ceiling := Some(target);
        Set(target as real * LOSS_DECREASE, now, true);
      } else if fb.owdGradient < GRADIENT_FLAT_US_PER_S {
        IncreaseIfDue(now);
      }
      changed := if target != before then Some(target) else None;
      FallsOrRises(old(State()), fb, now);
    }

    method LossyWindow(fb: Feedback, now: nat) returns (lossy: bool)
      requires Valid()
      modifies this`lastReceived, this`lastDropped, this`windowStart, this`windowReceived, this`windowDropped
      ensures Window() == Reopened(Counted(old(Window()), fb, now), now)
      ensures lossy == (Closes(Counted(old(Window()), fb, now), now) && Lossy(Counted(old(Window()), fb, now)))
    {
      var dropped := if lastDropped.None? then 0 else (fb.framesDropped - lastDropped.value) % U32_SPAN;
      var received := if lastReceived.None? then 0 else (fb.framesReceived - lastReceived.value) % U32_SPAN;
      lastDropped := Some(fb.framesDropped);
      lastReceived := Some(fb.framesReceived);
      windowDropped := Min(windowDropped + dropped, MAX_U32);
      windowReceived := Min(windowReceived + received, MAX_U32);
      if windowStart.None? {
        windowStart := Some(now);
      }
      if Max(now - windowStart.value, 0) < LOSS_WINDOW_MS {
        return false;
      }
      var total := windowReceived as real + windowDropped as real;
      lossy := windowDropped > 0 && windowDropped as real >= total * LOSS_FRACTION_FOR_DECREASE;
      windowStart := Some(now);
      windowReceived, windowDropped := 0, 0;
    }

    method IncreaseIfDue(now: nat)
      requires Valid()
      modifies this`target, this`ceiling, this`lastIncrease, this`lastProbe, this`lastDecrease
      modifies this`increased, this`decreased
      ensures Valid() && State() == MaybeIncreased(old(State()), now)
      ensures decreased == old(decreased) && increased == old(increased) + if target != old(target) then 1 else 0
    {
      hide AsU32, Clamp, Increased, Decreased, Within, StepUp, Under;
      var held := Within(lastDecrease, now, HOLD_AFTER_DECREASE_MS);
      var lossy := Within(lastLoss, now, HOLD_AFTER_DECREASE_MS);
      var tooSoon := Within(lastIncrease, now, INCREASE_INTERVAL_MS);
      if held || lossy || tooSoon {
        return;
      }
      var next := StepUp(target);
      if ceiling.Some? {
        var under := Under(ceiling.value);
        var probeDue := !Within(lastProbe, now, PROBE_INTERVAL_MS);
        if next <= under {
          next := if next < under then next else under;
        } else if probeDue {
          lastProbe := Some(now);
          ceiling := None;
        } else {
          return;
        }
      }
      if AsU32(next) > target {
        Set(next, now, false);
      }
    }

    method Set(kbps: real, now: nat, decrease: bool)
      requires Valid()
      modifies this`target, this`lastDecrease, this`lastIncrease, this`increased, this`decreased
      ensures Valid()
      ensures decreased == old(decreased) + if decrease && target != old(target) then 1 else 0
      ensures increased == old(increased) + if !decrease && target != old(target) then 1 else 0
      ensures State() == if decrease then Decreased(old(State()), kbps, now) else Increased(old(State()), kbps, now)
    {
      var clamped := Clamp(AsU32(kbps), min, max);
      if clamped == target {
        return;
      }
      target := clamped;
      if decrease {
        lastDecrease := Some(now);
        decreased := decreased + 1;
      } else {
        lastIncrease := Some(now);
        increased := increased + 1;
      }
    }
  }

  // ---- whole sessions --------------------------------------------------------

  // `lost` is the last lossy window before the change.
  datatype Change = Change(at: nat, from: U32, to: U32, lost: Option<nat>)

  // `began` is the first report, `changes` the moves of the target, `losses` the
  // lossy windows and `probes` the tries above a learned ceiling, oldest first.
  datatype Session = Session(
    c: Ranged, clock: nat, began: Option<nat>, changes: seq<Change>, losses: seq<nat>, probes: seq<nat>)

  datatype Event = Event(fb: Feedback, at: nat)

  function NewSession(b: Bounds): Session
    requires b.min <= b.max
  {
    Session(NewController(b), 0, None, [], [], [])
  }

  function Newest(times: seq<nat>): Option<nat> {
    if times == [] then None else Some(times[|times| - 1])
  }

  function Step(s: Session, e: Event): Session {
    var c := OnFeedback(s.c, e.fb, e.at);
    Session(c, e.at,
            if s.began.None? then Some(e.at) else s.began,
            if c.target != s.c.target then s.changes + [Change(e.at, s.c.target, c.target, Newest(s.losses))]
            else s.changes,
            if Loses(s.c, e.fb, e.at) then s.losses + [e.at] else s.losses,
            if s.c.ceiling.Some? && c.ceiling.None? then s.probes + [e.at] else s.probes)
  }

  predicate InOrder(s: Session, events: seq<Event>)
    decreases |events|
  {
    events == [] || (s.clock <= events[0].at && InOrder(Step(s, events[0]), events[1..]))
  }

  function After(s: Session, events: seq<Event>): Session
    decreases |events|
  {
    if events == [] then s else After(Step(s, events[0]), events[1..])
  }

  predicate Up(x: Change) {
    x.from < x.to
  }

  // Increases keep their distance from the first report and from increases,
  // decreases and losses before them, and none passes the step.
  ghost predicate ChangesOk(began: Option<nat>, changes: seq<Change>) {
    && (forall i :: 0 <= i < |changes| && Up(changes[i]) ==>
          && began.Some? && changes[i].at - began.value >= INCREASE_INTERVAL_MS
          && (changes[i].lost.Some? ==> changes[i].at - changes[i].lost.value >= HOLD_AFTER_DECREASE_MS))
    && (forall i, j :: 0 <= i < j < |changes| && Up(changes[j]) ==>
          changes[j].at - changes[i].at >= if Up(changes[i]) then INCREASE_INTERVAL_MS else HOLD_AFTER_DECREASE_MS)
    && (forall i :: 0 <= i < |changes| && Up(changes[i]) ==>
          changes[i].to as real <= StepUp(changes[i].from))
  }

  ghost predicate Spaced(times: seq<nat>, ms: nat) {
    forall i :: 0 < i < |times| ==> times[i] - times[i - 1] >= ms
  }

  // Every increase and every decrease so far is no later than the last one noted.
  ghost predicate Noticed(s: Session) {
    forall i :: 0 <= i < |s.changes| ==>
      && s.changes[i].at <= s.clock
      && (if Up(s.changes[i]) then s.c.lastIncrease.Some? && s.changes[i].at <= s.c.lastIncrease.value
          else s.c.lastDecrease.Some? && s.changes[i].at <= s.c.lastDecrease.value)
  }

  ghost predicate SessionOk(s: Session) {
    && s.c.min <= s.c.target <= s.c.max
    && ChangesOk(s.began, s.changes) && Noticed(s)
    && (s.began.None? ==> s.c.lastIncrease.None?)
    && (s.began.Some? ==> s.c.lastIncrease.Some? && s.began.value <= s.c.lastIncrease.value)
    && Spaced(s.losses, LOSS_WINDOW_MS) && Spaced(s.probes, PROBE_INTERVAL_MS)
    && (s.losses != [] ==> s.c.window.start.Some? && s.losses[|s.losses| - 1] <= s.c.window.start.value)
    && s.c.lastProbe == Newest(s.probes) && s.c.lastLoss == Newest(s.losses)
  }

  // What one report does to the target, and what it notes of it.
  lemma ReportMoves(c: Ranged, fb: Feedback, now: nat)
    requires c.min <= c.target <= c.max
    ensures var c' := OnFeedback(c, fb, now);
            && c'.min == c.min && c'.max == c.max && c.min <= c'.target <= c.max
            && (c'.target > c.target ==>
                  && c'.lastIncrease == Some(now) && c'.lastDecrease == c.lastDecrease
                  && c'.target as real <= StepUp(c.target)
                  && !Within(c.lastDecrease, now, HOLD_AFTER_DECREASE_MS)
                  && !Within(c.lastLoss, now, HOLD_AFTER_DECREASE_MS)
                  && !Within(c.lastIncrease, now, INCREASE_INTERVAL_MS) && c.lastIncrease.Some?)
            && (c'.target < c.target ==> c'.lastDecrease == Some(now))
            && (c'.target <= c.target ==>
                  c'.lastIncrease == if c.lastIncrease.None? then Some(now) else c.lastIncrease)
            && (c'.target == c.target ==> c'.lastDecrease == c.lastDecrease)
            && c'.window == Reopened(Counted(c.window, fb, now), now)
            && c'.lastLoss == (if Loses(c, fb, now) then Some(now) else c.lastLoss)
            && (if c.ceiling.Some? && c'.ceiling.None?
                then c'.lastProbe == Some(now) && !Within(c.lastProbe, now, PROBE_INTERVAL_MS)
                else c'.lastProbe == c.lastProbe)
  {
    hide Counted, Reopened, Closes, Lossy;
    if fb.owdGradient > GRADIENT_DOWN_US_PER_S {
      EstimateIsBelow(c.target, fb.owdGradient);
    }
  }

  function Scaled(x: real, y: real): real {
    x * y
  }

  lemma Monotone(x: real, y: real, z: real)
    requires z > 0.0
    ensures x <= y <==> Scaled(x, z) <= Scaled(y, z)
  {
    assert (y - x) * z == y * z - x * z;
  }

  lemma QuotientBetween(n: real, d: real, lo: real, hi: real)
    requires d > 0.0 && Scaled(lo, d) <= n <= Scaled(hi, d)
    ensures lo <= n / d <= hi
  {
    var q := n / d;
    assert Scaled(q, d) == n;
    hide Scaled;
    Monotone(lo, q, d);
    Monotone(q, hi, d);
  }

  lemma EstimateIsBelow(target: U32, gradient: int)
    requires gradient > 0
    ensures var estimate := target as real / (1.0 + gradient as real / 1_000_000.0);
            0.0 <= estimate <= target as real
  {
    var g := gradient as real / 1_000_000.0;
    Distribute(1.0, g, target as real);
    Distribute(g, target as real, 0.0);
    Distribute(1.0 + g, target as real, 0.0);
    assert Scaled(0.0, 1.0 + g) == 0.0;
    hide Scaled;
    QuotientBetween(target as real, 1.0 + g, 0.0, target as real);
  }

  // Half a second after the first report and the last raise, and a second after
  // the last decrease and the last lossy window.
  predicate Rested(c: Controller, now: nat) {
    && c.lastIncrease.Some? && now - c.lastIncrease.value >= INCREASE_INTERVAL_MS
    && (c.lastDecrease.Some? ==> now - c.lastDecrease.value >= HOLD_AFTER_DECREASE_MS)
    && (c.lastLoss.Some? ==> now - c.lastLoss.value >= HOLD_AFTER_DECREASE_MS)
  }

  // The step would pass 19/20 of the learned ceiling.
  predicate Pressed(c: Controller) {
    c.ceiling.Some? && 21 * c.target > 19 * c.ceiling.value
  }

  predicate ProbeDue(c: Controller, now: nat) {
    c.lastProbe.Some? ==> now - c.lastProbe.value >= PROBE_INTERVAL_MS
  }

  lemma FallsOrRises(c: Ranged, fb: Feedback, now: nat)
    requires c.min <= c.target <= c.max
    ensures if fb.owdGradient > GRADIENT_DOWN_US_PER_S || Loses(c, fb, now)
            then OnFeedback(c, fb, now).target <= c.target else c.target <= OnFeedback(c, fb, now).target
    ensures c.min <= OnFeedback(c, fb, now).target <= c.max
  {
    hide Counted, Reopened, Closes, Lossy;
    if fb.owdGradient > GRADIENT_DOWN_US_PER_S {
      EstimateIsBelow(c.target, fb.owdGradient);
    }
  }

  lemma MayIncreaseIsRested(c: Ranged, fb: Feedback, now: nat)
    requires !Loses(c, fb, now)
    ensures MayIncrease(Noted(c, fb, now), now) <==> Rested(c, now)
  {
    hide Counted, Reopened, Closes, Lossy;
  }

  lemma ProbesAreDue(c: Controller, now: nat)
    ensures c.ceiling.Some? ==> (UnderCeiling(c) <==> !Pressed(c))
    ensures Probes(c, now) <==> Pressed(c) && ProbeDue(c, now)
  {
  }

  // What a flat report does to a controller already noted.
  lemma FlatMoves(n: Ranged, now: nat)
    requires n.min <= n.target <= n.max
    ensures var n', due := MaybeIncreased(n, now), MayIncrease(n, now) && (Pressed(n) ==> ProbeDue(n, now));
            && n'.target == (if due then Min(n.max, 21 * n.target / 20) else n.target)
            && n'.ceiling == (if due && Pressed(n) then None else n.ceiling)
  {
    ProbesAreDue(n, now);
    hide MayIncrease, Pressed, ProbeDue, Probes, UnderCeiling, Within;
    PressedNeedsACeiling(n);
    FloorIs(StepUp(n.target), 21 * n.target / 20);
  }

  lemma PressedNeedsACeiling(c: Controller)
    ensures Pressed(c) ==> c.ceiling.Some?
  {
  }

  lemma FlatIsMaybeIncreased(c: Ranged, fb: Feedback, now: nat)
    requires fb.owdGradient < GRADIENT_FLAT_US_PER_S && !Loses(c, fb, now)
    ensures OnFeedback(c, fb, now) == MaybeIncreased(Noted(c, fb, now), now)
    ensures var n := Noted(c, fb, now);
            && n.target == c.target && n.min == c.min && n.max == c.max
            && Pressed(n) == Pressed(c) && ProbeDue(n, now) == ProbeDue(c, now) && n.ceiling == c.ceiling
  {
    hide Loses, Counted, Reopened, Closes, Lossy, MaybeIncreased;
  }

  // A raise, in whole numbers: to 21/20 of the target, just when a flat report
  // finds the controller rested and the learned ceiling out of the way or due for
  // a probe.
  lemma RiseIsExact(c: Ranged, fb: Feedback, now: nat)
    requires c.min <= c.target <= c.max && fb.owdGradient < GRADIENT_FLAT_US_PER_S && !Loses(c, fb, now)
    ensures OnFeedback(c, fb, now).target
            == if Rested(c, now) && (Pressed(c) ==> ProbeDue(c, now)) then Min(c.max, 21 * c.target / 20)
               else c.target
  {
    FlatIsMaybeIncreased(c, fb, now);
    MayIncreaseIsRested(c, fb, now);
    FlatMoves(Noted(c, fb, now), now);
    hide *;
  }

  // Between flat and overloaded nothing moves.
  lemma UnsureHolds(c: Ranged, fb: Feedback, now: nat)
    requires GRADIENT_FLAT_US_PER_S <= fb.owdGradient <= GRADIENT_DOWN_US_PER_S && !Loses(c, fb, now)
    ensures OnFeedback(c, fb, now).target == c.target && OnFeedback(c, fb, now).ceiling == c.ceiling
  {
    hide Loses, Counted, Reopened, Closes, Lossy;
  }

  lemma FloorOfQuotient(x: real, n: nat, d: nat)
    requires d > 0 && Scaled(x, d as real) == n as real
    ensures x.Floor == n / d
  {
    var k := n / d;
    Division(n, d);
    assert Scaled(k as real, d as real) == (k * d) as real && Scaled((k + 1) as real, d as real) == (k * d + d) as real;
    hide Scaled;
    Monotone(k as real, x, d as real);
    Monotone((k + 1) as real, x, d as real);
    FloorIs(x, k);
  }

  lemma Division(n: nat, d: nat)
    requires d > 0
    ensures n / d * d <= n < n / d * d + d
  {
  }

  // What is left of the target at a gradient of `g` millionths: t / (1 + g).
  lemma EstimateIsTheRatio(target: U32, g: nat)
    requires g > 0
    ensures var estimate := target as real / (1.0 + g as real / 1_000_000.0);
            && estimate.Floor == 1_000_000 * target / (1_000_000 + g)
            && (estimate * ESTIMATE_MARGIN).Floor == 900_000 * target / (1_000_000 + g)
  {
    var y, t := 1.0 + g as real / 1_000_000.0, target as real;
    var estimate := t / y;
    var d := (1_000_000 + g) as real;
    assert d == 1_000_000.0 * y;
    Product(estimate, 1_000_000.0, y);
    Product(estimate * ESTIMATE_MARGIN, 1_000_000.0, y);
    Product(estimate, ESTIMATE_MARGIN, y);
    assert estimate * y == t;
    FloorOfQuotient(estimate, 1_000_000 * target, 1_000_000 + g);
    FloorOfQuotient(estimate * ESTIMATE_MARGIN, 900_000 * target, 1_000_000 + g);
  }

  lemma Product(x: real, m: real, y: real)
    ensures Scaled(x, m * y) == m * (x * y) && (x * m) * y == m * (x * y)
  {
    assert x * (m * y) == (x * m) * y == m * (x * y);
  }

  /**
   * On an overload of `g` millionths, in whole numbers: the ceiling learned is
   * t / (1 + g) and the target falls to nine tenths of that.
   */
  lemma OverloadIsExact(c: Ranged, fb: Feedback, now: nat)
    requires c.min <= c.target <= c.max && fb.owdGradient > GRADIENT_DOWN_US_PER_S
    ensures var c' := OnFeedback(c, fb, now);
            && c'.ceiling == Some(1_000_000 * c.target / (1_000_000 + fb.owdGradient))
            && c'.target == Max(c.min, 900_000 * c.target / (1_000_000 + fb.owdGradient))
  {
    EstimateIsTheRatio(c.target, fb.owdGradient);
    EstimateIsBelow(c.target, fb.owdGradient);
    hide Counted, Reopened, Closes, Lossy;
  }

  /**
   * A ceiling is learned by an overload or a lossy report and forgotten by a
   * probe, that is when a rested controller with a flat report would pass 19/20 of
   * it and none was tried for five seconds; nothing else touches it.
   */
  lemma CeilingIsExact(c: Ranged, fb: Feedback, now: nat)
    requires c.min <= c.target <= c.max && fb.owdGradient <= GRADIENT_DOWN_US_PER_S
    ensures OnFeedback(c, fb, now).ceiling
            == if Loses(c, fb, now) then Some(c.target)
               else if fb.owdGradient < GRADIENT_FLAT_US_PER_S && Rested(c, now) && Pressed(c) && ProbeDue(c, now)
               then None
               else c.ceiling
  {
    if fb.owdGradient < GRADIENT_FLAT_US_PER_S && !Loses(c, fb, now) {
      FlatIsMaybeIncreased(c, fb, now);
      MayIncreaseIsRested(c, fb, now);
      FlatMoves(Noted(c, fb, now), now);
      hide *;
    } else {
      hide Loses, Counted, Reopened, Closes, Lossy, AsU32, Clamp, MaybeIncreased;
    }
  }

  lemma FloorIs(x: real, k: int)
    requires k as real <= x < k as real + 1.0
    ensures x.Floor == k
  {
  }

  // A loss without a gradient, in whole numbers: at least a twentieth of a closed
  // window's frames, and then down to 17/20.
  lemma LossIsExact(c: Ranged, fb: Feedback, now: nat)
    requires c.min <= c.target <= c.max
    ensures var w := Counted(c.window, fb, now);
            Loses(c, fb, now) <==> Closes(w, now) && w.dropped > 0 && 20 * w.dropped >= w.received + w.dropped
    ensures Loses(c, fb, now) && fb.owdGradient <= GRADIENT_DOWN_US_PER_S ==>
              OnFeedback(c, fb, now).target == Max(c.min, 17 * c.target / 20)
  {
    hide Closes, Counted, Reopened, MaybeIncreased;
    FloorIs(c.target as real * LOSS_DECREASE, 17 * c.target / 20);
  }

  lemma LossesKeep(s: Session, e: Event)
    requires SessionOk(s) && s.clock <= e.at
    ensures var s' := Step(s, e);
            && Spaced(s'.losses, LOSS_WINDOW_MS)
            && (s'.losses != [] ==> s'.c.window.start.Some? && s'.losses[|s'.losses| - 1] <= s'.c.window.start.value)
  {
    hide Lossy, ChangesOk, Noticed, OnFeedback;
    ReportMoves(s.c, e.fb, e.at);
  }

  lemma ChangesKeep(s: Session, e: Event)
    requires SessionOk(s) && s.clock <= e.at
    ensures ChangesOk(Step(s, e).began, Step(s, e).changes) && Noticed(Step(s, e))
  {
    hide Spaced, OnFeedback, StepUp;
    ReportMoves(s.c, e.fb, e.at);
    hide Reopened, Counted;
    var s' := Step(s, e);
    forall i | 0 <= i < |s.changes|
      ensures s'.c.target > s.c.target ==>
                e.at - s.changes[i].at >= if Up(s.changes[i]) then INCREASE_INTERVAL_MS else HOLD_AFTER_DECREASE_MS
    {
    }
  }

  lemma StepKeeps(s: Session, e: Event)
    requires SessionOk(s) && s.clock <= e.at
    ensures SessionOk(Step(s, e)) && Step(s, e).c.min == s.c.min && Step(s, e).c.max == s.c.max
  {
    LossesKeep(s, e);
    ChangesKeep(s, e);
    ReportMoves(s.c, e.fb, e.at);
    hide OnFeedback, ChangesOk, Noticed, Loses, Reopened, Counted;
  }

  lemma {:induction false} RunKeeps(s: Session, events: seq<Event>)
    requires SessionOk(s) && InOrder(s, events)
    ensures SessionOk(After(s, events)) && After(s, events).c.min == s.c.min && After(s, events).c.max == s.c.max
    decreases |events|
  {
    hide SessionOk, Step;
    if events != [] {
      StepKeeps(s, events[0]);
      RunKeeps(Step(s, events[0]), events[1..]);
    }
  }

  /**
   * Whatever is reported, with the clock not running back: the target stays in
   * its bounds, increases are at most five percent and at least 500 ms apart and
   * after the first report, none comes within a second of a decrease or a lossy
   * window before it, lossy windows are at least a second apart and tries above a
   * learned ceiling at least five.
   */
  lemma EverySessionIsSteady(b: Bounds, events: seq<Event>)
    requires b.min <= b.max && InOrder(NewSession(b), events)
    ensures var s := After(NewSession(b), events);
            && b.min <= s.c.target <= b.max
            && ChangesOk(s.began, s.changes) && Spaced(s.losses, LOSS_WINDOW_MS) && Spaced(s.probes, PROBE_INTERVAL_MS)
  {
    RunKeeps(NewSession(b), events);
  }

  // ---- an ideal link ---------------------------------------------------------

  // Above the capacity the gradient is the overload ratio, in millionths and
  // truncated; at or below it is not positive.
  ghost predicate IsGradient(capacity: real, rate: U32, gradient: int)
    requires capacity > 0.0
  {
    if rate as real > capacity
    then gradient == ((rate as real - capacity) / capacity * 1_000_000.0).Floor
    else gradient <= 0
  }

  // No frame was lost since the controller started.
  ghost predicate Lossless(c: Controller, dropped: U32) {
    c.window.dropped == 0 && (c.window.lastDropped.Some? ==> c.window.lastDropped.value == dropped)
  }

  ghost predicate InBand(capacity: real, target: U32) {
    0.9 * capacity - 1.0 <= target as real <= 1.052 * capacity
  }

  lemma Distribute(x: real, y: real, z: real)
    ensures Scaled(x + y, z) == Scaled(x, z) + Scaled(y, z)
    ensures Scaled(x, y) == Scaled(y, x) && Scaled(1.0, z) == z
    ensures x >= 0.0 && y >= 0.0 ==> Scaled(x, y) >= 0.0
  {
  }

  lemma OverloadIs(capacity: real, excess: real, gradient: int)
    requires capacity > 0.0 && gradient == (excess / capacity * 1_000_000.0).Floor
    ensures var g := gradient as real / 1_000_000.0;
            Scaled(g, capacity) <= excess < Scaled(g + 0.000001, capacity)
  {
    var q, g := excess / capacity, gradient as real / 1_000_000.0;
    assert Scaled(q, capacity) == excess;
    assert g <= q < g + 0.000001;
    hide Scaled;
    Monotone(g, q, capacity);
    Monotone(g + 0.000001, q, capacity);
  }

  // What the truncated gradient tells: the capacity to a millionth.
  lemma EstimateIsCapacity(capacity: real, rate: real, g: real)
    requires capacity > 0.0 && g >= 0.0
    requires Scaled(g, capacity) <= rate - capacity < Scaled(g + 0.000001, capacity)
    ensures capacity <= rate / (1.0 + g) <= capacity + capacity / 1_000_000.0
  {
    var u := capacity / 1_000_000.0;
    Distribute(1.0, g, capacity);
    Distribute(g, 0.000001, capacity);
    Distribute(capacity, u, 1.0 + g);
    Distribute(1.0, g, u);
    Distribute(1.0 + g, capacity, u);
    Distribute(1.0 + g, u, u);
    assert Scaled(0.000001, capacity) == u;
    hide Scaled;
    QuotientBetween(rate, 1.0 + g, capacity, capacity + u);
  }

  lemma AsU32InBand(x: real, target: U32, min: U32, max: U32)
    requires 0.0 <= x <= target as real && min <= max && target <= max
    ensures var r := Clamp(AsU32(x), min, max);
            && x - 1.0 < r as real && (r as real <= x || r == min)
  {
  }

  // Over the limit by more than the threshold, one report lands the target just
  // under the capacity.
  lemma OverloadLands(c: Ranged, fb: Feedback, now: nat, capacity: real)
    requires c.min <= c.target <= c.max && capacity > 0.0 && c.min as real <= 0.9 * capacity
    requires IsGradient(capacity, c.target, fb.owdGradient) && fb.owdGradient > GRADIENT_DOWN_US_PER_S
    ensures InBand(capacity, OnFeedback(c, fb, now).target)
    ensures OnFeedback(c, fb, now).target as real <= 0.901 * capacity
  {
    var rate := c.target as real;
    var g := fb.owdGradient as real / 1_000_000.0;
    OverloadIs(capacity, rate - capacity, fb.owdGradient);
    hide Scaled, AsU32, Clamp, Noted;
    EstimateIsCapacity(capacity, rate, g);
    EstimateIsBelow(c.target, fb.owdGradient);
    NotedStays(c, fb, now);
    AsU32InBand(Estimate(c, fb.owdGradient) * ESTIMATE_MARGIN, c.target, c.min, c.max);
  }

  // Short of that the target never falls, and rises only from within a
  // thousandth of the capacity.
  lemma FlatStaysInBand(c: Ranged, fb: Feedback, now: nat, capacity: real)
    requires c.min <= c.target <= c.max && capacity > 0.0 && InBand(capacity, c.target)
    requires IsGradient(capacity, c.target, fb.owdGradient) && fb.owdGradient <= GRADIENT_DOWN_US_PER_S
    requires !Loses(c, fb, now)
    ensures InBand(capacity, OnFeedback(c, fb, now).target)
  {
    OnlyFlatRises(c, fb, now);
    var rate := c.target as real;
    if rate > capacity && fb.owdGradient < GRADIENT_FLAT_US_PER_S {
      var g := fb.owdGradient as real / 1_000_000.0;
      OverloadIs(capacity, rate - capacity, fb.owdGradient);
      Monotone(g + 0.000001, 0.001, capacity);
    }
    hide OnFeedback, Loses, IsGradient;
  }

  lemma NotedStays(c: Ranged, fb: Feedback, now: nat)
    ensures var n := Noted(c, fb, now); n.target == c.target && n.min == c.min && n.max == c.max
  {
  }

  lemma LosslessNeverLoses(c: Ranged, fb: Feedback, now: nat)
    requires Lossless(c, fb.framesDropped)
    ensures !Loses(c, fb, now) && Lossless(OnFeedback(c, fb, now), fb.framesDropped)
  {
    hide AsU32, Clamp;
  }

  lemma OnlyFlatRises(c: Ranged, fb: Feedback, now: nat)
    requires !Loses(c, fb, now) && fb.owdGradient <= GRADIENT_DOWN_US_PER_S && c.min <= c.target <= c.max
    ensures var c' := OnFeedback(c, fb, now);
            && c.target <= c'.target
            && (c'.target > c.target ==>
                  fb.owdGradient < GRADIENT_FLAT_US_PER_S && c'.target as real <= StepUp(c.target))
  {
    ReportMoves(c, fb, now);
    hide Counted, Reopened, Closes, Lossy;
  }

  // Reports from the link, none of them showing a loss.
  ghost predicate IdealRun(s: Session, events: seq<Event>, capacity: real, dropped: U32)
    requires capacity > 0.0
    decreases |events|
  {
    events == [] ||
    (&& events[0].fb.framesDropped == dropped && IsGradient(capacity, s.c.target, events[0].fb.owdGradient)
     && IdealRun(Step(s, events[0]), events[1..], capacity, dropped))
  }

  /**
   * On a link of fixed capacity the first report of more than half a percent of
   * overload puts the target in [0.9 C - 1, 1.052 C], and it never leaves.
   */
  lemma {:induction false} TheBandIsKept(s: Session, events: seq<Event>, capacity: real, dropped: U32)
    requires s.c.min <= s.c.target <= s.c.max && capacity > 0.0 && s.c.min as real <= 0.9 * capacity
    requires Lossless(s.c, dropped) && IdealRun(s, events, capacity, dropped) && events != []
    requires InBand(capacity, s.c.target) || events[0].fb.owdGradient > GRADIENT_DOWN_US_PER_S
    ensures InBand(capacity, After(s, events).c.target)
    decreases |events|
  {
    var fb, at := events[0].fb, events[0].at;
    LosslessNeverLoses(s.c, fb, at);
    ReportMoves(s.c, fb, at);
    if fb.owdGradient > GRADIENT_DOWN_US_PER_S {
      OverloadLands(s.c, fb, at, capacity);
    } else {
      FlatStaysInBand(s.c, fb, at, capacity);
    }
    hide OnFeedback, Lossless, InBand, IsGradient;
    if |events| > 1 {
      TheBandIsKept(Step(s, events[0]), events[1..], capacity, dropped);
    }
  }
}
