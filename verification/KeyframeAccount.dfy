// What becomes of every frame the client released or stepped over: fed, refused
// by the gate, or made good for by a report to the server.

module KeyframeAccount {
  import opened Basics
  import opened Cursors
  import opened Seq
  import opened KeyframeGate

  // By number: the frame the release steps over first, if any.
  predicate Misses(s: Session, e: Event) {
    e.Releases? && s.next.Some? && s.next.value < e.number
  }

  // By number and gate: a keyframe, or any frame while no loss closed the gate,
  // of this build or, the laps aside, up to half the space past its first.
  predicate Admissible(s: Session, e: Event)
    requires e.Releases?
  {
    && (e.number - s.first) % SPAN <= HALF
    && (e.keyframe || (s.loop.gate.open && !(Misses(s, e) && s.loop.gateOnLoss)))
  }

  /**
   * What a step tells the server: the first frame stepped over; the frame itself
   * if it was admitted, its bytes there, and the decoder did not take it; what was
   * drained, in order; and nothing else. Nothing is discarded but in stepping over.
   */
  lemma ReportsAreExact(s: Session, e: Event)
    requires s.loop.gate.first == IdOf(s, s.first)
    ensures Step(s, e).loop.reported == s.loop.reported +
            match e
            case Releases(number, _, copied, taken, _) =>
              (if Misses(s, e) then [IdOf(s, s.next.value)] else [])
              + (if Admissible(s, e) && copied && !taken then [IdOf(s, number)] else [])
            case Drains(abandoned, _) => abandoned
            case _ => []
    ensures !Misses(s, e) ==> Step(s, e).loop.discarded == s.loop.discarded
    ensures e.Releases? ==>
              (|Step(s, e).loop.queued| > |s.loop.queued| <==> Admissible(s, e) && e.copied && e.taken)
  {
    if e.Releases? {
      var stepped :=
        if Misses(s, e) then SteppedOver(s.loop, IdOf(s, s.next.value), IdOf(s, e.number), e.at) else s.loop;
      AdmissionIsExact(s.(loop := stepped), e.number, e.keyframe);
      hide Admits, Wrap, Walk;
    }
  }

  // A session asks for its first keyframe at its first tick.
  lemma SessionAsksAtOnce(base: Seq16, first: int, gateOnLoss: bool, now: nat, at: nat)
    requires now <= at
    ensures Step(NewSession(base, first, gateOnLoss, now), Ticks(at)).asks == [at]
  {
    assert Asks(NewSession(base, first, gateOnLoss, now).loop.gate, at);
  }

  // ---- whole sessions --------------------------------------------------------

  // `told` gives each report the number it is about, None for a drained id.
  datatype Account = Account(
    s: Session, start: int, fed: seq<int>, refused: set<int>, told: seq<Option<int>>)

  function Opened(base: Seq16, first: int, gateOnLoss: bool, now: nat): Account {
    Account(NewSession(base, first, gateOnLoss, now), 0, [], {}, [])
  }

  function Nones(n: nat): (r: seq<Option<int>>)
    ensures |r| == n && forall k :: 0 <= k < n ==> r[k] == None
  {
    seq(n, i => None)
  }

  function About(s: Session, e: Event): seq<Option<int>> {
    match e
    case Releases(number, _, copied, taken, _) =>
      (if Misses(s, e) then [Some(s.next.value)] else [])
      + (if Admissible(s, e) && copied && !taken then [Some(number)] else [])
    case Drains(abandoned, _) => Nones(|abandoned|)
    case _ => []
  }

  function Entered(a: Account, e: Event): Account {
    var s' := Step(a.s, e);
    var released := e.Releases?;
    Account(s',
            if released && a.s.next.None? then e.number else a.start,
            if released && |s'.loop.queued| > |a.s.loop.queued| then a.fed + [e.number] else a.fed,
            if released && !Admissible(a.s, e) then a.refused + {e.number} else a.refused,
            a.told + About(a.s, e))
  }

  // Reported itself, or by the first frame of a stretch none of which was fed.
  ghost predicate MadeGood(a: Account, n: int) {
    exists k :: 0 <= k < |a.told| && a.told[k].Some? && a.start <= a.told[k].value <= n
                && forall m :: a.told[k].value <= m <= n ==> m !in a.fed
  }

  ghost predicate Settled(a: Account, n: int) {
    n in a.fed || n in a.refused || MadeGood(a, n)
  }

  ghost predicate ToldOk(a: Account) {
    && |a.told| == |a.s.loop.reported|
    && forall k :: 0 <= k < |a.told| && a.told[k].Some? ==> a.s.loop.reported[k] == IdOf(a.s, a.told[k].value)
  }

  ghost predicate Rising(numbers: seq<int>) {
    forall i, j :: 0 <= i < j < |numbers| ==> numbers[i] < numbers[j]
  }

  ghost predicate FedOk(a: Account) {
    && Rising(a.fed)
    && (a.fed != [] ==> a.s.next.Some? && a.fed[|a.fed| - 1] < a.s.next.value)
    && a.s.loop.lastFed == if a.fed == [] then None else Some(IdOf(a.s, a.fed[|a.fed| - 1]))
  }

  ghost predicate AccountOk(a: Account) {
    && a.s.loop.gate.first == IdOf(a.s, a.s.first)
    && ToldOk(a) && FedOk(a)
    && (a.s.next.Some? ==> a.start <= a.s.next.value && forall n :: a.start <= n < a.s.next.value ==> Settled(a, n))
  }

  lemma ToldKeeps(a: Account, e: Event)
    requires AccountOk(a)
    ensures ToldOk(Entered(a, e))
  {
    hide Wrap, Admissible, Step;
    ReportsAreExact(a.s, e);
    StepStays(a.s, e);
  }

  lemma StepStays(s: Session, e: Event)
    requires s.loop.gate.first == IdOf(s, s.first)
    ensures Step(s, e).base == s.base && Step(s, e).loop.gate.first == IdOf(Step(s, e), Step(s, e).first)
    ensures Step(s, e).next == if e.Releases? then Some(e.number + 1) else s.next
  {
    hide Wrap, Walk, IsNewerThan;
  }

  lemma LastFedIs(s: Session, e: Event)
    ensures Step(s, e).loop.lastFed
            == if e.Releases? && |Step(s, e).loop.queued| > |s.loop.queued| then Some(IdOf(s, e.number))
               else s.loop.lastFed
  {
    hide Wrap, Walk, Admits;
  }

  lemma OneMoreRises(numbers: seq<int>, number: int)
    requires Rising(numbers) && (numbers != [] ==> numbers[|numbers| - 1] < number)
    ensures Rising(numbers + [number])
  {
  }

  lemma FedKeeps(a: Account, e: Event)
    requires AccountOk(a) && Legal(a.s, e)
    ensures FedOk(Entered(a, e))
  {
    StepStays(a.s, e);
    LastFedIs(a.s, e);
    hide Step, Wrap, Settled, ToldOk, About, Admissible, Rising;
    if e.Releases? {
      OneMoreRises(a.fed, e.number);
    }
  }

  lemma SettledStays(a: Account, e: Event, n: int)
    requires AccountOk(a) && Legal(a.s, e) && a.s.next.Some? && a.start <= n < a.s.next.value && Settled(a, n)
    ensures Settled(Entered(a, e), n)
  {
    hide Step, About, Admissible;
    var a' := Entered(a, e);
    assert a'.fed == a.fed || a'.fed == a.fed + [e.number];
    if MadeGood(a, n) {
      var k :| 0 <= k < |a.told| && a.told[k].Some? && a.start <= a.told[k].value <= n
               && forall m :: a.told[k].value <= m <= n ==> m !in a.fed;
      assert a'.told[k] == a.told[k];
    }
  }

  // The frame released, and those stepped over before it.
  lemma NewlySettled(a: Account, e: Event, n: int)
    requires AccountOk(a) && Legal(a.s, e) && e.Releases?
    requires if a.s.next.Some? then a.s.next.value <= n <= e.number else n == e.number
    ensures Settled(Entered(a, e), n)
  {
    hide Step;
    ReportsAreExact(a.s, e);
    var a', t := Entered(a, e), |a.told|;
    assert a'.fed == a.fed || a'.fed == a.fed + [e.number];
    if n < e.number {
      assert Misses(a.s, e);
      assert a'.told[t] == Some(a.s.next.value);
    } else if Admissible(a.s, e) {
      if e.taken {
        assert a'.fed[|a.fed|] == e.number;
      } else {
        var k := if Misses(a.s, e) then t + 1 else t;
        assert a'.told[k] == Some(e.number);
      }
    }
  }

  lemma EnteringKeeps(a: Account, e: Event)
    requires AccountOk(a) && Legal(a.s, e)
    ensures AccountOk(Entered(a, e))
  {
    hide Settled, ToldOk, FedOk, Wrap, IdOf, Admissible;
    ToldKeeps(a, e);
    FedKeeps(a, e);
    StepStays(a.s, e);
    var a' := Entered(a, e);
    forall n | a'.s.next.Some? && a'.start <= n < a'.s.next.value
      ensures Settled(a', n)
    {
      if a.s.next.Some? && n < a.s.next.value {
        SettledStays(a, e, n);
      } else {
        NewlySettled(a, e, n);
      }
    }
  }

  function After(a: Account, events: seq<Event>): Account
    decreases |events|
  {
    if events == [] then a else After(Entered(a, events[0]), events[1..])
  }

  lemma {:induction false} RunKeeps(a: Account, events: seq<Event>)
    requires AccountOk(a) && LegalRun(a.s, events)
    ensures AccountOk(After(a, events)) && After(a, events).s == KeyframeGate.After(a.s, events)
    decreases |events|
  {
    hide AccountOk, Step, Legal;
    if events != [] {
      EnteringKeeps(a, events[0]);
      RunKeeps(Entered(a, events[0]), events[1..]);
    }
  }

  /**
   * Over every legal session, gating on loss or not: every frame from the first
   * released to the last was fed, or refused by the gate, or a report names it or
   * the first frame of a stretch up to it none of which was ever fed. Each report
   * carries the id of the frame it is about, and the newest frame fed is the one
   * the loop remembers.
   */
  lemma EveryFrameIsFedRefusedOrReported(base: Seq16, first: int, gateOnLoss: bool, now: nat, events: seq<Event>)
    requires LegalRun(NewSession(base, first, gateOnLoss, now), events)
    ensures var a := After(Opened(base, first, gateOnLoss, now), events);
            && a.s == KeyframeGate.After(NewSession(base, first, gateOnLoss, now), events)
            && (a.s.next.Some? ==> forall n :: a.start <= n < a.s.next.value ==> Settled(a, n))
            && ToldOk(a) && FedOk(a)
  {
    RunKeeps(Opened(base, first, gateOnLoss, now), events);
  }
}
