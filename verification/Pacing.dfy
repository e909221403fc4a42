// How long a sender must wait between packets, and the rate that enforces.

module Pacing {
  import opened Basics

  const NS_PER_S := 1_000_000_000

  type Rate = n: nat | n >= 1 witness 1

  // Nanoseconds `bytes` take at `rate` bits per second, rounded down.
  function Cost(bytes: nat, rate: Rate): nat {
    bytes * 8 * NS_PER_S / rate
  }

  function Recorded(available: nat, burst: nat, bytes: nat, now: nat, rate: Rate): nat {
    Max(available, Max(now - burst, 0)) + Cost(bytes, rate)
  }

  function WaitFor(available: nat, now: nat): nat {
    Max(available - now, 0)
  }

  // Two bits of pace for each bit of target, and the target never below the start.
  function VideoPaceBps(initialKbps: nat, targetKbps: nat): Rate {
    Max(Max(initialKbps, targetKbps), 1) * 2_000
  }

  class Pacer {
    var rate: Rate
    var available: nat
    const burst: nat

    constructor (rate: nat, burst: nat, now: nat)
      ensures this.rate == Max(rate, 1) && this.burst == burst && available == now
    {
      this.rate := Max(rate, 1);
      this.burst := burst;
      available := now;
    }

    method SetRate(rate: nat)
      modifies this`rate
      ensures this.rate == Max(rate, 1)
    {
      this.rate := Max(rate, 1);
    }

    method Wait(now: nat) returns (wait: nat)
      ensures wait == WaitFor(available, now)
    {
      wait := if available > now then available - now else 0;
    }

    // After waiting out `Wait`, the wait left is at most this packet's own cost.
    method Record(bytes: nat, now: nat)
      modifies this`available
      ensures available == Recorded(old(available), burst, bytes, now, rate)
      ensures WaitFor(old(available), now) == 0 ==> WaitFor(available, now) <= Cost(bytes, rate)
    {
      var floor := if now > burst then now - burst else 0;
      var base := if available > floor then available else floor;
      var cost := bytes * 8 * NS_PER_S / rate;
      available := base + cost;
    }
  }

  // ---- whole streams ---------------------------------------------------------

  // `rate` is the pace when it went out.
  datatype Send = Send(bytes: nat, at: nat, rate: Rate)

  // When the wire is free after the first `k` sends.
  function Available(start: nat, burst: nat, sends: seq<Send>, k: nat): nat
    requires k <= |sends|
  {
    if k == 0 then start
    else
      var s := sends[k - 1];
      Recorded(Available(start, burst, sends, k - 1), burst, s.bytes, s.at, s.rate)
  }

  // The sender waits out the pace before every send.
  ghost predicate Obeys(start: nat, burst: nat, sends: seq<Send>) {
    && (forall k :: 0 <= k < |sends| ==> WaitFor(Available(start, burst, sends, k), sends[k].at) == 0)
    && (forall k :: 0 < k < |sends| ==> sends[k - 1].at <= sends[k].at)
  }

  function Bits(sends: seq<Send>, i: nat, j: nat): nat
    requires i <= j <= |sends|
    decreases j - i
  {
    if i == j then 0 else Bits(sends, i, j - 1) + 8 * sends[j - 1].bytes
  }

  lemma Distributes(x: int, y: int, z: int)
    ensures Times(x, y + z) == Times(x, y) + Times(x, z)
    ensures Times(x, 0) == 0
    ensures 0 <= x && y <= z ==> Times(x, y) <= Times(x, z)
    ensures x <= y && 0 <= z ==> Times(x, z) <= Times(y, z)
  {
    if x <= y && 0 <= z {
      assert (y - x) * z >= 0;
    }
    if 0 <= x && y <= z {
      assert x * (z - y) >= 0;
    }
  }

  // A packet's cost is the time its bits take, short by less than a nanosecond.
  lemma CostIsTheTime(bytes: nat, rate: Rate)
    ensures Times(rate, Cost(bytes, rate)) <= 8 * bytes * NS_PER_S < Times(rate, Cost(bytes, rate) + 1)
  {
    var bits, cost := bytes * 8 * NS_PER_S, Cost(bytes, rate);
    assert bits == rate * cost + bits % rate;
    assert Times(rate, cost) == rate * cost;
    Distributes(rate, cost, 1);
    assert Times(rate, 1) == rate;
  }

  lemma CostCovers(bytes: nat, rate: Rate, top: nat)
    requires rate <= top
    ensures 8 * bytes * NS_PER_S <= Times(top, Cost(bytes, rate) + 1)
  {
    CostIsTheTime(bytes, rate);
    hide Times, Cost;
    Distributes(rate, top, Cost(bytes, rate) + 1);
  }

  lemma AvailableAfter(start: nat, burst: nat, sends: seq<Send>, k: nat)
    requires k < |sends|
    ensures var before, s := Available(start, burst, sends, k), sends[k];
            var after := Available(start, burst, sends, k + 1);
            after >= before + Cost(s.bytes, s.rate) && after >= s.at - burst + Cost(s.bytes, s.rate)
  {
  }

  lemma BitsAfter(sends: seq<Send>, i: nat, j: nat)
    requires i <= j < |sends|
    ensures Bits(sends, i, i) == 0 && Bits(sends, i, j + 1) == Bits(sends, i, j) + 8 * sends[j].bytes
  {
  }

  // From send `i` on, the wire is busy at least as long as the bits took.
  lemma {:induction false} WireIsBusy(start: nat, burst: nat, sends: seq<Send>, i: nat, j: nat, top: nat)
    requires i < j <= |sends|
    requires forall k :: i <= k < j ==> sends[k].rate <= top
    ensures Bits(sends, i, j) * NS_PER_S
            <= Times(top, Available(start, burst, sends, j) - sends[i].at + burst + (j - i))
    decreases j
  {
    hide Times, Cost, Available, Bits;
    var last := sends[j - 1];
    AvailableAfter(start, burst, sends, j - 1);
    BitsAfter(sends, i, j - 1);
    CostCovers(last.bytes, last.rate, top);
    var before := Available(start, burst, sends, j - 1);
    var cost := Cost(last.bytes, last.rate);
    var span := Available(start, burst, sends, j) - sends[i].at + burst + (j - i);
    if i == j - 1 {
      Distributes(top, cost + 1, span);
    } else {
      WireIsBusy(start, burst, sends, i, j - 1, top);
      var spanBefore := before - sends[i].at + burst + (j - 1 - i);
      Distributes(top, spanBefore, cost + 1);
      Distributes(top, spanBefore + (cost + 1), span);
    }
  }

  lemma FreeWhenSent(start: nat, burst: nat, sends: seq<Send>, k: nat)
    requires Obeys(start, burst, sends) && k < |sends|
    ensures Available(start, burst, sends, k) <= sends[k].at
  {
    assert WaitFor(Available(start, burst, sends, k), sends[k].at) == 0;
  }

  /**
   * For a sender that waits out the pace, over any stretch of its sends: the
   * bits of sends `i` to `j - 1` take no less than the time from send `i` to send
   * `j`, the burst and a nanosecond a send allow at `top`, whatever the rate did
   * below it.
   */
  lemma PaceIsKept(start: nat, burst: nat, sends: seq<Send>, i: nat, j: nat, top: nat)
    requires Obeys(start, burst, sends) && i < j < |sends|
    requires forall k :: i <= k < j ==> sends[k].rate <= top
    ensures Bits(sends, i, j) * NS_PER_S <= Times(top, sends[j].at - sends[i].at + burst + (j - i))
  {
    hide Times, Bits, Available, Obeys;
    FreeWhenSent(start, burst, sends, j);
    WireIsBusy(start, burst, sends, i, j, top);
    Distributes(top, Available(start, burst, sends, j) - sends[i].at + burst + (j - i),
                sends[j].at - sends[i].at + burst + (j - i));
  }

  // Waiting as long as told, and no shorter, finds the wire free.
  lemma WaitIsExact(available: nat, now: nat, wait: nat)
    ensures WaitFor(available, now) <= wait <==> available <= now + wait
  {
  }

  // Right after a send the wait left is at most that packet's cost.
  lemma WaitIsOwnCost(start: nat, burst: nat, sends: seq<Send>, k: nat)
    requires Obeys(start, burst, sends) && k < |sends|
    ensures WaitFor(Available(start, burst, sends, k + 1), sends[k].at) <= Cost(sends[k].bytes, sends[k].rate)
  {
    hide Cost;
    assert WaitFor(Available(start, burst, sends, k), sends[k].at) == 0;
  }

  // ---- what is forgiven ------------------------------------------------------

  // What sends `i` to `j - 1` cost.
  function Costs(sends: seq<Send>, i: nat, j: nat): nat
    requires i <= j <= |sends|
    decreases j - i
  {
    if i == j then 0 else Costs(sends, i, j - 1) + Cost(sends[j - 1].bytes, sends[j - 1].rate)
  }

  // The wire as send `i` found it if it had been idle for the whole burst, and
  // all that went out since.
  function FreeFrom(burst: nat, sends: seq<Send>, i: nat, k: nat): nat
    requires i <= k <= |sends| && i < |sends|
  {
    Max(sends[i].at - burst, 0) + Costs(sends, i, k)
  }

  lemma CostsGrow(sends: seq<Send>, i: nat, k: nat)
    requires i <= k < |sends|
    ensures Costs(sends, i, i) == 0
    ensures Costs(sends, i, k + 1) == Costs(sends, i, k) + Cost(sends[k].bytes, sends[k].rate)
  {
  }

  /**
   * When the wire is free, at any rates and whether or not anyone waited: no later
   * than some send's start of idle time, the burst before it, and the cost of all
   * since make it; no sooner than any of them do. So idle time up to the burst is
   * forgiven and no more, and nothing else delays a send.
   */
  lemma {:induction false} WireIsFreeWhen(start: nat, burst: nat, sends: seq<Send>, k: nat)
    requires k <= |sends|
    ensures var free := Available(start, burst, sends, k);
            && start + Costs(sends, 0, k) <= free
            && (forall i: nat :: i < k ==> FreeFrom(burst, sends, i, k) <= free)
            && (free == start + Costs(sends, 0, k) || exists i: nat :: i < k && free == FreeFrom(burst, sends, i, k))
  {
    hide Cost, Costs;
    if k == 0 {
      NoCosts(sends);
    } else {
      var h := k - 1;
      WireIsFreeWhen(start, burst, sends, h);
      var before := Available(start, burst, sends, h);
      forall i: nat | i < k
        ensures FreeFrom(burst, sends, i, k)
                == (if i < k - 1 then FreeFrom(burst, sends, i, k - 1) else Max(sends[i].at - burst, 0))
                   + Cost(sends[k - 1].bytes, sends[k - 1].rate)
      {
        CostsGrow(sends, i, k - 1);
      }
      CostsGrow(sends, 0, k - 1);
      if before < Max(sends[k - 1].at - burst, 0) {
        assert Available(start, burst, sends, k) == FreeFrom(burst, sends, k - 1, k);
      } else if i: nat :| i < h && before == FreeFrom(burst, sends, i, h) {
        assert Available(start, burst, sends, k) == FreeFrom(burst, sends, i, k);
      }
    }
  }

  lemma NoCosts(sends: seq<Send>)
    ensures Costs(sends, 0, 0) == 0
  {
  }

  /** After the burst's worth of idle time, packets worth up to the burst go out at once. */
  lemma {:induction false} BurstGoesAtOnce(start: nat, burst: nat, sends: seq<Send>, i: nat, j: nat)
    requires i <= j <= |sends| && i < |sends| && Available(start, burst, sends, i) + burst <= sends[i].at
    requires forall k :: i <= k < j ==> sends[k].at == sends[i].at
    requires Costs(sends, i, j) <= burst
    ensures WaitFor(Available(start, burst, sends, j), sends[i].at) == 0
    ensures j > i ==> Available(start, burst, sends, j) == sends[i].at - burst + Costs(sends, i, j)
    decreases j
  {
    hide Cost;
    if i < j {
      BurstGoesAtOnce(start, burst, sends, i, j - 1);
    }
  }

  // The pace is the least that follows the target up, never falls below the
  // starting rate and is never nothing.
  lemma PaceNeverBelowTheStart(initialKbps: nat, targetKbps: nat)
    ensures var pace := VideoPaceBps(initialKbps, targetKbps);
            pace >= 2_000 * initialKbps && pace >= 2_000 * targetKbps
            && (targetKbps <= initialKbps ==> pace == VideoPaceBps(initialKbps, initialKbps))
            && pace >= 2_000 && pace in {2_000, 2_000 * initialKbps, 2_000 * targetKbps}
  {
  }
}
