/** The rate cap of a tunnel, for calls of `spend` that follow one another under a clock that never goes back. */
module TunnelRate {
  import opened TunnelSpend

  /** One call: its size, the clock when it checks, and the clock when it wakes if it sleeps. */
  datatype Spending = Spending(n: nat, now: real, at: real)

  /** Bytes let through, and when. */
  datatype Entry = Entry(time: real, n: nat)

  /** The record with its history: the entries of the current window and of those before, the starts of all
      windows, and the last clock reading. */
  datatype Pace = Pace(meter: Meter, past: seq<Entry>, current: seq<Entry>, starts: seq<real>, clock: real) {
    function Entries(): seq<Entry> { past + current }

    /** A new window. */
    function Open(start: real): Pace {
      Pace(meter.(windowStart := start, used := 0), past + current, [], starts + [start], clock)
    }

    function Let(n: nat, time: real): Pace {
      this.(meter := TunnelSpend.Charge(meter, n), current := current + [Entry(time, n)], clock := time)
    }
  }

  function Opened(at: real): Pace { Pace(Meter(0, at, 0), [], [], [at], at) }

  function Rolled(p: Pace, now: real): Pace {
    if now - p.meter.windowStart >= 1.0 then p.Open(now) else p
  }

  function Spent(p: Pace, c: Spending, limit: nat, cap: nat): Pace {
    match Begin(p.meter, c.n, c.now, limit, cap).1
    case Refused => p.(clock := c.now)
    case Admitted => Rolled(p, c.now).Let(c.n, c.now)
    case Asleep => Rolled(p, c.now).Open(c.at).Let(c.n, c.at)
  }

  /** The clock does not go back, and a sleep reaches its target. */
  predicate OnTime(p: Pace, c: Spending, limit: nat, cap: nat) {
    && c.now >= p.clock
    && (Begin(p.meter, c.n, c.now, limit, cap).1.Asleep? ==>
          c.at >= c.now && c.at >= Rolled(p, c.now).meter.windowStart + 1.0)
  }

  function SpentAll(openedAt: real, calls: seq<Spending>, limit: nat, cap: nat): Pace {
    if calls == [] then Opened(openedAt)
    else Spent(SpentAll(openedAt, calls[..|calls| - 1], limit, cap), calls[|calls| - 1], limit, cap)
  }

  predicate AllOnTime(openedAt: real, calls: seq<Spending>, limit: nat, cap: nat) {
    calls == [] ||
    var n := |calls| - 1;
    && AllOnTime(openedAt, calls[..n], limit, cap)
    && OnTime(SpentAll(openedAt, calls[..n], limit, cap), calls[n], limit, cap)
  }

  /** The history goes with the record: `Spent` charges it exactly as `spend` does. */
  lemma {:induction false} SpentIsSpend(p: Pace, c: Spending, limit: nat, cap: nat)
    ensures var (m, verdict) := Begin(p.meter, c.n, c.now, limit, cap);
      Spent(p, c, limit, cap).meter == if verdict.Asleep? then Finish(m, c.n, c.at) else m
  {
  }

  // ---- Bytes in an interval ----------------------------------------------------------------------------

  function Since(entries: seq<Entry>, a: real): nat {
    if entries == [] then 0
    else
      var e := entries[|entries| - 1];
      Since(entries[..|entries| - 1], a) + if e.time >= a then e.n else 0
  }

  function Between(entries: seq<Entry>, a: real, b: real): nat {
    if entries == [] then 0
    else
      var e := entries[|entries| - 1];
      Between(entries[..|entries| - 1], a, b) + if a <= e.time <= b then e.n else 0
  }

  lemma {:induction false} SinceSplit(left: seq<Entry>, right: seq<Entry>, a: real)
    ensures Since(left + right, a) == Since(left, a) + Since(right, a)
    decreases |right|
  {
    if right == [] {
      assert left + right == left;
    } else {
      SinceSplit(left, right[..|right| - 1], a);
      assert (left + right)[..|left + right| - 1] == left + right[..|right| - 1];
    }
  }

  lemma {:induction false} SinceEverything(entries: seq<Entry>, a: real, b: real)
    requires forall k :: 0 <= k < |entries| ==> entries[k].time <= b
    ensures Between(entries, a, b) == Since(entries, a)
  {
    if entries != [] { SinceEverything(entries[..|entries| - 1], a, b); }
  }

  lemma {:induction false} SinceNothing(entries: seq<Entry>, a: real)
    requires forall k :: 0 <= k < |entries| ==> entries[k].time < a
    ensures Since(entries, a) == 0
  {
    if entries != [] { SinceNothing(entries[..|entries| - 1], a); }
  }

  // ---- The invariant -------------------------------------------------------------------------------------

  ghost predicate Spaced(starts: seq<real>) {
    forall k :: 0 < k < |starts| ==> starts[k] - starts[k - 1] >= 1.0
  }

  /** Whole windows lie at least a second apart, so those reaching back to `a` number at most floor(w - a) + 1. */
  ghost predicate PastBounded(past: seq<Entry>, start: real, most: nat) {
    forall a :: a <= start ==> Since(past, a) <= ((start - a).Floor + 1) * most
  }

  /** `most` bounds the limit and every frame. */
  ghost predicate Paced(p: Pace, limit: nat, most: nat) {
    && limit <= most && p.meter.used <= most && p.clock >= p.meter.windowStart
    && p.starts != [] && p.starts[|p.starts| - 1] == p.meter.windowStart && Spaced(p.starts)
    && (forall k :: 0 <= k < |p.past| ==> p.past[k].time <= p.meter.windowStart)
    && (forall k :: 0 <= k < |p.current| ==> p.current[k].time <= p.clock)
    && (forall a :: Since(p.current, a) <= p.meter.used)
    && PastBounded(p.past, p.meter.windowStart, most)
  }

  lemma {:induction false} FloorStep(x: real, y: real, most: nat)
    requires y >= x + 1.0 >= 1.0
    ensures (x.Floor + 1) * most + most <= (y.Floor + 1) * most
  {
    assert (x.Floor + 1) * most + most == (x.Floor + 2) * most;
    assert ((y.Floor + 1) - (x.Floor + 2)) * most >= 0;
  }

  lemma {:induction false} FloorAtLeast(y: real, most: nat)
    requires y >= 0.0
    ensures most <= (y.Floor + 1) * most
  {
  }

  lemma {:induction false} OpenPast(p: Pace, start: real, limit: nat, most: nat)
    requires Paced(p, limit, most) && start >= p.meter.windowStart + 1.0
    ensures PastBounded(p.past + p.current, start, most)
  {
    var w := p.meter.windowStart;
    forall a | a <= start ensures Since(p.past + p.current, a) <= ((start - a).Floor + 1) * most {
      SinceSplit(p.past, p.current, a);
      assert Since(p.current, a) <= most;
      if a <= w {
        FloorStep(w - a, start - a, most);
      } else {
        SinceNothing(p.past, a);
        FloorAtLeast(start - a, most);
      }
    }
  }

  lemma {:induction false} OpenPaced(p: Pace, start: real, limit: nat, most: nat)
    requires Paced(p, limit, most) && start >= p.meter.windowStart + 1.0 && start >= p.clock
    ensures Paced(p.Open(start).(clock := start), limit, most)
  {
    OpenPast(p, start, limit, most);
    assert forall a :: Since([], a) == 0;
  }

  lemma {:induction false} LetPaced(p: Pace, n: nat, time: real, limit: nat, most: nat)
    requires Paced(p, limit, most) && time >= p.clock && p.meter.used + n <= most
    ensures Paced(p.Let(n, time), limit, most)
  {
  }

  lemma {:induction false} SpentPaced(p: Pace, c: Spending, limit: nat, cap: nat, most: nat)
    requires Paced(p, limit, most) && OnTime(p, c, limit, cap) && c.n <= most
    ensures Paced(Spent(p, c, limit, cap), limit, most)
  {
    var r := Rolled(p, c.now).(clock := c.now);
    if c.now - p.meter.windowStart >= 1.0 { OpenPaced(p, c.now, limit, most); }
    assert Paced(r, limit, most);
    match Begin(p.meter, c.n, c.now, limit, cap).1
    case Refused =>
      assert Paced(p.(clock := c.now), limit, most);
    case Admitted =>
      LetPaced(r, c.n, c.now, limit, most);
    case Asleep =>
      OpenPaced(r, c.at, limit, most);
      LetPaced(r.Open(c.at).(clock := c.at), c.n, c.at, limit, most);
  }

  lemma {:induction false} AllPaced(openedAt: real, calls: seq<Spending>, limit: nat, cap: nat, most: nat)
    requires AllOnTime(openedAt, calls, limit, cap) && limit <= most
    requires forall k :: 0 <= k < |calls| ==> calls[k].n <= most
    ensures Paced(SpentAll(openedAt, calls, limit, cap), limit, most)
  {
    if calls == [] {
      forall a | a <= openedAt ensures Since([], a) <= ((openedAt - a).Floor + 1) * most {
        FloorAtLeast(openedAt - a, most);
      }
      assert forall a :: Since([], a) == 0;
    } else {
      var n := |calls| - 1;
      AllPaced(openedAt, calls[..n], limit, cap, most);
      SpentPaced(SpentAll(openedAt, calls[..n], limit, cap), calls[n], limit, cap, most);
    }
  }

  /** Windows start at least a second apart. */
  lemma {:induction false} WindowsSpaced(openedAt: real, calls: seq<Spending>, limit: nat, cap: nat, most: nat)
    requires AllOnTime(openedAt, calls, limit, cap) && limit <= most
    requires forall k :: 0 <= k < |calls| ==> calls[k].n <= most
    ensures Spaced(SpentAll(openedAt, calls, limit, cap).starts)
  {
    AllPaced(openedAt, calls, limit, cap, most);
  }

  lemma {:induction false} Longer(x: real, y: real, most: nat)
    requires x <= y
    ensures (x.Floor + 1) * most + most <= (y.Floor + 2) * most
  {
  }

  lemma {:induction false} AtMostSince(p: Pace, a: real, limit: nat, most: nat)
    requires Paced(p, limit, most)
    ensures a <= p.meter.windowStart ==>
      Since(p.Entries(), a) <= ((p.meter.windowStart - a).Floor + 1) * most + most
    ensures a > p.meter.windowStart ==> Since(p.Entries(), a) <= most
  {
    SinceSplit(p.past, p.current, a);
    assert Since(p.current, a) <= p.meter.used;
    if a > p.meter.windowStart { SinceNothing(p.past, a); }
  }

  lemma {:induction false} AtMostInWindow(p: Pace, a: real, b: real, limit: nat, most: nat)
    requires Paced(p, limit, most) && a <= b && p.clock <= b
    ensures Between(p.Entries(), a, b) <= ((b - a).Floor + 2) * most
  {
    var w := p.meter.windowStart;
    SinceEverything(p.Entries(), a, b);
    AtMostSince(p, a, limit, most);
    if a <= w {
      Longer(w - a, b - a, most);
    } else {
      FloorAtLeast(b - a, most);
      Longer(b - a, b - a, most);
    }
  }

  lemma {:induction false} LateEntry(p: Pace, c: Spending, limit: nat, cap: nat, a: real, b: real)
    requires Spent(p, c, limit, cap).clock > b
    ensures Between(Spent(p, c, limit, cap).Entries(), a, b) == Between(p.Entries(), a, b)
  {
    var t := Spent(p, c, limit, cap);
    if t.current != [] && t.Entries() != p.Entries() {
      assert t.Entries()[..|t.Entries()| - 1] == p.Entries();
    }
  }

  /** Any interval of length L lets through at most (floor(L) + 2) times the limit, or times the largest frame
      where that is larger. */
  lemma {:induction false} RateBounded(
    openedAt: real, calls: seq<Spending>, limit: nat, cap: nat, most: nat, a: real, b: real)
    requires AllOnTime(openedAt, calls, limit, cap) && limit <= most
    requires forall k :: 0 <= k < |calls| ==> calls[k].n <= most
    requires a <= b
    ensures Between(SpentAll(openedAt, calls, limit, cap).Entries(), a, b) <= ((b - a).Floor + 2) * most
  {
    if calls == [] {
      FloorAtLeast(b - a, most);
      assert ((b - a).Floor + 2) * most == ((b - a).Floor + 1) * most + most;
    } else if SpentAll(openedAt, calls, limit, cap).clock <= b {
      AllPaced(openedAt, calls, limit, cap, most);
      AtMostInWindow(SpentAll(openedAt, calls, limit, cap), a, b, limit, most);
    } else {
      var n := |calls| - 1;
      RateBounded(openedAt, calls[..n], limit, cap, most, a, b);
      LateEntry(SpentAll(openedAt, calls[..n], limit, cap), calls[n], limit, cap, a, b);
    }
  }
}
