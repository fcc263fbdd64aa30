/** The byte and rate caps of a tunnel. `spend` sleeps between checking the caps and charging the bytes, so several
    calls can be past the check at once. */
module TunnelSpend {

  /** What a tunnel's record keeps for `spend`. */
  datatype Meter = Meter(total: nat, windowStart: real, used: nat)

  datatype Verdict = Refused | Admitted | Asleep

  /** A window a second old or more starts afresh. */
  function Roll(m: Meter, now: real): Meter {
    if now - m.windowStart >= 1.0 then m.(windowStart := now, used := 0) else m
  }

  function Charge(m: Meter, n: nat): Meter { m.(total := m.total + n, used := m.used + n) }

  /** `spend` up to its sleep, or to its end if it does not sleep. */
  function Begin(m: Meter, n: nat, now: real, limit: nat, cap: nat): (Meter, Verdict) {
    if m.total + n > cap then (m, Refused)
    else
      var r := Roll(m, now);
      if r.used + n > limit then (r, Asleep) else (Charge(r, n), Admitted)
  }

  /** `spend` after its sleep: a new window is opened, and nothing is checked again. */
  function Finish(m: Meter, n: nat, at: real): Meter {
    Charge(m.(windowStart := at, used := 0), n)
  }

  // ---- The total cap under interleaving --------------------------------------------------------------

  /** The record, and the sizes of the calls that are asleep. */
  datatype State = State(meter: Meter, sleeping: seq<nat>)

  datatype Action = Call(n: nat, now: real) | Wake(k: nat, at: real) | Cancel(k: nat)

  function Start(openedAt: real): State { State(Meter(0, openedAt, 0), []) }

  function Remove(sizes: seq<nat>, k: nat): seq<nat>
    requires k < |sizes|
  {
    sizes[..k] + sizes[k + 1..]
  }

  function Step(s: State, a: Action, limit: nat, cap: nat): State {
    match a
    case Call(n, now) =>
      var (m, verdict) := Begin(s.meter, n, now, limit, cap);
      State(m, if verdict.Asleep? then s.sleeping + [n] else s.sleeping)
    case Wake(k, at) => if k < |s.sleeping| then State(Finish(s.meter, s.sleeping[k], at), Remove(s.sleeping, k)) else s
    case Cancel(k) => if k < |s.sleeping| then s.(sleeping := Remove(s.sleeping, k)) else s
  }

  function Run(openedAt: real, actions: seq<Action>, limit: nat, cap: nat): State {
    if actions == [] then Start(openedAt)
    else Step(Run(openedAt, actions[..|actions| - 1], limit, cap), actions[|actions| - 1], limit, cap)
  }

  /** At most `k` calls are in flight at once, each of at most `m` bytes. */
  predicate Modest(openedAt: real, actions: seq<Action>, limit: nat, cap: nat, k: nat, m: nat) {
    actions == [] ||
    var n := |actions| - 1;
    && Modest(openedAt, actions[..n], limit, cap, k, m)
    && (actions[n].Call? ==> actions[n].n <= m && |Run(openedAt, actions[..n], limit, cap).sleeping| < k)
  }

  function Sum(sizes: seq<nat>): nat {
    if sizes == [] then 0 else Sum(sizes[..|sizes| - 1]) + sizes[|sizes| - 1]
  }

  lemma {:induction false} SumOfTwo(a: seq<nat>, b: seq<nat>)
    ensures Sum(a + b) == Sum(a) + Sum(b)
    decreases |b|
  {
    if b == [] {
      assert a + b == a;
    } else {
      SumOfTwo(a, b[..|b| - 1]);
      assert (a + b)[..|a + b| - 1] == a + b[..|b| - 1];
    }
  }

  lemma {:induction false} SumRemoved(sizes: seq<nat>, k: nat)
    requires k < |sizes|
    ensures Sum(sizes) == Sum(Remove(sizes, k)) + sizes[k]
  {
    assert sizes == sizes[..k] + [sizes[k]] + sizes[k + 1..];
    SumOfTwo(sizes[..k] + [sizes[k]], sizes[k + 1..]);
    SumOfTwo(sizes[..k], [sizes[k]]);
    SumOfTwo(sizes[..k], sizes[k + 1..]);
    assert [sizes[k]][..0] == [];
  }

  lemma {:induction false} SumBounded(sizes: seq<nat>, m: nat)
    requires forall k :: 0 <= k < |sizes| ==> sizes[k] <= m
    ensures Sum(sizes) <= |sizes| * m
  {
    if sizes != [] {
      SumBounded(sizes[..|sizes| - 1], m);
      assert |sizes| * m == (|sizes| - 1) * m + m;
    }
  }

  lemma {:induction false} Times(a: nat, b: nat, m: nat)
    requires a <= b
    ensures a * m <= b * m
  {
  }

  /** The key: bytes charged plus bytes past the check stay below the bound. */
  ghost predicate Bounded(s: State, most: nat, m: nat) {
    && s.meter.total + Sum(s.sleeping) <= most
    && (forall i :: 0 <= i < |s.sleeping| ==> s.sleeping[i] <= m)
  }

  lemma {:induction false} CallBounded(s: State, n: nat, now: real, limit: nat, cap: nat, most: nat, m: nat)
    requires Bounded(s, most, m) && n <= m && cap + Sum(s.sleeping) <= most
    ensures Bounded(Step(s, Call(n, now), limit, cap), most, m)
  {
    assert (s.sleeping + [n])[..|s.sleeping|] == s.sleeping;
  }

  /** A call may go past the check when the cap and the bytes asleep fit into the bound. */
  lemma {:induction false} StepBounded(s: State, a: Action, limit: nat, cap: nat, most: nat, m: nat)
    requires Bounded(s, most, m) && (a.Call? ==> a.n <= m && cap + Sum(s.sleeping) <= most)
    ensures Bounded(Step(s, a, limit, cap), most, m)
  {
    match a
    case Call(n, now) => CallBounded(s, n, now, limit, cap, most, m);
    case Wake(i, _) => if i < |s.sleeping| { SumRemoved(s.sleeping, i); }
    case Cancel(i) => if i < |s.sleeping| { SumRemoved(s.sleeping, i); }
  }

  lemma {:induction false} RunBounded(openedAt: real, actions: seq<Action>, limit: nat, cap: nat, k: nat, m: nat)
    requires k > 0 && Modest(openedAt, actions, limit, cap, k, m)
    ensures Bounded(Run(openedAt, actions, limit, cap), cap + (k - 1) * m, m)
  {
    if actions == [] {
      Times(0, k - 1, m);
    } else {
      var n := |actions| - 1;
      var s := Run(openedAt, actions[..n], limit, cap);
      RunBounded(openedAt, actions[..n], limit, cap, k, m);
      SumBounded(s.sleeping, m);
      if actions[n].Call? { Times(|s.sleeping|, k - 1, m); }
      StepBounded(s, actions[n], limit, cap, cap + (k - 1) * m, m);
    }
  }

  /** With at most `k` calls in flight of at most `m` bytes each, the total never exceeds the cap by more than
      `(k - 1) * m`, however they interleave; one at a time, the cap is exact. */
  lemma {:induction false} OvershootBounded(openedAt: real, actions: seq<Action>, limit: nat, cap: nat, k: nat, m: nat)
    requires k > 0 && Modest(openedAt, actions, limit, cap, k, m)
    ensures Run(openedAt, actions, limit, cap).meter.total <= cap + (k - 1) * m
    ensures k == 1 ==> Run(openedAt, actions, limit, cap).meter.total <= cap
  {
    RunBounded(openedAt, actions, limit, cap, k, m);
  }

  // ---- The bound is attained -----------------------------------------------------------------------------

  /** One call that fills the window, and `n` more. */
  function Calls(n: nat, m: nat): seq<Action> { seq(n + 1, i => Call(m, 0.0)) }

  function Wakes(n: nat): seq<Action> { seq(n, i => Wake(0, 1.0)) }

  lemma {:induction false} RunNext(openedAt: real, actions: seq<Action>, a: Action, limit: nat, cap: nat)
    ensures Run(openedAt, actions + [a], limit, cap) == Step(Run(openedAt, actions, limit, cap), a, limit, cap)
  {
  }

  lemma {:induction false} ModestNext(
    openedAt: real, actions: seq<Action>, a: Action, limit: nat, cap: nat, k: nat, m: nat)
    requires Modest(openedAt, actions, limit, cap, k, m)
    requires a.Call? ==> a.n <= m && |Run(openedAt, actions, limit, cap).sleeping| < k
    ensures Modest(openedAt, actions + [a], limit, cap, k, m)
  {
  }

  /** `total` bytes charged, and `n` calls of `m` bytes asleep. */
  ghost predicate Dozing(s: State, total: nat, n: nat, m: nat) {
    s.meter.total == total && |s.sleeping| == n && forall i :: 0 <= i < n ==> s.sleeping[i] == m
  }

  lemma {:induction false} CallDozes(s: State, n: nat, m: nat)
    requires m > 0 && s.meter == Meter(m, 0.0, m) && Dozing(s, m, n, m)
    ensures var t := Step(s, Call(m, 0.0), m, 2 * m); t.meter == Meter(m, 0.0, m) && Dozing(t, m, n + 1, m)
  {
  }

  lemma {:induction false} WakeCharges(s: State, total: nat, n: nat, m: nat, limit: nat, cap: nat)
    requires n > 0 && Dozing(s, total, n, m)
    ensures Dozing(Step(s, Wake(0, 1.0), limit, cap), total + m, n - 1, m)
  {
  }

  lemma {:induction false} AllAsleep(m: nat, n: nat, k: nat)
    requires m > 0 && n <= k && k > 0
    ensures var s := Run(0.0, Calls(n, m), m, 2 * m); s.meter == Meter(m, 0.0, m) && Dozing(s, m, n, m)
    ensures Modest(0.0, Calls(n, m), m, 2 * m, k, m)
    decreases n
  {
    if n == 0 {
      assert Calls(0, m) == [] + [Call(m, 0.0)];
      RunNext(0.0, [], Call(m, 0.0), m, 2 * m);
      ModestNext(0.0, [], Call(m, 0.0), m, 2 * m, k, m);
    } else {
      AllAsleep(m, n - 1, k);
      assert Calls(n, m) == Calls(n - 1, m) + [Call(m, 0.0)];
      RunNext(0.0, Calls(n - 1, m), Call(m, 0.0), m, 2 * m);
      ModestNext(0.0, Calls(n - 1, m), Call(m, 0.0), m, 2 * m, k, m);
      CallDozes(Run(0.0, Calls(n - 1, m), m, 2 * m), n - 1, m);
    }
  }

  function Bytes(n: nat, m: nat): nat { if n == 0 then 0 else Bytes(n - 1, m) + m }

  lemma {:induction false} BytesAreProduct(n: nat, m: nat)
    ensures Bytes(n, m) == n * m
  {
    if n > 0 {
      BytesAreProduct(n - 1, m);
      assert n * m == (n - 1) * m + m;
    }
  }

  lemma {:induction false} AllAwake(m: nat, k: nat, n: nat)
    requires m > 0 && n <= k && k > 0
    ensures var actions := Calls(k, m) + Wakes(n);
      Dozing(Run(0.0, actions, m, 2 * m), m + Bytes(n, m), k - n, m) && Modest(0.0, actions, m, 2 * m, k, m)
    decreases n
  {
    if n == 0 {
      AllAsleep(m, k, k);
      assert Calls(k, m) + Wakes(0) == Calls(k, m);
    } else {
      AllAwake(m, k, n - 1);
      var actions := Calls(k, m) + Wakes(n - 1);
      assert Calls(k, m) + Wakes(n) == actions + [Wake(0, 1.0)];
      RunNext(0.0, actions, Wake(0, 1.0), m, 2 * m);
      ModestNext(0.0, actions, Wake(0, 1.0), m, 2 * m, k, m);
      WakeCharges(Run(0.0, actions, m, 2 * m), m + Bytes(n - 1, m), k - (n - 1), m, m, 2 * m);
    }
  }

  /** No smaller bound holds: for every `k` and `m` there is a run, with a rate of `m` and a cap of `2 * m` bytes,
      that reaches it. */
  lemma {:induction false} OvershootReached(k: nat, m: nat)
    requires k > 0 && m > 0
    ensures exists actions ::
      Modest(0.0, actions, m, 2 * m, k, m) && Run(0.0, actions, m, 2 * m).meter.total == 2 * m + (k - 1) * m
  {
    AllAwake(m, k, k);
    BytesAreProduct(k, m);
    var actions := Calls(k, m) + Wakes(k);
    assert m + k * m == 2 * m + (k - 1) * m;
    assert Modest(0.0, actions, m, 2 * m, k, m) && Run(0.0, actions, m, 2 * m).meter.total == 2 * m + (k - 1) * m;
  }
}
