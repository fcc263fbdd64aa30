/** What the three tool-call accumulators have in common, and exactly when they agree. */
module Accumulators {
  import opened Messages
  import opened StreamChunks

  // ---- The reference: one call per upstream index ---------------------------------------------------

  /** A call as a client would group it: everything that carries one upstream index. Id and name are those of
      its first fragment. */
  datatype Group = Group(index: int, call: OpenCall)

  /** The place of `index` among the groups, or their number. */
  function Place(groups: seq<Group>, index: int): (k: nat)
    ensures k <= |groups| && (k < |groups| ==> groups[k].index == index)
    ensures forall j :: 0 <= j < k ==> groups[j].index != index
  {
    if groups == [] || groups[0].index == index then 0 else 1 + Place(groups[1..], index)
  }

  function GroupIn(groups: seq<Group>, f: Fragment): seq<Group> {
    var k := Place(groups, f.index);
    if k < |groups| then
      groups[k := groups[k].(call := groups[k].call.(arguments := groups[k].call.arguments + f.arguments))]
    else groups + [Group(f.index, OpenCall(Given(f.id), f.name, f.arguments))]
  }

  function Groups(fragments: seq<Fragment>): seq<Group> {
    if fragments == [] then [] else GroupIn(Groups(fragments[..|fragments| - 1]), fragments[|fragments| - 1])
  }

  /** A call that came without an id gets a made-up one. */
  function Name(call: OpenCall, place: nat): OpenCall {
    if call.id == Given("") then call.(id := Minted(place)) else call
  }

  function NamedCalls(groups: seq<Group>): (calls: seq<OpenCall>)
    ensures |calls| == |groups| && forall k :: 0 <= k < |groups| ==> calls[k] == Name(groups[k].call, k)
  {
    seq(|groups|, k requires 0 <= k < |groups| => Name(groups[k].call, k))
  }

  /** One call per index, in order of first appearance. */
  function Reference(fragments: seq<Fragment>): seq<OpenCall> {
    NamedCalls(Groups(fragments))
  }

  /** All argument pieces of one index, joined. */
  function Arguments(fragments: seq<Fragment>, index: int): string {
    if fragments == [] then ""
    else
      var n := |fragments| - 1;
      Arguments(fragments[..n], index) + if fragments[n].index == index then fragments[n].arguments else ""
  }

  lemma {:induction false} PlaceAfter(groups: seq<Group>, f: Fragment, i: int)
    ensures var grouped := GroupIn(groups, f);
      Place(grouped, i) == if i == f.index || Place(groups, i) < |groups| then Place(groups, i) else |grouped|
  {
    var grouped, j := GroupIn(groups, f), Place(groups, i);
    assert forall k :: 0 <= k < |groups| ==> grouped[k].index == groups[k].index;
    assert j < |grouped| && (i == f.index || j < |groups|) ==> grouped[j].index == i;
  }

  /** In any stream a group's arguments are all the pieces of its index, in order. */
  lemma {:induction false} GroupArguments(fragments: seq<Fragment>, index: int)
    ensures var k := Place(Groups(fragments), index);
      Arguments(fragments, index) == if k < |Groups(fragments)| then Groups(fragments)[k].call.arguments else ""
  {
    if fragments != [] {
      var n := |fragments| - 1;
      GroupArguments(fragments[..n], index);
      PlaceAfter(Groups(fragments[..n]), fragments[n], index);
    }
  }

  // ---- Quiet streams -----------------------------------------------------------------------------------

  /** A later fragment of an index omits or repeats the first id and brings no name where the first had none;
      where names are compared too, it omits or repeats the first name. */
  predicate Quiet(groups: seq<Group>, f: Fragment, byName: bool) {
    var k := Place(groups, f.index);
    k < |groups| ==>
      var call := groups[k].call;
      && (f.id == "" || Given(f.id) == call.id)
      && (call.name == "" || byName ==> f.name == "" || f.name == call.name)
  }

  predicate AllQuiet(fragments: seq<Fragment>, byName: bool) {
    fragments == [] ||
    var n := |fragments| - 1;
    AllQuiet(fragments[..n], byName) && Quiet(Groups(fragments[..n]), fragments[n], byName)
  }

  /** The ledger feeds exactly the indices that have a group. */
  ghost predicate Covers(l: Ledger, groups: seq<Group>) {
    && |l.calls| >= |groups|
    && forall i :: i in l.current <==> Place(groups, i) < |groups|
  }

  ghost predicate Mirrors(l: Ledger, groups: seq<Group>) {
    && Covers(l, groups) && l.calls == NamedCalls(groups)
    && forall i :: i in l.current ==> l.current[i] == Place(groups, i)
  }

  /** Some call has the name that its first fragment lacked, and none has lost its name. */
  ghost predicate NamedLate(calls: seq<OpenCall>, groups: seq<Group>)
    requires |calls| >= |groups|
  {
    && (exists k :: 0 <= k < |groups| && groups[k].call.name == "" && calls[k].name != "")
    && (forall k :: 0 <= k < |groups| && groups[k].call.name != "" ==> calls[k].name != "")
  }

  /** The ledger has opened a call too many, or named a call late. */
  ghost predicate Differs(l: Ledger, groups: seq<Group>) {
    Covers(l, groups) && (|l.calls| > |groups| || NamedLate(l.calls, groups))
  }

  lemma {:induction false} TakeCovers(l: Ledger, groups: seq<Group>, f: Fragment, byName: bool)
    requires l.Valid() && Covers(l, groups)
    ensures Covers(l.Take(f, byName), GroupIn(groups, f))
  {
    var t, grouped := l.Take(f, byName), GroupIn(groups, f);
    forall i ensures i in t.current <==> Place(grouped, i) < |grouped| { PlaceAfter(groups, f, i); }
  }

  lemma {:induction false} QuietContinues(l: Ledger, groups: seq<Group>, f: Fragment, byName: bool)
    requires l.Valid() && Mirrors(l, groups) && Quiet(groups, f, byName) && Place(groups, f.index) < |groups|
    ensures Mirrors(l.Take(f, byName), GroupIn(groups, f))
  {
    var k, t, grouped := Place(groups, f.index), l.Take(f, byName), GroupIn(groups, f);
    TakeCovers(l, groups, f, byName);
    assert l.calls[k] == Name(groups[k].call, k) && !l.Opens(f, byName);
    assert t.calls == NamedCalls(grouped);
    forall i ensures Place(grouped, i) == Place(groups, i) { PlaceAfter(groups, f, i); }
  }

  lemma {:induction false} QuietOpens(l: Ledger, groups: seq<Group>, f: Fragment, byName: bool)
    requires l.Valid() && Mirrors(l, groups) && Place(groups, f.index) == |groups|
    ensures Mirrors(l.Take(f, byName), GroupIn(groups, f))
  {
    var t, grouped := l.Take(f, byName), GroupIn(groups, f);
    TakeCovers(l, groups, f, byName);
    assert l.Opens(f, byName);
    assert t.calls == NamedCalls(grouped);
    forall i | i in t.current ensures t.current[i] == Place(grouped, i) { PlaceAfter(groups, f, i); }
  }

  /** A fragment that is not quiet opens a call too many or names a call late. */
  lemma {:induction false} LoudDiffers(l: Ledger, groups: seq<Group>, f: Fragment, byName: bool)
    requires l.Valid() && Mirrors(l, groups) && !Quiet(groups, f, byName)
    ensures Differs(l.Take(f, byName), GroupIn(groups, f))
  {
    var k, t, grouped := Place(groups, f.index), l.Take(f, byName), GroupIn(groups, f);
    TakeCovers(l, groups, f, byName);
    assert l.current[f.index] == k && l.calls[k] == Name(groups[k].call, k);
    if !l.Opens(f, byName) { assert grouped[k].call.name == "" && t.calls[k].name != ""; }
  }

  lemma {:induction false} DiffersStays(l: Ledger, groups: seq<Group>, f: Fragment, byName: bool)
    requires l.Valid() && Differs(l, groups)
    ensures Differs(l.Take(f, byName), GroupIn(groups, f))
  {
    var t, grouped := l.Take(f, byName), GroupIn(groups, f);
    TakeCovers(l, groups, f, byName);
    if |l.calls| == |groups| {
      var k :| 0 <= k < |groups| && groups[k].call.name == "" && l.calls[k].name != "";
      assert grouped[k].call.name == "" && t.calls[k].name != "";
    }
  }

  lemma {:induction false} AccumulateMirrors(fragments: seq<Fragment>, byName: bool)
    ensures var l, groups := Accumulate(fragments, byName), Groups(fragments);
      if AllQuiet(fragments, byName) then Mirrors(l, groups) else Differs(l, groups)
  {
    if fragments != [] {
      var n := |fragments| - 1;
      var l, groups := Accumulate(fragments[..n], byName), Groups(fragments[..n]);
      AccumulateMirrors(fragments[..n], byName);
      if !AllQuiet(fragments[..n], byName) {
        DiffersStays(l, groups, fragments[n], byName);
      } else if !Quiet(groups, fragments[n], byName) {
        LoudDiffers(l, groups, fragments[n], byName);
      } else if Place(groups, fragments[n].index) < |groups| {
        QuietContinues(l, groups, fragments[n], byName);
      } else {
        QuietOpens(l, groups, fragments[n], byName);
      }
    }
  }

  /** The Anthropic and the Responses accumulator put together one call per index, in order of first appearance,
      if and only if the stream is quiet. */
  lemma {:induction false} ReferenceExactly(fragments: seq<Fragment>, byName: bool)
    ensures Accumulate(fragments, byName).calls == Reference(fragments) <==> AllQuiet(fragments, byName)
  {
    AccumulateMirrors(fragments, byName);
  }

  // ---- The keyed accumulator ---------------------------------------------------------------------------

  ghost predicate KeyedMirrors(states: map<int, OpenCall>, groups: seq<Group>) {
    && (forall i :: i in states <==> Place(groups, i) < |groups|)
    && (forall i :: i in states ==> states[i] == groups[Place(groups, i)].call)
  }

  lemma {:induction false} TakeKeyedMirrors(states: map<int, OpenCall>, groups: seq<Group>, f: Fragment)
    requires KeyedMirrors(states, groups)
    ensures KeyedMirrors(TakeKeyed(states, f), GroupIn(groups, f))
  {
    forall i ensures var grouped := GroupIn(groups, f);
      Place(grouped, i) == if i == f.index || Place(groups, i) < |groups| then Place(groups, i) else |grouped| {
      PlaceAfter(groups, f, i);
    }
  }

  lemma {:induction false} AccumulateKeyedMirrors(fragments: seq<Fragment>)
    ensures KeyedMirrors(AccumulateKeyed(fragments), Groups(fragments))
  {
    if fragments != [] {
      var n := |fragments| - 1;
      AccumulateKeyedMirrors(fragments[..n]);
      TakeKeyedMirrors(AccumulateKeyed(fragments[..n]), Groups(fragments[..n]), fragments[n]);
    }
  }

  /** The keyed accumulator's calls, in the order they are persisted. */
  ghost function KeyedCalls(fragments: seq<Fragment>): seq<OpenCall> {
    InIndexOrder(AccumulateKeyed(fragments), Sorted(AccumulateKeyed(fragments).Keys))
  }

  /** Indices first appear in increasing order. */
  ghost predicate Increasing(groups: seq<Group>) {
    forall j, k :: 0 <= j < k < |groups| ==> groups[j].index < groups[k].index
  }

  function Indices(groups: seq<Group>): (indices: seq<int>)
    ensures |indices| == |groups| && forall k :: 0 <= k < |groups| ==> indices[k] == groups[k].index
  {
    seq(|groups|, k requires 0 <= k < |groups| => groups[k].index)
  }

  lemma {:induction false} IncreasingUnique(a: seq<int>, b: seq<int>)
    requires forall i, k :: 0 <= i < k < |a| ==> a[i] < a[k]
    requires forall i, k :: 0 <= i < k < |b| ==> b[i] < b[k]
    requires forall x :: x in a <==> x in b
    ensures a == b
  {
    assert (a != [] ==> a[0] in a) && (b != [] ==> b[0] in b);
    if a != [] && b != [] {
      assert a[0] == b[0];
      forall x ensures x in a[1..] <==> x in b[1..] {
        assert x in a[1..] <==> x in a && x != a[0] by { assert a == [a[0]] + a[1..]; }
        assert x in b[1..] <==> x in b && x != b[0] by { assert b == [b[0]] + b[1..]; }
      }
      IncreasingUnique(a[1..], b[1..]);
    }
  }

  lemma {:induction false} KeysInOrder(states: map<int, OpenCall>, groups: seq<Group>)
    requires KeyedMirrors(states, groups) && Increasing(groups)
    ensures Sorted(states.Keys) == Indices(groups)
  {
    SameKeys(states, groups);
    IncreasingUnique(Sorted(states.Keys), Indices(groups));
  }

  lemma {:induction false} InOrderIsNamed(states: map<int, OpenCall>, groups: seq<Group>, indices: seq<int>)
    requires |indices| == |groups|
    requires forall k :: 0 <= k < |groups| ==> indices[k] in states && states[indices[k]] == groups[k].call
    ensures InIndexOrder(states, indices) == NamedCalls(groups)
    decreases |groups|
  {
    if groups != [] {
      var n := |groups| - 1;
      InOrderIsNamed(states, groups[..n], indices[..n]);
      assert NamedCalls(groups) == NamedCalls(groups[..n]) + [Name(groups[n].call, n)];
    }
  }

  /** The chat accumulator always puts together one call per index; in order of first appearance if the indices
      first appear in increasing order. */
  lemma {:induction false} KeyedIsReference(fragments: seq<Fragment>)
    requires Increasing(Groups(fragments))
    ensures KeyedCalls(fragments) == Reference(fragments)
  {
    var states, groups := AccumulateKeyed(fragments), Groups(fragments);
    AccumulateKeyedMirrors(fragments);
    KeysInOrder(states, groups);
    forall k | 0 <= k < |groups| ensures states[Indices(groups)[k]] == groups[k].call {
      assert Place(groups, groups[k].index) == k;
    }
    InOrderIsNamed(states, groups, Indices(groups));
  }

  // ---- Order and made-up ids apart -----------------------------------------------------------------------

  /** The call without its made-up id. */
  function Blank(call: OpenCall): OpenCall {
    if call.id.Minted? then call.(id := Given("")) else call
  }

  function Blanks(calls: seq<OpenCall>): (blanks: seq<OpenCall>)
    ensures |blanks| == |calls| && forall k :: 0 <= k < |calls| ==> blanks[k] == Blank(calls[k])
  {
    seq(|calls|, k requires 0 <= k < |calls| => Blank(calls[k]))
  }

  /** The same calls, whatever their order and their made-up ids. */
  ghost predicate SameCalls(a: seq<OpenCall>, b: seq<OpenCall>) {
    multiset(Blanks(a)) == multiset(Blanks(b))
  }

  function Map<A, B>(s: seq<A>, f: A -> B): (t: seq<B>)
    ensures |t| == |s| && forall k :: 0 <= k < |s| ==> t[k] == f(s[k])
  {
    seq(|s|, k requires 0 <= k < |s| => f(s[k]))
  }

  function Cut<A>(s: seq<A>, k: nat): seq<A>
    requires k < |s|
  {
    s[..k] + s[k + 1..]
  }

  lemma {:induction false} Removed<A>(s: seq<A>, k: nat)
    requires k < |s|
    ensures multiset(s) == multiset(Cut(s, k)) + multiset{s[k]}
  {
    assert s == s[..k] + [s[k]] + s[k + 1..];
  }

  lemma {:induction false} MapRemoved<A, B>(s: seq<A>, k: nat, f: A -> B)
    requires k < |s|
    ensures multiset(Map(s, f)) == multiset(Map(Cut(s, k), f)) + multiset{f(s[k])}
  {
    Removed(Map(s, f), k);
    assert Cut(Map(s, f), k) == Map(Cut(s, k), f);
  }

  lemma {:induction false} Cancel<A>(a: multiset<A>, b: multiset<A>, x: A)
    requires a + multiset{x} == b + multiset{x}
    ensures a == b
  {
    assert a == (a + multiset{x}) - multiset{x} && b == (b + multiset{x}) - multiset{x};
  }

  lemma {:induction false} Found<A>(s: seq<A>, x: A) returns (k: nat)
    requires x in multiset(s)
    ensures k < |s| && s[k] == x
  {
    k :| 0 <= k < |s| && s[k] == x;
  }

  lemma {:induction false} MapPermuted<A, B>(a: seq<A>, b: seq<A>, f: A -> B)
    requires multiset(a) == multiset(b)
    ensures multiset(Map(a, f)) == multiset(Map(b, f))
    decreases |a|
  {
    if a == [] {
      assert |b| == |multiset(b)| == |multiset(a)| == 0;
    } else {
      assert a[0] in multiset(a);
      var k := Found(b, a[0]);
      Removed(a, 0);
      Removed(b, k);
      Cancel(multiset(Cut(a, 0)), multiset(Cut(b, k)), a[0]);
      MapPermuted(Cut(a, 0), Cut(b, k), f);
      MapRemoved(a, 0, f);
      MapRemoved(b, k, f);
    }
  }

  ghost predicate Unrepeated(s: seq<int>) {
    forall i, k :: 0 <= i < k < |s| ==> s[i] != s[k]
  }

  lemma {:induction false} CountedOnce(s: seq<int>)
    requires Unrepeated(s)
    ensures forall x :: multiset(s)[x] == if x in s then 1 else 0
  {
    if s != [] {
      var n := |s| - 1;
      CountedOnce(s[..n]);
      assert s == s[..n] + [s[n]];
    }
  }

  lemma {:induction false} SameMembers(a: seq<int>, b: seq<int>)
    requires Unrepeated(a) && Unrepeated(b) && forall x :: x in a <==> x in b
    ensures multiset(a) == multiset(b)
  {
    CountedOnce(a);
    CountedOnce(b);
  }

  ghost predicate DistinctIndices(groups: seq<Group>) {
    forall i, k :: 0 <= i < k < |groups| ==> groups[i].index != groups[k].index
  }

  lemma {:induction false} NoIndexTwice(groups: seq<Group>, f: Fragment)
    requires DistinctIndices(groups)
    ensures DistinctIndices(GroupIn(groups, f))
  {
  }

  lemma {:induction false} GroupsDistinct(fragments: seq<Fragment>)
    ensures DistinctIndices(Groups(fragments))
  {
    if fragments != [] {
      GroupsDistinct(fragments[..|fragments| - 1]);
      NoIndexTwice(Groups(fragments[..|fragments| - 1]), fragments[|fragments| - 1]);
    }
  }

  function Lookup(states: map<int, OpenCall>): int -> OpenCall {
    i => if i in states then states[i] else OpenCall(Given(""), "", "")
  }

  ghost predicate AllGiven(states: map<int, OpenCall>) {
    forall i :: i in states ==> states[i].id.Given?
  }

  lemma {:induction false} GivenAt(states: map<int, OpenCall>, i: int)
    requires AllGiven(states) && i in states
    ensures states[i].id.Given?
  {
  }

  lemma {:induction false} KeyedGiven(fragments: seq<Fragment>)
    ensures AllGiven(AccumulateKeyed(fragments))
  {
    if fragments != [] { KeyedGiven(fragments[..|fragments| - 1]); }
  }

  lemma {:induction false} InOrderIsMap(states: map<int, OpenCall>, indices: seq<int>)
    requires AllGiven(states) && forall k :: 0 <= k < |indices| ==> indices[k] in states
    ensures Blanks(InIndexOrder(states, indices)) == Map(indices, Lookup(states))
  {
    if indices != [] {
      var n := |indices| - 1;
      InOrderIsMap(states, indices[..n]);
      var call := Name(states[indices[n]], n);
      assert InIndexOrder(states, indices) == InIndexOrder(states, indices[..n]) + [call];
      BlanksSnoc(InIndexOrder(states, indices[..n]), call);
      MapSnoc(indices, Lookup(states));
      GivenAt(states, indices[n]);
      BlankName(states[indices[n]], n);
    }
  }

  lemma {:induction false} BlankName(call: OpenCall, place: nat)
    requires call.id.Given?
    ensures Blank(Name(call, place)) == call
  {
    if call.id == Given("") {
      assert call.id.text == "";
      assert Blank(Name(call, place)).id.text == "";
    }
  }

  lemma {:induction false} BlanksSnoc(calls: seq<OpenCall>, call: OpenCall)
    ensures Blanks(calls + [call]) == Blanks(calls) + [Blank(call)]
  {
  }

  lemma {:induction false} MapSnoc<A, B>(s: seq<A>, f: A -> B)
    requires s != []
    ensures Map(s, f) == Map(s[..|s| - 1], f) + [f(s[|s| - 1])]
  {
  }

  /** The chat accumulator always puts together one call per index, order and made-up ids apart. */
  lemma {:induction false} KeyedIsGrouped(fragments: seq<Fragment>)
    ensures SameCalls(KeyedCalls(fragments), Reference(fragments))
  {
    var states, groups := AccumulateKeyed(fragments), Groups(fragments);
    AccumulateKeyedMirrors(fragments);
    KeyedGiven(fragments);
    GroupsDistinct(fragments);
    KeyedMapIsGrouped(states, groups, Sorted(states.Keys));
    InOrderIsMap(states, Sorted(states.Keys));
  }

  lemma {:induction false} KeyedMapIsGrouped(states: map<int, OpenCall>, groups: seq<Group>, sorted: seq<int>)
    requires KeyedMirrors(states, groups) && AllGiven(states) && DistinctIndices(groups)
    requires sorted == Sorted(states.Keys)
    ensures multiset(Map(sorted, Lookup(states))) == multiset(Blanks(NamedCalls(groups)))
  {
    SameKeys(states, groups);
    SameMembers(sorted, Indices(groups));
    MapPermuted(sorted, Indices(groups), Lookup(states));
    MapIsGrouped(states, groups);
  }

  lemma {:induction false} SameKeys(states: map<int, OpenCall>, groups: seq<Group>)
    requires KeyedMirrors(states, groups)
    ensures forall x :: x in Sorted(states.Keys) <==> x in Indices(groups)
  {
    forall x ensures x in Sorted(states.Keys) <==> x in Indices(groups) {
      if x in states { assert Indices(groups)[Place(groups, x)] == x; }
      if x in Indices(groups) {
        var k :| 0 <= k < |groups| && groups[k].index == x;
        assert Place(groups, x) < |groups|;
      }
    }
  }

  lemma {:induction false} MapIsGrouped(states: map<int, OpenCall>, groups: seq<Group>)
    requires KeyedMirrors(states, groups) && AllGiven(states)
    requires DistinctIndices(groups)
    ensures Map(Indices(groups), Lookup(states)) == Blanks(NamedCalls(groups))
  {
    var left, right := Map(Indices(groups), Lookup(states)), Blanks(NamedCalls(groups));
    forall k | 0 <= k < |groups| ensures left[k] == right[k] {
      assert Place(groups, groups[k].index) == k && states[groups[k].index] == groups[k].call;
    }
  }

  function NameOf(call: OpenCall): string { call.name }

  /** How many calls have no name. */
  function Nameless(calls: seq<OpenCall>): nat { multiset(Map(calls, NameOf))[""] }

  lemma {:induction false} NamelessSnoc(calls: seq<OpenCall>)
    requires calls != []
    ensures Nameless(calls) == Nameless(calls[..|calls| - 1]) + if calls[|calls| - 1].name == "" then 1 else 0
  {
    var n := |calls| - 1;
    assert Map(calls, NameOf) == Map(calls[..n], NameOf) + [calls[n].name];
  }

  lemma {:induction false} FewerNameless(a: seq<OpenCall>, b: seq<OpenCall>)
    requires |a| == |b| && forall k :: 0 <= k < |a| ==> b[k].name != "" ==> a[k].name != ""
    ensures Nameless(a) <= Nameless(b)
    ensures (exists k :: 0 <= k < |a| && b[k].name == "" && a[k].name != "") ==> Nameless(a) < Nameless(b)
  {
    if a != [] {
      var n := |a| - 1;
      FewerNameless(a[..n], b[..n]);
      NamelessSnoc(a);
      NamelessSnoc(b);
      if exists k :: 0 <= k < |a| && b[k].name == "" && a[k].name != "" {
        var k :| 0 <= k < |a| && b[k].name == "" && a[k].name != "";
        assert k < n ==> b[..n][k].name == "" && a[..n][k].name != "";
      }
    }
  }

  lemma {:induction false} LateIsDifferent(calls: seq<OpenCall>, groups: seq<Group>)
    requires |calls| == |groups| && NamedLate(calls, groups)
    ensures !SameCalls(ClosedCalls(calls), ClosedCalls(NamedCalls(groups)))
  {
    var a, b := Blanks(ClosedCalls(calls)), Blanks(ClosedCalls(NamedCalls(groups)));
    var k :| 0 <= k < |groups| && groups[k].call.name == "" && calls[k].name != "";
    assert b[k].name == "" && a[k].name != "";
    FewerNameless(a, b);
    if multiset(a) == multiset(b) { MapPermuted(a, b, NameOf); }
  }

  lemma {:induction false} DifferentCalls(l: Ledger, groups: seq<Group>)
    requires Differs(l, groups)
    ensures !SameCalls(ClosedCalls(l.calls), ClosedCalls(NamedCalls(groups)))
  {
    var a, b := Blanks(ClosedCalls(l.calls)), Blanks(ClosedCalls(NamedCalls(groups)));
    if |l.calls| > |groups| {
      assert |multiset(a)| == |l.calls| && |multiset(b)| == |groups|;
    } else {
      LateIsDifferent(l.calls, groups);
    }
  }

  function Closed(call: OpenCall): OpenCall { call.(arguments := OrObject(call.arguments)) }

  lemma {:induction false} ClosedSame(a: seq<OpenCall>, b: seq<OpenCall>)
    requires SameCalls(a, b)
    ensures SameCalls(ClosedCalls(a), ClosedCalls(b))
  {
    MapPermuted(Blanks(a), Blanks(b), Closed);
    assert Blanks(ClosedCalls(a)) == Map(Blanks(a), Closed);
    assert Blanks(ClosedCalls(b)) == Map(Blanks(b), Closed);
  }

  /** The chat accumulator mirrors the other two - as its documentation says it does - if and only if the stream is
      quiet: they persist the same calls, order and made-up ids apart. */
  lemma {:induction false} ChatMirrorsExactly(fragments: seq<Fragment>, byName: bool)
    ensures SameCalls(ClosedCalls(KeyedCalls(fragments)), ClosedCalls(Accumulate(fragments, byName).calls))
      <==> AllQuiet(fragments, byName)
  {
    KeyedIsGrouped(fragments);
    ClosedSame(KeyedCalls(fragments), Reference(fragments));
    AccumulateMirrors(fragments, byName);
    if !AllQuiet(fragments, byName) { DifferentCalls(Accumulate(fragments, byName), Groups(fragments)); }
  }

  /** Where indices first appear in increasing order, also the order and the made-up ids are the same. */
  lemma {:induction false} ChatMirrorsInOrder(fragments: seq<Fragment>, byName: bool)
    requires Increasing(Groups(fragments))
    ensures ClosedCalls(KeyedCalls(fragments)) == ClosedCalls(Accumulate(fragments, byName).calls)
      <==> AllQuiet(fragments, byName)
  {
    KeyedIsReference(fragments);
    ReferenceExactly(fragments, byName);
    ChatMirrorsExactly(fragments, byName);
  }

  // ---- Well-formed streams -------------------------------------------------------------------------------

  /** What a provider should send next: the first fragment of an index carries id and name and a larger index
      than any before, later ones repeat or omit id and name. */
  predicate Fits(groups: seq<Group>, f: Fragment) {
    var k := Place(groups, f.index);
    if k < |groups| then
      (f.id == "" || Given(f.id) == groups[k].call.id) && f.name in ["", groups[k].call.name]
    else
      f.id != "" && f.name != "" && forall j :: 0 <= j < |groups| ==> groups[j].index < f.index
  }

  predicate WellFormed(fragments: seq<Fragment>) {
    fragments == [] ||
    var n := |fragments| - 1;
    WellFormed(fragments[..n]) && Fits(Groups(fragments[..n]), fragments[n])
  }

  lemma {:induction false} WellFormedIsQuiet(fragments: seq<Fragment>, byName: bool)
    requires WellFormed(fragments)
    ensures Increasing(Groups(fragments)) && AllQuiet(fragments, byName)
  {
    if fragments != [] { WellFormedIsQuiet(fragments[..|fragments| - 1], byName); }
  }

  /** On a well-formed stream all three accumulators put together the same calls. */
  lemma {:induction false} AccumulatorsAgree(fragments: seq<Fragment>)
    requires WellFormed(fragments)
    ensures Accumulate(fragments, false).calls == Reference(fragments)
    ensures Accumulate(fragments, true).calls == Reference(fragments)
    ensures KeyedCalls(fragments) == Reference(fragments)
  {
    WellFormedIsQuiet(fragments, false);
    WellFormedIsQuiet(fragments, true);
    ReferenceExactly(fragments, false);
    ReferenceExactly(fragments, true);
    KeyedIsReference(fragments);
  }

  // ---- One way not to be quiet ---------------------------------------------------------------------------

  lemma {:induction false} QuietPrefix(fragments: seq<Fragment>, more: seq<Fragment>, byName: bool)
    requires AllQuiet(fragments + more, byName)
    ensures AllQuiet(fragments, byName)
    decreases |more|
  {
    if more == [] {
      assert fragments + more == fragments;
    } else {
      assert (fragments + more)[..|fragments + more| - 1] == fragments + more[..|more| - 1];
      QuietPrefix(fragments, more[..|more| - 1], byName);
    }
  }

  /** Whenever a provider reuses an index for a second call - a fragment with an id other than the first one of its
      index - the chat accumulator and the others disagree for good, whatever comes before or after. */
  lemma {:induction false} ReusedIndexDiffers(before: seq<Fragment>, f: Fragment, after: seq<Fragment>, byName: bool)
    requires var k := Place(Groups(before), f.index);
      k < |Groups(before)| && f.id != "" && Given(f.id) != Groups(before)[k].call.id
    ensures var fragments := before + [f] + after;
      !SameCalls(ClosedCalls(KeyedCalls(fragments)), ClosedCalls(Accumulate(fragments, byName).calls))
  {
    assert (before + [f])[..|before|] == before;
    if AllQuiet(before + [f] + after, byName) { QuietPrefix(before + [f], after, byName); }
    ChatMirrorsExactly(before + [f] + after, byName);
  }

  // ---- Calls of any stream -------------------------------------------------------------------------------

  /** Ids made up by the gateway are all different. */
  ghost predicate MintedApart(calls: seq<OpenCall>) {
    forall i, k :: 0 <= i < k < |calls| && calls[i].id.Minted? && calls[k].id.Minted? ==> calls[i].id != calls[k].id
  }

  ghost predicate MintedInPlace(calls: seq<OpenCall>) {
    forall k :: 0 <= k < |calls| && calls[k].id.Minted? ==> calls[k].id == Minted(k)
  }

  lemma {:induction false} AccumulatedInPlace(fragments: seq<Fragment>, byName: bool)
    ensures MintedInPlace(Accumulate(fragments, byName).calls)
  {
    if fragments != [] {
      var n := |fragments| - 1;
      AccumulatedInPlace(fragments[..n], byName);
      var l := Accumulate(fragments[..n], byName);
      TakeInPlace(l, fragments[n], byName);
    }
  }

  lemma {:induction false} TakeInPlace(l: Ledger, f: Fragment, byName: bool)
    requires l.Valid() && MintedInPlace(l.calls)
    ensures MintedInPlace(l.Take(f, byName).calls)
  {
  }

  lemma {:induction false} KeyedInPlace(states: map<int, OpenCall>, indices: seq<int>)
    requires AllGiven(states) && forall k :: 0 <= k < |indices| ==> indices[k] in states
    ensures MintedInPlace(InIndexOrder(states, indices))
  {
    if indices != [] {
      var n := |indices| - 1;
      KeyedInPlace(states, indices[..n]);
      var front, call := InIndexOrder(states, indices[..n]), states[indices[n]];
      GivenAt(states, indices[n]);
      assert |front| == n && call.id.Given?;
      assert InIndexOrder(states, indices) == front + [if call.id == Given("") then call.(id := Minted(n)) else call];
    }
  }

  /** In every stream the ids that are made up are different from each other, in all three accumulators. */
  lemma {:induction false} MintedIdsDiffer(fragments: seq<Fragment>, byName: bool)
    ensures MintedApart(Accumulate(fragments, byName).calls) && MintedApart(KeyedCalls(fragments))
  {
    AccumulatedInPlace(fragments, byName);
    KeyedGiven(fragments);
    KeyedInPlace(AccumulateKeyed(fragments), Sorted(AccumulateKeyed(fragments).Keys));
  }

  /** Later fragments of the index go on with the call that `f` opened: the same id or none, the same name or none. */
  ghost predicate GoesOn(f: Fragment, tail: seq<Fragment>) {
    forall n :: 0 <= n < |tail| && tail[n].index == f.index ==>
      tail[n].id in ["", f.id] && tail[n].name in ["", f.name]
  }

  /** Call `k` is the one its index feeds, and has what `f` and the pieces behind it gave it. */
  ghost predicate Collected(l: Ledger, k: nat, f: Fragment, pieces: string) {
    && k < |l.calls| && f.index in l.current && l.current[f.index] == k
    && (forall i :: i in l.current && i != f.index ==> l.current[i] != k)
    && l.calls[k].arguments == f.arguments + pieces && l.calls[k].name == f.name
    && (f.id != "" ==> l.calls[k].id == Given(f.id))
  }

  lemma {:induction false} TakeCollects(l: Ledger, k: nat, f: Fragment, g: Fragment, pieces: string, byName: bool)
    requires l.Valid() && Collected(l, k, f, pieces)
    requires g.index == f.index ==> g.id in ["", f.id] && g.name in ["", f.name]
    ensures Collected(l.Take(g, byName), k, f, pieces + if g.index == f.index then g.arguments else "")
  {
    if g.index == f.index {
      assert !l.Opens(g, byName);
      assert f.arguments + pieces + g.arguments == f.arguments + (pieces + g.arguments);
    } else {
      assert pieces + "" == pieces;
    }
  }

  lemma {:induction false} FedApart(l: Ledger, f: Fragment, byName: bool)
    requires l.Valid() && l.Opens(f, byName)
    ensures Collected(l.Take(f, byName), |l.calls|, f, "")
  {
    assert f.arguments + "" == f.arguments;
  }

  /** In every stream: a fragment that opens a call - the first of its index, or one that reuses it - gives that call
      all the pieces its index brings from then on, in order, as long as they go on with it. */
  lemma {:induction false} OpenedCallCollects(
    before: seq<Fragment>, f: Fragment, tail: seq<Fragment>, byName: bool)
    requires Accumulate(before, byName).Opens(f, byName) && GoesOn(f, tail)
    ensures var k, l := |Accumulate(before, byName).calls|, Accumulate(before + [f] + tail, byName);
      Collected(l, k, f, Arguments(tail, f.index))
    decreases |tail|
  {
    if tail == [] {
      assert before + [f] + tail == before + [f];
      AccumulateSnoc(before, f, byName);
      FedApart(Accumulate(before, byName), f, byName);
    } else {
      var n := |tail| - 1;
      OpenedCallCollects(before, f, tail[..n], byName);
      AccumulateSnoc(before + [f] + tail[..n], tail[n], byName);
      SplitLast(before + [f], tail);
      TakeCollects(Accumulate(before + [f] + tail[..n], byName), |Accumulate(before, byName).calls|, f, tail[n],
                   Arguments(tail[..n], f.index), byName);
    }
  }

  /** And when a fragment opens a call: its index is new, or it brings another id, or - where names count - another
      name than the call its index feeds. */
  lemma {:induction false} OpensExactly(fragments: seq<Fragment>, f: Fragment, byName: bool)
    ensures var l := Accumulate(fragments, byName);
      && (f.index in l.current <==> exists n :: 0 <= n < |fragments| && fragments[n].index == f.index)
      && (|l.Take(f, byName).calls| == |l.calls| + 1 <==>
            || f.index !in l.current
            || (f.id != "" && Given(f.id) != l.calls[l.current[f.index]].id)
            || (byName && f.name != "" && l.calls[l.current[f.index]].name != ""
                && f.name != l.calls[l.current[f.index]].name))
  {
    if fragments != [] {
      var n := |fragments| - 1;
      OpensExactly(fragments[..n], f, byName);
      assert fragments == fragments[..n] + [fragments[n]];
    }
  }
}
