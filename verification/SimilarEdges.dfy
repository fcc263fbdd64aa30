/** The `similar_to` edges of the memory graph: candidate pairs, ranked, then picked greedily under two caps. */
module SimilarEdges {

  const MIN_SHARED := 2
  const SHORT_TOKENS := 3
  const MAX_PER_NODE := 4
  const MAX_TOTAL := 200

  datatype Edge = Edge(source: string, target: string, weight: nat)

  // ---- Orders --------------------------------------------------------------------------------------

  /** Strings by their first differing character; a proper prefix comes first. */
  predicate Less(a: string, b: string) {
    b != [] && (a == [] || a[0] < b[0] || (a[0] == b[0] && Less(a[1..], b[1..])))
  }

  /** Heavier first, then by source, then by target. */
  predicate Precedes(e: Edge, f: Edge) {
    || e.weight > f.weight
    || (e.weight == f.weight && (Less(e.source, f.source) || (e.source == f.source && Less(e.target, f.target))))
  }

  lemma {:induction false} LessTransitive(a: string, b: string, c: string)
    ensures Less(a, b) && Less(b, c) ==> Less(a, c)
  {
    if a != [] && b != [] && c != [] { LessTransitive(a[1..], b[1..], c[1..]); }
  }

  lemma {:induction false} LessTotal(a: string, b: string)
    ensures Less(a, b) || a == b || Less(b, a)
    ensures !(Less(a, b) && Less(b, a)) && !Less(a, a)
  {
    if a != [] && b != [] {
      LessTotal(a[1..], b[1..]);
      assert a[0] == b[0] && a[1..] == b[1..] ==> a == [a[0]] + a[1..] == b;
    }
    if a != [] { LessTotal(a[1..], a[1..]); }
  }

  lemma {:induction false} PrecedesTransitive(e: Edge, f: Edge, g: Edge)
    ensures Precedes(e, f) && Precedes(f, g) ==> Precedes(e, g)
  {
    LessTransitive(e.source, f.source, g.source);
    LessTransitive(e.target, f.target, g.target);
  }

  lemma {:induction false} PrecedesTotal(e: Edge, f: Edge)
    ensures Precedes(e, f) || e == f || Precedes(f, e)
    ensures !(Precedes(e, f) && Precedes(f, e)) && !Precedes(e, e)
  {
    LessTotal(e.source, f.source);
    LessTotal(e.target, f.target);
    LessTotal(e.source, e.source);
    LessTotal(e.target, e.target);
  }

  // ---- Candidates ------------------------------------------------------------------------------------

  function TokenSet(tokens: seq<string>): set<string> { set t | t in tokens }

  function Shared(left: seq<string>, right: seq<string>): set<string> { TokenSet(left) * TokenSet(right) }

  /** Two memories are similar when they share two distinct tokens, or one if both are short. */
  predicate Similar(left: seq<string>, right: seq<string>) {
    var short := |TokenSet(left)| <= SHORT_TOKENS && |TokenSet(right)| <= SHORT_TOKENS;
    |Shared(left, right)| >= if short then 1 else MIN_SHARED
  }

  ghost predicate IsCandidate(tokens: map<string, seq<string>>, e: Edge) {
    && e.source in tokens && e.target in tokens && Less(e.source, e.target)
    && Similar(tokens[e.source], tokens[e.target])
    && e.weight == |Shared(tokens[e.source], tokens[e.target])|
  }

  ghost predicate Ranked(edges: seq<Edge>) {
    forall i, k :: 0 <= i < k < |edges| ==> Precedes(edges[i], edges[k])
  }

  /** All candidate edges, best first. */
  ghost predicate IsRanking(tokens: map<string, seq<string>>, ranked: seq<Edge>) {
    Ranked(ranked) && forall e :: e in ranked <==> IsCandidate(tokens, e)
  }

  /** A pair is a candidate exactly if its two token sets share two tokens, or one where neither has more than three;
      its weight is how many they share. */
  lemma {:induction false} CandidateExactly(tokens: map<string, seq<string>>, e: Edge)
    requires e.source in tokens && e.target in tokens && Less(e.source, e.target)
    ensures var left, right := (set t | t in tokens[e.source]), (set t | t in tokens[e.target]);
      IsCandidate(tokens, e) <==>
        && (|left * right| >= 2 || (|left * right| == 1 && |left| <= 3 && |right| <= 3))
        && e.weight == |left * right|
  {
    assert (set t | t in tokens[e.source]) == TokenSet(tokens[e.source]);
    assert (set t | t in tokens[e.target]) == TokenSet(tokens[e.target]);
  }

  /** Up to position `n` the two are the same, and there the first ends or has the smaller character. */
  ghost predicate SmallerAt(a: string, b: string, n: nat) {
    n <= |a| && n < |b| && a[..n] == b[..n] && (n == |a| || a[n] < b[n])
  }

  /** Names are ordered by their first difference. */
  lemma {:induction false} LessExactly(a: string, b: string)
    ensures Less(a, b) <==> exists n: nat :: SmallerAt(a, b, n)
  {
    if a != [] && b != [] && a[0] == b[0] {
      LessExactly(a[1..], b[1..]);
      if n: nat :| SmallerAt(a[1..], b[1..], n) {
        assert a[..n + 1] == [a[0]] + a[1..][..n] && b[..n + 1] == [b[0]] + b[1..][..n];
        assert SmallerAt(a, b, n + 1);
      }
      if n: nat :| SmallerAt(a, b, n) {
        assert n > 0;
        assert a[1..][..n - 1] == a[..n][1..] && b[1..][..n - 1] == b[..n][1..];
        assert SmallerAt(a[1..], b[1..], n - 1);
      }
    } else {
      if Less(a, b) { assert SmallerAt(a, b, 0); }
      if n: nat :| SmallerAt(a, b, n) {
        assert n > 0 ==> a[..n][0] == b[..n][0];
      }
    }
  }

  /** In a ranking the heavier of two edges comes first; of equally heavy ones the one with the smaller source, and of
      those with the same source the one with the smaller target. */
  lemma {:induction false} RankedByKeys(ranked: seq<Edge>, i: nat, k: nat)
    requires Ranked(ranked) && i < |ranked| && k < |ranked|
    ensures i < k <==>
      || ranked[i].weight > ranked[k].weight
      || (ranked[i].weight == ranked[k].weight && Less(ranked[i].source, ranked[k].source))
      || (ranked[i].weight == ranked[k].weight && ranked[i].source == ranked[k].source
          && Less(ranked[i].target, ranked[k].target))
  {
    PrecedesTotal(ranked[i], ranked[k]);
    assert i < k ==> Precedes(ranked[i], ranked[k]);
    assert k < i ==> Precedes(ranked[k], ranked[i]);
  }

  lemma {:induction false} FirstIsBest(ranked: seq<Edge>, e: Edge)
    requires Ranked(ranked) && e in ranked
    ensures e == ranked[0] || Precedes(ranked[0], e)
  {
  }

  lemma {:induction false} TailMembers(ranked: seq<Edge>, e: Edge)
    requires Ranked(ranked) && ranked != []
    ensures e in ranked[1..] <==> e in ranked && e != ranked[0]
  {
    if e in ranked[1..] {
      var k :| 0 <= k < |ranked| - 1 && ranked[1..][k] == e;
      assert Precedes(ranked[0], ranked[k + 1]);
      PrecedesTotal(e, e);
    }
  }

  lemma {:induction false} RankedUnique(a: seq<Edge>, b: seq<Edge>)
    requires Ranked(a) && Ranked(b) && forall e :: e in a <==> e in b
    ensures a == b
  {
    assert (a != [] ==> a[0] in a) && (b != [] ==> b[0] in b);
    if a != [] && b != [] {
      FirstIsBest(a, b[0]);
      FirstIsBest(b, a[0]);
      PrecedesTotal(a[0], b[0]);
      forall e ensures e in a[1..] <==> e in b[1..] {
        TailMembers(a, e);
        TailMembers(b, e);
      }
      RankedUnique(a[1..], b[1..]);
    }
  }

  /** The payload determines the ranking, whatever order the dictionary lists its keys in. */
  lemma {:induction false} RankingUnique(tokens: map<string, seq<string>>, a: seq<Edge>, b: seq<Edge>)
    requires IsRanking(tokens, a) && IsRanking(tokens, b)
    ensures a == b
  {
    RankedUnique(a, b);
  }

  // ---- The greedy pick -------------------------------------------------------------------------------

  function Touches(e: Edge, v: string): nat {
    (if e.source == v then 1 else 0) + (if e.target == v then 1 else 0)
  }

  function Degree(edges: seq<Edge>, v: string): nat {
    if edges == [] then 0 else Degree(edges[..|edges| - 1], v) + Touches(edges[|edges| - 1], v)
  }

  predicate Saturated(edges: seq<Edge>, e: Edge) {
    Degree(edges, e.source) >= MAX_PER_NODE || Degree(edges, e.target) >= MAX_PER_NODE
  }

  function Pick(edges: seq<Edge>, e: Edge): seq<Edge> {
    if |edges| >= MAX_TOTAL || Saturated(edges, e) then edges else edges + [e]
  }

  function Greedy(ranked: seq<Edge>): seq<Edge> {
    if ranked == [] then [] else Pick(Greedy(ranked[..|ranked| - 1]), ranked[|ranked| - 1])
  }

  lemma {:induction false} DegreeSnoc(edges: seq<Edge>, e: Edge, v: string)
    ensures Degree(edges + [e], v) == Degree(edges, v) + Touches(e, v)
  {
  }

  lemma {:induction false} GreedySnoc(ranked: seq<Edge>, e: Edge)
    ensures Greedy(ranked + [e]) == Pick(Greedy(ranked), e)
  {
  }

  lemma {:induction false} GreedyFull(ranked: seq<Edge>, rest: seq<Edge>)
    requires |Greedy(ranked)| >= MAX_TOTAL
    ensures Greedy(ranked + rest) == Greedy(ranked)
    decreases |rest|
  {
    if rest == [] {
      assert ranked + rest == ranked;
    } else {
      var n := |rest| - 1;
      GreedyFull(ranked, rest[..n]);
      GreedySnoc(ranked + rest[..n], rest[n]);
      assert ranked + rest == ranked + rest[..n] + [rest[n]];
    }
  }

  // ---- The computation -------------------------------------------------------------------------------

  /** A library sort: `items` in the order `less`. */
  function Insert<T>(item: T, sorted: seq<T>, less: (T, T) -> bool): seq<T> {
    if sorted == [] || less(item, sorted[0]) then [item] + sorted else [sorted[0]] + Insert(item, sorted[1..], less)
  }

  function Sort<T>(items: seq<T>, less: (T, T) -> bool): seq<T> {
    if items == [] then [] else Insert(items[0], Sort(items[1..], less), less)
  }

  ghost predicate StrictOrder<T(!new)>(less: (T, T) -> bool) {
    && (forall a, b :: less(a, b) || a == b || less(b, a))
    && (forall a, b, c :: less(a, b) && less(b, c) ==> less(a, c))
  }

  ghost predicate Ordered<T(!new)>(items: seq<T>, less: (T, T) -> bool) {
    forall i, k :: 0 <= i < k < |items| ==> less(items[i], items[k])
  }

  ghost predicate NoRepeats<T(!new)>(items: seq<T>) {
    forall i, k :: 0 <= i < k < |items| ==> items[i] != items[k]
  }

  lemma {:induction false} InsertSorts<T(!new)>(item: T, sorted: seq<T>, less: (T, T) -> bool)
    requires StrictOrder(less) && Ordered(sorted, less) && item !in sorted
    ensures Ordered(Insert(item, sorted, less), less)
    ensures forall x :: x in Insert(item, sorted, less) <==> x == item || x in sorted
  {
    if sorted != [] && !less(item, sorted[0]) {
      assert sorted == [sorted[0]] + sorted[1..];
      InsertSorts(item, sorted[1..], less);
      var rest := Insert(item, sorted[1..], less);
      forall k | 0 <= k < |rest| ensures less(sorted[0], rest[k]) {
        assert rest[k] in rest;
      }
    }
  }

  lemma {:induction false} SortSorts<T(!new)>(items: seq<T>, less: (T, T) -> bool)
    requires StrictOrder(less) && NoRepeats(items)
    ensures Ordered(Sort(items, less), less) && forall x :: x in Sort(items, less) <==> x in items
  {
    if items != [] {
      assert items == [items[0]] + items[1..];
      SortSorts(items[1..], less);
      InsertSorts(items[0], Sort(items[1..], less), less);
    }
  }

  lemma {:induction false} OrdersAreStrict()
    ensures StrictOrder(Less) && StrictOrder(Precedes)
  {
    forall a, b, c ensures (Less(a, b) || a == b || Less(b, a)) && (Less(a, b) && Less(b, c) ==> Less(a, c)) {
      LessTotal(a, b);
      LessTransitive(a, b, c);
    }
    forall e, f, g
      ensures Precedes(e, f) || e == f || Precedes(f, e)
      ensures Precedes(e, f) && Precedes(f, g) ==> Precedes(e, g) {
      PrecedesTotal(e, f);
      PrecedesTransitive(e, f, g);
    }
  }

  lemma {:induction false} LaterTargets(ids: seq<string>, i: nat, target: string)
    requires Ordered(ids, Less) && i < |ids|
    ensures Less(ids[i], target) && target in ids <==> target in ids[i + 1..]
  {
    LessTotal(ids[i], target);
    LessTotal(target, target);
    if target in ids && Less(ids[i], target) {
      var k :| 0 <= k < |ids| && ids[k] == target;
      LessTotal(ids[k], ids[i]);
      assert k > i;
      assert ids[i + 1..][k - (i + 1)] == target;
    }
  }

  ghost function Candidates(tokens: map<string, seq<string>>): iset<Edge> { iset e | IsCandidate(tokens, e) }

  /** With `i` sources done and the current one compared with the ids before position `k`. */
  ghost predicate FoundSo(wanted: iset<Edge>, ids: seq<string>, candidates: seq<Edge>, i: nat, k: nat)
    requires i < |ids| && i < k <= |ids|
  {
    forall e :: e in candidates <==>
      e in wanted && (e.source in ids[..i] || (e.source == ids[i] && e.target in ids[i + 1..k]))
  }

  ghost predicate FoundAll(wanted: iset<Edge>, ids: seq<string>, candidates: seq<Edge>, i: nat)
    requires i <= |ids|
  {
    forall e :: e in candidates <==> e in wanted && e.source in ids[..i]
  }

  lemma {:induction false} FirstTarget(wanted: iset<Edge>, ids: seq<string>, candidates: seq<Edge>, i: nat)
    requires i < |ids| && FoundAll(wanted, ids, candidates, i)
    ensures FoundSo(wanted, ids, candidates, i, i + 1)
  {
  }

  lemma {:induction false} NextTarget(
    wanted: iset<Edge>, ids: seq<string>, candidates: seq<Edge>, i: nat, k: nat, e: Edge)
    requires NoRepeats(ids) && i < k < |ids| && FoundSo(wanted, ids, candidates, i, k)
    requires e.source == ids[i] && e.target == ids[k]
    requires forall f :: f in wanted && f.source == e.source && f.target == e.target ==> f == e
    ensures e !in candidates
    ensures FoundSo(wanted, ids, if e in wanted then candidates + [e] else candidates, i, k + 1)
  {
  }

  lemma {:induction false} LastTarget(wanted: iset<Edge>, ids: seq<string>, candidates: seq<Edge>, i: nat)
    requires i < |ids| && FoundSo(wanted, ids, candidates, i, |ids|)
    requires forall e :: e in wanted && e.source == ids[i] ==> e.target in ids[i + 1..]
    ensures FoundAll(wanted, ids, candidates, i + 1)
  {
  }

  lemma {:induction false} TargetsFollow(tokens: map<string, seq<string>>, ids: seq<string>, i: nat)
    requires Ordered(ids, Less) && (forall v :: v in ids <==> v in tokens) && i < |ids|
    ensures forall e :: e in Candidates(tokens) && e.source == ids[i] ==> e.target in ids[i + 1..]
  {
    forall e | e in Candidates(tokens) && e.source == ids[i] ensures e.target in ids[i + 1..] {
      LaterTargets(ids, i, e.target);
    }
  }

  lemma {:induction false} PairCandidate(tokens: map<string, seq<string>>, e: Edge)
    requires e.source in tokens && e.target in tokens && Less(e.source, e.target)
    requires e.weight == |Shared(tokens[e.source], tokens[e.target])|
    ensures e in Candidates(tokens) <==> Similar(tokens[e.source], tokens[e.target])
    ensures forall f :: f in Candidates(tokens) && f.source == e.source && f.target == e.target ==> f == e
  {
  }

  lemma {:induction false} OrderedNoRepeats(ids: seq<string>)
    requires Ordered(ids, Less)
    ensures NoRepeats(ids)
  {
    forall i, k | 0 <= i < k < |ids| ensures ids[i] != ids[k] { LessTotal(ids[k], ids[k]); }
  }

  /** The inner loop: one source against every later id. */
  method CompareWithLater(
    ids: seq<string>, tokens: map<string, seq<string>>, i: nat, before: seq<Edge>)
    returns (candidates: seq<Edge>)
    requires Ordered(ids, Less) && NoRepeats(ids) && (forall v :: v in ids ==> v in tokens) && i < |ids|
    requires NoRepeats(before) && FoundAll(Candidates(tokens), ids, before, i)
    ensures NoRepeats(candidates) && FoundSo(Candidates(tokens), ids, candidates, i, |ids|)
  {
    ghost var wanted := Candidates(tokens);
    var left := ids[i];
    candidates := before;
    FirstTarget(wanted, ids, candidates, i);
    for k := i + 1 to |ids|
      invariant NoRepeats(candidates) && FoundSo(wanted, ids, candidates, i, k)
    {
      var right := ids[k];
      var shared := Shared(tokens[left], tokens[right]);
      PairCandidate(tokens, Edge(left, right, |shared|));
      NextTarget(wanted, ids, candidates, i, k, Edge(left, right, |shared|));
      if Similar(tokens[left], tokens[right]) {
        candidates := candidates + [Edge(left, right, |shared|)];
      }
    }
  }

  method FindCandidates(ids: seq<string>, tokens: map<string, seq<string>>) returns (candidates: seq<Edge>)
    requires Ordered(ids, Less) && forall v :: v in ids <==> v in tokens
    ensures NoRepeats(candidates) && FoundAll(Candidates(tokens), ids, candidates, |ids|)
  {
    OrderedNoRepeats(ids);
    candidates := [];
    for i := 0 to |ids|
      invariant NoRepeats(candidates) && FoundAll(Candidates(tokens), ids, candidates, i)
    {
      candidates := CompareWithLater(ids, tokens, i, candidates);
      TargetsFollow(tokens, ids, i);
      LastTarget(Candidates(tokens), ids, candidates, i);
    }
  }

  function Count(degree: map<string, nat>, v: string): nat { if v in degree then degree[v] else 0 }

  ghost predicate Counts(degree: map<string, nat>, edges: seq<Edge>) {
    forall v :: Count(degree, v) == Degree(edges, v)
  }

  function CountIn(degree: map<string, nat>, v: string): map<string, nat> { degree[v := Count(degree, v) + 1] }

  lemma {:induction false} CountBoth(degree: map<string, nat>, edges: seq<Edge>, e: Edge)
    requires Counts(degree, edges)
    ensures Counts(CountIn(CountIn(degree, e.source), e.target), edges + [e])
  {
  }

  lemma {:induction false} PickNext(ranked: seq<Edge>, n: nat, edges: seq<Edge>, degree: map<string, nat>)
    requires n < |ranked| && edges == Greedy(ranked[..n]) && Counts(degree, edges)
    ensures var e := ranked[n];
      && Greedy(ranked[..n + 1]) == Pick(edges, e)
      && (Saturated(edges, e) <==> Count(degree, e.source) >= MAX_PER_NODE || Count(degree, e.target) >= MAX_PER_NODE)
  {
    GreedySnoc(ranked[..n], ranked[n]);
    assert ranked[..n] + [ranked[n]] == ranked[..n + 1];
  }

  method SelectEdges(ranked: seq<Edge>) returns (edges: seq<Edge>)
    ensures edges == Greedy(ranked)
  {
    var degree: map<string, nat> := map[];
    edges := [];
    for n := 0 to |ranked|
      invariant edges == Greedy(ranked[..n]) && Counts(degree, edges)
    {
      var e := ranked[n];
      PickNext(ranked, n, edges, degree);
      if |edges| >= MAX_TOTAL {
        GreedyFull(ranked[..n], ranked[n..]);
        assert ranked[..n] + ranked[n..] == ranked;
        return;
      }
      if Count(degree, e.source) >= MAX_PER_NODE || Count(degree, e.target) >= MAX_PER_NODE { continue; }
      CountBoth(degree, edges, e);
      degree := CountIn(degree, e.source);
      degree := CountIn(degree, e.target);
      edges := edges + [e];
    }
    assert ranked[..|ranked|] == ranked;
  }

  /** `keys` lists the dictionary's keys in whatever order it holds them. */
  method ComputeSimilarEdges(keys: seq<string>, tokens: map<string, seq<string>>) returns (edges: seq<Edge>)
    requires NoRepeats(keys) && forall v :: v in keys <==> v in tokens
    ensures exists ranked :: IsRanking(tokens, ranked) && edges == Greedy(ranked)
  {
    OrdersAreStrict();
    SortSorts(keys, Less);
    var ids := Sort(keys, Less);
    var candidates := FindCandidates(ids, tokens);
    SortSorts(candidates, Precedes);
    var ranked := Sort(candidates, Precedes);
    assert ids[..|ids|] == ids;
    RankingOf(tokens, ids, candidates, ranked);
    edges := SelectEdges(ranked);
  }

  lemma {:induction false} RankingOf(
    tokens: map<string, seq<string>>, ids: seq<string>, candidates: seq<Edge>, ranked: seq<Edge>)
    requires forall v :: v in ids <==> v in tokens
    requires FoundAll(Candidates(tokens), ids, candidates, |ids|)
    requires Ordered(ranked, Precedes) && forall e :: e in ranked <==> e in candidates
    ensures IsRanking(tokens, ranked)
  {
  }
}
