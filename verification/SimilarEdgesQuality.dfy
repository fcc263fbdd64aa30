/** How good the greedy pick is: its caps, its maximality, and half the weight of any other choice. */
module SimilarEdgesQuality {
  import opened SimilarEdges

  function Weight(edges: seq<Edge>): nat {
    if edges == [] then 0 else Weight(edges[..|edges| - 1]) + edges[|edges| - 1].weight
  }

  /** Another choice of edges: those of `ranked` that are in `chosen`. */
  function Only(ranked: seq<Edge>, chosen: set<Edge>): seq<Edge> {
    if ranked == [] then []
    else
      var n := |ranked| - 1;
      if ranked[n] in chosen then Only(ranked[..n], chosen) + [ranked[n]] else Only(ranked[..n], chosen)
  }

  ghost predicate DegreeCapped(edges: seq<Edge>) {
    forall v :: Degree(edges, v) <= MAX_PER_NODE
  }

  // ---- Caps and maximality ---------------------------------------------------------------------------

  /** No node exceeds its degree cap, and the total cap holds. */
  lemma {:induction false} GreedyIsCapped(ranked: seq<Edge>)
    requires forall e :: e in ranked ==> e.source != e.target
    ensures DegreeCapped(Greedy(ranked)) && |Greedy(ranked)| <= MAX_TOTAL
  {
    if ranked != [] {
      var n := |ranked| - 1;
      GreedyIsCapped(ranked[..n]);
      forall v ensures Degree(Greedy(ranked), v) <= MAX_PER_NODE {
        DegreeSnoc(Greedy(ranked[..n]), ranked[n], v);
        assert ranked[n] in ranked;
      }
    }
  }

  /** In particular for the edges of any payload. */
  lemma {:induction false} EdgesAreCapped(tokens: map<string, seq<string>>, ranked: seq<Edge>)
    requires IsRanking(tokens, ranked)
    ensures (forall v :: Degree(Greedy(ranked), v) <= 4) && |Greedy(ranked)| <= 200
  {
    forall e | e in ranked ensures e.source != e.target { LessTotal(e.source, e.source); }
    GreedyIsCapped(ranked);
  }

  lemma {:induction false} DegreeGrows(edges: seq<Edge>, more: seq<Edge>, v: string)
    ensures Degree(edges + more, v) == Degree(edges, v) + Degree(more, v)
    decreases |more|
  {
    if more == [] {
      assert edges + more == edges;
    } else {
      var n := |more| - 1;
      DegreeGrows(edges, more[..n], v);
      DegreeSnoc(edges + more[..n], more[n], v);
      assert edges + more == edges + more[..n] + [more[n]];
    }
  }

  /** The picks after `n` candidates are a prefix of the picks after `m`. */
  lemma {:induction false} GreedyGrows(ranked: seq<Edge>, n: nat, m: nat)
    requires n <= m <= |ranked|
    ensures Greedy(ranked[..n]) <= Greedy(ranked[..m])
    decreases m
  {
    if n < m {
      GreedyGrows(ranked, n, m - 1);
      assert ranked[..m][..m - 1] == ranked[..m - 1];
    }
  }

  /** The edge is picked, or an endpoint is already full. */
  ghost predicate Covered(edges: seq<Edge>, e: Edge) {
    e in edges || Saturated(edges, e)
  }

  lemma {:induction false} CoveredGrows(edges: seq<Edge>, more: seq<Edge>, e: Edge)
    requires Covered(edges, e) && edges <= more
    ensures Covered(more, e)
  {
    assert more == edges + more[|edges|..];
    DegreeGrows(edges, more[|edges|..], e.source);
    DegreeGrows(edges, more[|edges|..], e.target);
  }

  /** Every candidate considered before the total cap is hit is picked, or one of its endpoints is saturated by
      edges picked before it, none of them lighter. */
  lemma {:induction false} RejectedIsSaturated(ranked: seq<Edge>, i: nat)
    requires Ranked(ranked) && i < |ranked| && |Greedy(ranked[..i])| < 200
    ensures ranked[i] in Greedy(ranked)
            || Degree(Greedy(ranked[..i]), ranked[i].source) >= 4 || Degree(Greedy(ranked[..i]), ranked[i].target) >= 4
    ensures forall e :: e in Greedy(ranked[..i]) ==> e in ranked[..i] && e.weight >= ranked[i].weight
  {
    GreedyStep(ranked, i);
    StillPicked(Greedy(ranked[..i]), ranked[i], Greedy(ranked));
    GreedyPicksCandidates(ranked[..i]);
    EarlierAreHeavier(ranked, i);
  }

  lemma {:induction false} GreedyStep(ranked: seq<Edge>, i: nat)
    requires i < |ranked|
    ensures Pick(Greedy(ranked[..i]), ranked[i]) <= Greedy(ranked)
  {
    GreedySnoc(ranked[..i], ranked[i]);
    assert ranked[..i] + [ranked[i]] == ranked[..i + 1];
    GreedyGrows(ranked, i + 1, |ranked|);
    assert ranked[..|ranked|] == ranked;
  }

  lemma {:induction false} StillPicked(edges: seq<Edge>, e: Edge, all: seq<Edge>)
    requires |edges| < MAX_TOTAL && Pick(edges, e) <= all
    ensures e in all || Saturated(edges, e)
  {
    if !Saturated(edges, e) { PrefixMember(edges + [e], all, |edges|); }
  }

  lemma {:induction false} PrefixMember(edges: seq<Edge>, more: seq<Edge>, k: nat)
    requires edges <= more && k < |edges|
    ensures edges[k] in more
  {
  }

  lemma {:induction false} EarlierAreHeavier(ranked: seq<Edge>, i: nat)
    requires Ranked(ranked) && i < |ranked|
    ensures forall e :: e in ranked[..i] ==> e.weight >= ranked[i].weight
  {
  }

  lemma {:induction false} GreedyPicksCandidates(ranked: seq<Edge>)
    ensures forall e :: e in Greedy(ranked) ==> e in ranked
  {
    if ranked != [] {
      var n := |ranked| - 1;
      GreedyPicksCandidates(ranked[..n]);
      assert ranked == ranked[..n] + [ranked[n]];
    }
  }

  lemma {:induction false} AllCovered(ranked: seq<Edge>)
    requires |Greedy(ranked)| < MAX_TOTAL
    ensures forall e :: e in ranked ==> Covered(Greedy(ranked), e)
  {
    if ranked != [] {
      var n := |ranked| - 1;
      var before, now := Greedy(ranked[..n]), Greedy(ranked);
      AllCovered(ranked[..n]);
      assert before <= now;
      forall e | e in ranked ensures Covered(now, e) {
        assert ranked == ranked[..n] + [ranked[n]];
        if e in ranked[..n] {
          CoveredGrows(before, now, e);
        } else if !Saturated(before, e) {
          assert now[|before|] == e;
        } else {
          CoveredGrows(before, now, e);
        }
      }
    }
  }

  // ---- Charging every edge of another choice to a node ----------------------------------------------

  /** A full endpoint, if there is one; otherwise the source. */
  function Charge(picked: seq<Edge>, e: Edge): string {
    if Degree(picked, e.source) >= MAX_PER_NODE then e.source
    else if Degree(picked, e.target) >= MAX_PER_NODE then e.target
    else e.source
  }

  function ChargesAt(other: seq<Edge>, picked: seq<Edge>, v: string): nat {
    if other == [] then 0
    else ChargesAt(other[..|other| - 1], picked, v) + if Charge(picked, other[|other| - 1]) == v then 1 else 0
  }

  function ChargesIn(other: seq<Edge>, picked: seq<Edge>, nodes: set<string>): nat {
    if other == [] then 0
    else ChargesIn(other[..|other| - 1], picked, nodes) + if Charge(picked, other[|other| - 1]) in nodes then 1 else 0
  }

  /** How many endpoints of the edges lie in `nodes`. */
  function EndsIn(edges: seq<Edge>, nodes: set<string>): nat {
    if edges == [] then 0
    else
      var e := edges[|edges| - 1];
      EndsIn(edges[..|edges| - 1], nodes) + (if e.source in nodes then 1 else 0) + (if e.target in nodes then 1 else 0)
  }

  lemma {:induction false} EndsAtMostTwice(edges: seq<Edge>, nodes: set<string>)
    ensures EndsIn(edges, nodes) <= 2 * |edges|
  {
    if edges != [] { EndsAtMostTwice(edges[..|edges| - 1], nodes); }
  }

  lemma {:induction false} EndsWithout(edges: seq<Edge>, nodes: set<string>, v: string)
    requires v in nodes
    ensures EndsIn(edges, nodes) == EndsIn(edges, nodes - {v}) + Degree(edges, v)
  {
    if edges != [] { EndsWithout(edges[..|edges| - 1], nodes, v); }
  }

  lemma {:induction false} ChargesWithout(other: seq<Edge>, picked: seq<Edge>, nodes: set<string>, v: string)
    requires v in nodes
    ensures ChargesIn(other, picked, nodes) == ChargesIn(other, picked, nodes - {v}) + ChargesAt(other, picked, v)
  {
    if other != [] { ChargesWithout(other[..|other| - 1], picked, nodes, v); }
  }

  lemma {:induction false} NoCharges(other: seq<Edge>, picked: seq<Edge>)
    ensures ChargesIn(other, picked, {}) == 0
  {
    if other != [] { NoCharges(other[..|other| - 1], picked); }
  }

  lemma {:induction false} Inhabited(nodes: set<string>)
    ensures nodes == {} || exists v :: v in nodes
  {
  }

  lemma {:induction false} ChargesFit(other: seq<Edge>, picked: seq<Edge>, nodes: set<string>)
    requires forall v :: ChargesAt(other, picked, v) <= Degree(picked, v)
    ensures ChargesIn(other, picked, nodes) <= EndsIn(picked, nodes)
    decreases nodes
  {
    Inhabited(nodes);
    if nodes == {} {
      NoCharges(other, picked);
    } else {
      var v :| v in nodes;
      ChargesFit(other, picked, nodes - {v});
      ChargesWithout(other, picked, nodes, v);
      EndsWithout(picked, nodes, v);
    }
  }

  function Sources(edges: seq<Edge>): set<string> {
    (set e | e in edges :: e.source) + (set e | e in edges :: e.target)
  }

  lemma {:induction false} AllCharged(other: seq<Edge>, picked: seq<Edge>, nodes: set<string>)
    requires forall e :: e in other ==> e.source in nodes && e.target in nodes
    ensures ChargesIn(other, picked, nodes) == |other|
  {
    if other != [] {
      var n := |other| - 1;
      assert other[n] in other;
      assert forall e :: e in other[..n] ==> e in other;
      AllCharged(other[..n], picked, nodes);
    }
  }

  /** If each node is charged at most its degree, the other choice has at most twice as many edges. */
  lemma {:induction false} AtMostTwiceAsMany(other: seq<Edge>, picked: seq<Edge>)
    requires forall v :: ChargesAt(other, picked, v) <= Degree(picked, v)
    ensures |other| <= 2 * |picked|
  {
    AllCharged(other, picked, Sources(other));
    ChargesFit(other, picked, Sources(other));
    EndsAtMostTwice(picked, Sources(other));
  }

  // ---- No node is charged more than its degree ---------------------------------------------------------

  lemma {:induction false} ChargedTouches(other: seq<Edge>, picked: seq<Edge>, v: string)
    ensures ChargesAt(other, picked, v) <= Degree(other, v)
  {
    if other != [] { ChargedTouches(other[..|other| - 1], picked, v); }
  }

  /** How many of the edges start at `v`. */
  function StartsAt(edges: seq<Edge>, v: string): nat {
    if edges == [] then 0 else StartsAt(edges[..|edges| - 1], v) + if edges[|edges| - 1].source == v then 1 else 0
  }

  lemma {:induction false} StartsTouch(edges: seq<Edge>, v: string)
    ensures StartsAt(edges, v) <= Degree(edges, v)
  {
    if edges != [] { StartsTouch(edges[..|edges| - 1], v); }
  }

  lemma {:induction false} OnlyMembers(ranked: seq<Edge>, chosen: set<Edge>)
    ensures forall e :: e in Only(ranked, chosen) <==> e in ranked && e in chosen
  {
    if ranked != [] {
      var n := |ranked| - 1;
      OnlyMembers(ranked[..n], chosen);
      assert ranked == ranked[..n] + [ranked[n]];
    }
  }

  lemma {:induction false} OneCharge(picked: seq<Edge>, kept: set<Edge>, e: Edge, v: string)
    requires Covered(picked, e) && (e in picked ==> e in kept) && Degree(picked, v) < MAX_PER_NODE
    ensures Charge(picked, e) == v ==> e.source == v && e in kept
  {
  }

  lemma {:induction false} OneMoreCharge(
    other: seq<Edge>, own: seq<Edge>, e: Edge, picked: seq<Edge>, kept: set<Edge>, v: string)
    requires ChargesAt(other, picked, v) <= StartsAt(own, v)
    requires Covered(picked, e) && (e in picked ==> e in kept) && Degree(picked, v) < MAX_PER_NODE
    ensures ChargesAt(other, picked, v) <= ChargesAt(other + [e], picked, v)
    ensures e in kept ==> ChargesAt(other + [e], picked, v) <= StartsAt(own + [e], v)
    ensures e in kept ==> ChargesAt(other, picked, v) <= StartsAt(own + [e], v)
    ensures e !in kept ==> ChargesAt(other + [e], picked, v) <= StartsAt(own, v)
  {
    ChargesSnoc(other, e, picked, v);
    StartsSnoc(own, e, v);
    OneCharge(picked, kept, e, v);
  }

  /** Members of the picks that start at a node which is not full are charged to it, and only they. */
  lemma {:induction false} UnsaturatedCharges(
    ranked: seq<Edge>, chosen: set<Edge>, picked: seq<Edge>, kept: set<Edge>, v: string)
    requires forall e :: e in ranked ==> Covered(picked, e)
    requires forall e :: e in picked ==> e in kept
    requires Degree(picked, v) < MAX_PER_NODE
    ensures ChargesAt(Only(ranked, chosen), picked, v) <= StartsAt(Only(ranked, kept), v)
  {
    if ranked != [] {
      var n := |ranked| - 1;
      assert ranked[n] in ranked;
      assert forall e :: e in ranked[..n] ==> e in ranked;
      UnsaturatedCharges(ranked[..n], chosen, picked, kept, v);
      OneMoreCharge(Only(ranked[..n], chosen), Only(ranked[..n], kept), ranked[n], picked, kept, v);
    }
  }

  lemma {:induction false} ChargesSnoc(other: seq<Edge>, e: Edge, picked: seq<Edge>, v: string)
    ensures ChargesAt(other + [e], picked, v) == ChargesAt(other, picked, v) + if Charge(picked, e) == v then 1 else 0
  {
  }

  lemma {:induction false} StartsSnoc(edges: seq<Edge>, e: Edge, v: string)
    ensures StartsAt(edges + [e], v) == StartsAt(edges, v) + if e.source == v then 1 else 0
  {
  }

  lemma {:induction false} OnlyIgnores(ranked: seq<Edge>, chosen: set<Edge>, e: Edge)
    requires e !in ranked
    ensures Only(ranked, chosen + {e}) == Only(ranked, chosen)
  {
    if ranked != [] {
      var n := |ranked| - 1;
      assert ranked[n] in ranked && forall f :: f in ranked[..n] ==> f in ranked;
      OnlyIgnores(ranked[..n], chosen, e);
    }
  }

  ghost function Members(edges: seq<Edge>): set<Edge> { set e | e in edges }

  /** The picks are those candidates that are picks, in ranking order. */
  lemma {:induction false} GreedyIsOnly(ranked: seq<Edge>)
    requires Ranked(ranked)
    ensures Only(ranked, Members(Greedy(ranked))) == Greedy(ranked)
  {
    if ranked != [] {
      var n := |ranked| - 1;
      var before, e := Greedy(ranked[..n]), ranked[n];
      GreedyIsOnly(ranked[..n]);
      GreedyPicksCandidates(ranked[..n]);
      NotEarlier(ranked, n);
      if Greedy(ranked) == before {
        assert e !in before;
      } else {
        assert Members(before + [e]) == Members(before) + {e};
        OnlyIgnores(ranked[..n], Members(before), e);
      }
    }
  }

  lemma {:induction false} NotEarlier(ranked: seq<Edge>, n: nat)
    requires Ranked(ranked) && n < |ranked|
    ensures ranked[n] !in ranked[..n]
  {
    PrecedesTotal(ranked[n], ranked[n]);
  }

  /** While the total cap is not reached, the greedy pick has at least half as many edges as any other
      degree-capped choice of the same candidates. */
  lemma {:induction false} HalfAsMany(ranked: seq<Edge>, chosen: set<Edge>)
    requires Ranked(ranked) && DegreeCapped(Only(ranked, chosen)) && |Greedy(ranked)| < MAX_TOTAL
    ensures |Only(ranked, chosen)| <= 2 * |Greedy(ranked)|
  {
    var other, picked := Only(ranked, chosen), Greedy(ranked);
    AllCovered(ranked);
    GreedyIsOnly(ranked);
    forall v ensures ChargesAt(other, picked, v) <= Degree(picked, v) {
      if Degree(picked, v) >= MAX_PER_NODE {
        ChargedTouches(other, picked, v);
      } else {
        UnsaturatedCharges(ranked, chosen, picked, Members(picked), v);
        StartsTouch(picked, v);
      }
    }
    AtMostTwiceAsMany(other, picked);
  }

  // ---- From counts to weights ----------------------------------------------------------------------------

  lemma {:induction false} OnlyGrows(ranked: seq<Edge>, chosen: set<Edge>, n: nat)
    requires n <= |ranked|
    ensures Only(ranked[..n], chosen) <= Only(ranked, chosen)
    decreases |ranked|
  {
    if n < |ranked| {
      OnlyGrows(ranked[..|ranked| - 1], chosen, n);
      assert ranked[..|ranked| - 1][..n] == ranked[..n];
    } else {
      assert ranked[..n] == ranked;
    }
  }

  /** Another choice may be compared with the greedy one: it respects the degree cap, and the total cap if the
      greedy choice has reached it. */
  ghost predicate Comparable(ranked: seq<Edge>, chosen: set<Edge>) {
    DegreeCapped(Only(ranked, chosen)) && (|Greedy(ranked)| < MAX_TOTAL || |Only(ranked, chosen)| <= MAX_TOTAL)
  }

  lemma {:induction false} ComparablePrefix(ranked: seq<Edge>, chosen: set<Edge>)
    requires Comparable(ranked, chosen) && ranked != []
    ensures Comparable(ranked[..|ranked| - 1], chosen)
  {
    var n := |ranked| - 1;
    var fewer, all := Only(ranked[..n], chosen), Only(ranked, chosen);
    OnlyGrows(ranked, chosen, n);
    GreedyGrows(ranked, n, |ranked|);
    assert ranked[..|ranked|] == ranked;
    assert all == fewer + all[|fewer|..];
    forall v ensures Degree(fewer, v) <= MAX_PER_NODE { DegreeGrows(fewer, all[|fewer|..], v); }
  }

  lemma {:induction false} HalfAsManyAlways(ranked: seq<Edge>, chosen: set<Edge>)
    requires Ranked(ranked) && Comparable(ranked, chosen)
    ensures |Only(ranked, chosen)| <= 2 * |Greedy(ranked)|
  {
    if |Greedy(ranked)| < MAX_TOTAL { HalfAsMany(ranked, chosen); }
  }

  lemma {:induction false} WeightSnoc(edges: seq<Edge>, e: Edge)
    ensures Weight(edges + [e]) == Weight(edges) + e.weight
  {
  }

  lemma {:induction false} RankedPrefix(ranked: seq<Edge>, w: nat)
    requires Ranked(ranked) && ranked != [] && ranked[|ranked| - 1].weight >= w
    ensures Ranked(ranked[..|ranked| - 1])
    ensures |ranked| > 1 ==> ranked[|ranked| - 2].weight >= ranked[|ranked| - 1].weight
  {
  }

  lemma {:induction false} GreedyGain(ranked: seq<Edge>) returns (taken: int)
    requires ranked != []
    ensures var n := |ranked| - 1;
      && |Greedy(ranked)| == |Greedy(ranked[..n])| + taken
      && Weight(Greedy(ranked)) == Weight(Greedy(ranked[..n])) + ranked[n].weight * taken
  {
    var n := |ranked| - 1;
    WeightSnoc(Greedy(ranked[..n]), ranked[n]);
    taken := if Greedy(ranked) == Greedy(ranked[..n]) then 0 else 1;
  }

  lemma {:induction false} OnlyGain(ranked: seq<Edge>, chosen: set<Edge>) returns (taken: int)
    requires ranked != []
    ensures var n := |ranked| - 1;
      && |Only(ranked, chosen)| == |Only(ranked[..n], chosen)| + taken
      && Weight(Only(ranked, chosen)) == Weight(Only(ranked[..n], chosen)) + ranked[n].weight * taken
  {
    var n := |ranked| - 1;
    WeightSnoc(Only(ranked[..n], chosen), ranked[n]);
    taken := if ranked[n] in chosen then 1 else 0;
  }

  /** How far twice the greedy choice is ahead of the other, in edges and in weight. */
  function Lead(ranked: seq<Edge>, chosen: set<Edge>): int { 2 * |Greedy(ranked)| - |Only(ranked, chosen)| }

  function Surplus(ranked: seq<Edge>, chosen: set<Edge>): int {
    2 * Weight(Greedy(ranked)) - Weight(Only(ranked, chosen))
  }

  lemma {:induction false} Gain(ranked: seq<Edge>, chosen: set<Edge>) returns (gain: int)
    requires ranked != []
    ensures var n := |ranked| - 1;
      && Lead(ranked, chosen) == Lead(ranked[..n], chosen) + gain
      && Surplus(ranked, chosen) == Surplus(ranked[..n], chosen) + ranked[n].weight * gain
  {
    var n := |ranked| - 1;
    var mine := GreedyGain(ranked);
    var theirs := OnlyGain(ranked, chosen);
    gain := 2 * mine - theirs;
    SurplusGain(Weight(Greedy(ranked[..n])), Weight(Only(ranked[..n], chosen)), Weight(Greedy(ranked)),
                Weight(Only(ranked, chosen)), ranked[n].weight, mine, theirs);
  }

  lemma {:induction false} SurplusGain(a: int, b: int, c: int, d: int, w: int, mine: int, theirs: int)
    requires c == a + w * mine && d == b + w * theirs
    ensures 2 * c - d == (2 * a - b) + w * (2 * mine - theirs)
  {
    Distribute(w, mine, theirs);
  }

  lemma {:induction false} Distribute(w: int, mine: int, theirs: int)
    ensures w * (2 * mine - theirs) == 2 * (w * mine) - w * theirs
  {
  }

  /** A lead worth at least `heavier` each, and `gain` more of exactly that weight. */
  lemma {:induction false} Ahead(surplus: int, lead: int, heavier: nat, gain: int, w: nat)
    requires surplus >= heavier * lead && lead + gain >= 0 && w <= heavier
    ensures surplus + heavier * gain >= w * (lead + gain)
  {
  }

  /** Summation by parts: the heavier edges come first, and at no point has the other choice more than twice as
      many edges, so neither has it more than twice the weight. `w` is a lower bound of the weights so far. */
  lemma {:induction false} WeightsFollowCounts(ranked: seq<Edge>, chosen: set<Edge>, w: nat)
    requires Ranked(ranked) && Comparable(ranked, chosen)
    requires ranked != [] ==> ranked[|ranked| - 1].weight >= w
    ensures Surplus(ranked, chosen) >= w * Lead(ranked, chosen)
  {
    if ranked != [] {
      var n := |ranked| - 1;
      RankedPrefix(ranked, w);
      ComparablePrefix(ranked, chosen);
      WeightsFollowCounts(ranked[..n], chosen, ranked[n].weight);
      HalfAsManyAlways(ranked, chosen);
      var gain := Gain(ranked, chosen);
      Ahead(Surplus(ranked[..n], chosen), Lead(ranked[..n], chosen), ranked[n].weight, gain, w);
    }
  }

  /** The greedy edges weigh at least half as much as any degree-capped choice of candidates, where a choice need
      respect the total cap only if the greedy one has reached it. */
  lemma {:induction false} HalfTheWeight(tokens: map<string, seq<string>>, ranked: seq<Edge>, chosen: set<Edge>)
    requires IsRanking(tokens, ranked) && Comparable(ranked, chosen)
    ensures 2 * Weight(Greedy(ranked)) >= Weight(Only(ranked, chosen))
  {
    WeightsFollowCounts(ranked, chosen, 0);
  }
}
