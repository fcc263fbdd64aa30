/** Made-up call ids never clash, and calls and results that carry no id at all are paired in the order they come. */
module ToolPairingNames {
  import opened Messages
  import opened ToolPairing
  import opened ToolPairingValidity
  import opened ToolPairingAccounting

  // ---- Made-up ids ---------------------------------------------------------------------------------------

  ghost predicate Digits(s: string) {
    forall i :: 0 <= i < |s| ==> '0' <= s[i] <= '9'
  }

  lemma {:induction false} DecimalDigits(n: nat)
    ensures Digits(Decimal(n)) && (|Decimal(n)| == 1 <==> n < 10)
  {
    if n >= 10 { DecimalDigits(n / 10); }
  }

  lemma {:induction false} DigitsDiffer(a: nat, b: nat)
    requires a < 10 && b < 10 && "0123456789"[a] == "0123456789"[b]
    ensures a == b
  {
  }

  lemma {:induction false} DecimalLast(n: nat)
    ensures Decimal(n)[|Decimal(n)| - 1] == "0123456789"[n % 10]
    ensures n >= 10 ==> Decimal(n)[..|Decimal(n)| - 1] == Decimal(n / 10)
  {
  }

  lemma {:induction false} DecimalInjective(m: nat, n: nat)
    requires Decimal(m) == Decimal(n)
    ensures m == n
  {
    DecimalDigits(m);
    DecimalDigits(n);
    DecimalLast(m);
    DecimalLast(n);
    DigitsDiffer(m % 10, n % 10);
    if m >= 10 { DecimalInjective(m / 10, n / 10); }
  }

  /** Digits up to a separator determine both sides of it. */
  lemma {:induction false} SplitAtSeparator(a: string, b: string, c: string, d: string)
    requires Digits(a) && Digits(c) && a + "_" + b == c + "_" + d
    ensures a == c && b == d
  {
    var left, right := a + "_" + b, c + "_" + d;
    assert left[|a|] == '_' && right[|c|] == '_';
    assert (forall i :: 0 <= i < |a| ==> left[i] == a[i]) && (forall i :: 0 <= i < |c| ==> right[i] == c[i]);
    assert |a| <= |c| && |c| <= |a|;
    assert a == left[..|a|] && c == right[..|c|] && b == left[|a| + 1..] && d == right[|c| + 1..];
  }

  /** Two made-up ids are equal only for the same message and the same position. */
  lemma {:induction false} MissingIdsDiffer(i: nat, p: nat, j: nat, q: nat)
    requires MissingId(i, p) == MissingId(j, q)
    ensures i == j && p == q
  {
    var prefix := "call_missing_";
    var left, right := Decimal(i) + "_" + Decimal(p), Decimal(j) + "_" + Decimal(q);
    assert MissingId(i, p) == prefix + left && MissingId(j, q) == prefix + right;
    assert left == MissingId(i, p)[|prefix|..] && right == MissingId(j, q)[|prefix|..];
    DecimalDigits(i);
    DecimalDigits(j);
    SplitAtSeparator(Decimal(i), Decimal(p), Decimal(j), Decimal(q));
    DecimalInjective(i, j);
    DecimalInjective(p, q);
  }

  // ---- Results without ids ---------------------------------------------------------------------------------

  /** No call has an id, or all have different ones. */
  ghost predicate NoneOrAllNamed(calls: seq<Call>) {
    || (forall p :: 0 <= p < |calls| ==> calls[p].id == "")
    || ("" !in CallIds(calls) && Distinct(CallIds(calls)))
  }

  /** Nobody calls a tool. */
  ghost predicate Uncalled(messages: seq<Message>) {
    forall i :: 0 <= i < |messages| ==> messages[i].Spoken? && messages[i].turn.calls == []
  }

  /** Results without ids. */
  function Nameless(contents: seq<string>): seq<Message> {
    seq(|contents|, p requires 0 <= p < |contents| => Tool(Answer("", contents[p])))
  }

  /** The first results, under the first ids. */
  function Paired(ids: seq<string>, contents: seq<string>, n: nat): seq<Answer>
    requires n <= |ids| && n <= |contents|
  {
    seq(n, p requires 0 <= p < n => Answer(ids[p], contents[p]))
  }

  lemma {:induction false} NamedDistinct(turn: Turn, index: nat)
    requires NoneOrAllNamed(turn.calls)
    ensures Distinct(CallIds(Normalize(turn, index).calls)) && "" !in CallIds(Normalize(turn, index).calls)
  {
    var ids := CallIds(Normalize(turn, index).calls);
    if "" !in CallIds(turn.calls) && Distinct(CallIds(turn.calls)) {
      NormalizeIdentified(turn, index);
    } else {
      forall p, q | 0 <= p < q < |ids| ensures ids[p] != ids[q] {
        if ids[p] == ids[q] { MissingIdsDiffer(index, p, index, q); }
      }
    }
  }

  lemma {:induction false} OpenBehind(ids: seq<string>, covered: seq<string>, n: nat)
    requires Distinct(ids) && n <= |ids| && covered == ids[..n]
    ensures OpenSlots(ids, covered) == ids[n..]
  {
    OpenBehindFrom(ids, covered, n, 0);
    assert ids[0..] == ids;
  }

  lemma {:induction false} OpenBehindFrom(ids: seq<string>, covered: seq<string>, n: nat, k: nat)
    requires Distinct(ids) && k <= |ids| && n <= |ids| && covered == ids[..n]
    ensures OpenSlots(ids[k..], covered) == if k < n then ids[n..] else ids[k..]
    decreases |ids| - k
  {
    if k < |ids| {
      OpenBehindFrom(ids, covered, n, k + 1);
      if k < n { assert covered[k] == ids[k]; } else { BehindUncovered(ids, covered, n, k); }
      OpenFirst(ids[k], ids[k + 1..], covered);
      assert [ids[k]] + ids[k + 1..] == ids[k..];
    }
  }

  lemma {:induction false} BehindUncovered(ids: seq<string>, covered: seq<string>, n: nat, k: nat)
    requires Distinct(ids) && n <= k < |ids| && covered == ids[..n]
    ensures ids[k] !in covered
  {
  }

  lemma {:induction false} OpenFirst(id: string, rest: seq<string>, covered: seq<string>)
    ensures OpenSlots([id] + rest, covered) == (if id in covered then [] else [id]) + OpenSlots(rest, covered)
  {
    assert ([id] + rest)[1..] == rest;
  }

  /** The state after the turn and the first `n` results, behind the blocks of `front`. */
  function Answered(front: seq<Block>, head: Turn, contents: seq<string>, n: nat): State
    requires n <= |head.calls| && n <= |contents|
  {
    State(front + [Block(head, Paired(CallIds(head.calls), contents, n))], [])
  }

  lemma {:induction false} PairedCovers(ids: seq<string>, contents: seq<string>, n: nat)
    requires n <= |ids| && n <= |contents|
    ensures AnswerIds(Paired(ids, contents, n)) == ids[..n]
  {
  }

  lemma {:induction false} NextNameless(front: seq<Block>, head: Turn, contents: seq<string>, n: nat, index: nat)
    requires n < |head.calls| == |contents| && Distinct(CallIds(head.calls))
    ensures Step(Answered(front, head, contents, n), index, Tool(Answer("", contents[n])))
      == Answered(front, head, contents, n + 1)
  {
    var s, ids := Answered(front, head, contents, n), CallIds(head.calls);
    PairedCovers(ids, contents, n);
    OpenBehind(ids, s.blocks[|front|].Covered(), n);
    assert s.blocks[|front|].Slots() == ids[n..];
    assert LastOpen(s.blocks) == |front| && Bind(s.blocks, "") == Bound(|front|, ids[n]);
    assert Paired(ids, contents, n) + [Answer(ids[n], contents[n])] == Paired(ids, contents, n + 1);
  }

  /** The blocks of messages nobody answers. */
  function Alone(messages: seq<Message>): seq<Block>
    requires forall i :: 0 <= i < |messages| ==> messages[i].Spoken?
  {
    seq(|messages|, i requires 0 <= i < |messages| => Block(messages[i].turn, []))
  }

  lemma {:induction false} AloneNext(messages: seq<Message>, before: seq<Message>, turn: Turn)
    requires Uncalled(before) && turn.calls == [] && messages == before + [Spoken(turn)]
    requires Filled(Alone(before)) && Flatten(Alone(before)) == before
    ensures Alone(messages) == Alone(before) + [Block(turn, [])] && Normalize(turn, |before|) == turn
    ensures Filled(Alone(messages)) && Flatten(Alone(messages)) == messages
  {
    NormalizeIdentified(turn, |before|);
    assert Alone(messages) == Alone(before) + [Block(turn, [])];
    FlattenNewTurn(Alone(before), turn);
  }

  lemma {:induction false} ReadUncalled(messages: seq<Message>)
    requires Uncalled(messages)
    ensures MainPass(messages) == State(Alone(messages), []) && Filled(Alone(messages))
    ensures Flatten(Alone(messages)) == messages
  {
    if messages != [] {
      var n := |messages| - 1;
      ReadUncalled(messages[..n]);
      MainPassNext(messages[..n], messages[n]);
      assert messages == messages[..n] + [messages[n]];
      AloneNext(messages, messages[..n], messages[n].turn);
    }
  }

  lemma {:induction false} ReadHead(front: seq<Message>, turn: Turn, contents: seq<string>)
    requires Uncalled(front)
    ensures MainPass(front + [Spoken(turn)]) == Answered(Alone(front), Normalize(turn, |front|), contents, 0)
  {
    ReadUncalled(front);
    MainPassNext(front, Spoken(turn));
    assert Paired(CallIds(Normalize(turn, |front|).calls), contents, 0) == [];
  }

  lemma {:induction false} ReadNameless(front: seq<Message>, turn: Turn, contents: seq<string>, n: nat)
    requires Uncalled(front) && NoneOrAllNamed(turn.calls) && n <= |contents| == |turn.calls|
    ensures MainPass(front + [Spoken(turn)] + Nameless(contents[..n]))
      == Answered(Alone(front), Normalize(turn, |front|), contents, n)
  {
    var start := front + [Spoken(turn)];
    if n == 0 {
      assert start + Nameless(contents[..0]) == start;
      ReadHead(front, turn, contents);
    } else {
      var before, last := start + Nameless(contents[..n - 1]), Tool(Answer("", contents[n - 1]));
      assert start + Nameless(contents[..n]) == before + [last];
      ReadNameless(front, turn, contents, n - 1);
      NamedDistinct(turn, |front|);
      MainPassNext(before, last);
      NextNameless(Alone(front), Normalize(turn, |front|), contents, n - 1, |before|);
    }
  }

  /** The turn with an id of its own for each call - the one it had, if any -, and each result behind it under the id
      of its call. */
  ghost predicate PairedInOrder(turn: Turn, contents: seq<string>, lines: seq<Message>) {
    && |lines| == 1 + |contents| && lines[0].Spoken?
    && var named := lines[0].turn;
      && named.role == turn.role && named.content == turn.content && |named.calls| == |turn.calls| == |contents|
      && (forall p :: 0 <= p < |named.calls| ==> named.calls[p].id != "")
      && (forall p, q :: 0 <= p < q < |named.calls| ==> named.calls[p].id != named.calls[q].id)
      && (forall p :: 0 <= p < |named.calls| ==>
            named.calls[p] == turn.calls[p].(id := named.calls[p].id) && turn.calls[p].id in ["", named.calls[p].id])
      && (forall p :: 0 <= p < |contents| ==> lines[1 + p] == Tool(Answer(named.calls[p].id, contents[p])))
  }

  lemma {:induction false} PairedLines(turn: Turn, index: nat, contents: seq<string>)
    requires NoneOrAllNamed(turn.calls) && |contents| == |turn.calls|
    ensures var head := Normalize(turn, index);
      PairedInOrder(turn, contents, Block(head, Paired(CallIds(head.calls), contents, |contents|)).Lines())
  {
    var head := Normalize(turn, index);
    var ids := CallIds(head.calls);
    NamedDistinct(turn, index);
    forall p | 0 <= p < |ids| ensures head.calls[p].id == ids[p] != "" { assert ids[p] in ids; }
    forall p, q | 0 <= p < q < |ids| ensures head.calls[p].id != head.calls[q].id { assert ids[p] != ids[q]; }
  }

  lemma {:induction false} OneBlock(block: Block)
    ensures Flatten([block]) == block.Lines()
  {
    assert [block][1..] == [] && block.Lines() + [] == block.Lines();
  }

  /** Any number of calls, all without ids or all with different ones, followed by as many results without ids, are
      paired in the order they come. */
  lemma {:induction false} NamelessPairedInOrder(front: seq<Message>, turn: Turn, contents: seq<string>)
    requires Uncalled(front) && NoneOrAllNamed(turn.calls) && |contents| == |turn.calls|
    ensures var r := Repair(front + [Spoken(turn)] + Nameless(contents));
      r.Ok? && |r.value| >= |front| && r.value[..|front|] == front && PairedInOrder(turn, contents, r.value[|front|..])
  {
    var head, n := Normalize(turn, |front|), |contents|;
    var ids := CallIds(head.calls);
    var block := Block(head, Paired(ids, contents, n));
    assert contents[..n] == contents;
    ReadNameless(front, turn, contents, n);
    ReadUncalled(front);
    NamedDistinct(turn, |front|);
    PairedCovers(ids, contents, n);
    OpenBehind(ids, ids[..n], n);
    TrimFilled(Alone(front) + [block]);
    FlattenAppend(Alone(front), [block]);
    OneBlock(block);
    PairedLines(turn, |front|, contents);
  }

  // ---- Where a result is bound ---------------------------------------------------------------------------

  /** Call `p` of turn `k` is the first unanswered one of the last turn that has any. */
  ghost predicate NearestOpen(blocks: seq<Block>, k: nat, p: nat) {
    && k < |blocks| && p < |blocks[k].Ids()| && blocks[k].Ids()[p] !in blocks[k].Covered()
    && (forall q :: 0 <= q < p ==> blocks[k].Ids()[q] in blocks[k].Covered())
    && (forall j, x :: k < j < |blocks| && x in blocks[j].Ids() ==> x in blocks[j].Covered())
  }

  lemma {:induction false} FirstSlot(ids: seq<string>, covered: seq<string>) returns (p: nat)
    requires OpenSlots(ids, covered) != []
    ensures p < |ids| && ids[p] == OpenSlots(ids, covered)[0] && ids[p] !in covered
    ensures forall q :: 0 <= q < p ==> ids[q] in covered
  {
    if ids[0] !in covered {
      p := 0;
    } else {
      var rest := FirstSlot(ids[1..], covered);
      p := rest + 1;
      assert forall q :: 1 <= q < p ==> ids[q] == ids[1..][q - 1];
    }
  }

  /** The last turn naming the id is turn `k`, and it still waits for it. */
  ghost predicate NamedLast(blocks: seq<Block>, k: nat, id: string) {
    && id != "" && k < |blocks| && id in blocks[k].Ids() && id !in blocks[k].Covered()
    && forall j :: k < j < |blocks| ==> id !in blocks[j].Ids()
  }

  /** Where an arriving result goes, in terms of call ids and answers only: if the last turn naming its id still
      waits for it, to that call; otherwise to the first unanswered call of the last turn that has any; and it is
      buffered exactly if there is none. */
  lemma {:induction false} BoundTo(blocks: seq<Block>, id: string)
    ensures forall k: nat :: NamedLast(blocks, k, id) ==> Bind(blocks, id) == Bound(k, id)
    ensures match Bind(blocks, id)
      case Unbound => forall k, x :: 0 <= k < |blocks| && x in blocks[k].Ids() ==> x in blocks[k].Covered()
      case Bound(k, bound) =>
        || (NamedLast(blocks, k, id) && bound == id)
        || (exists p: nat :: NearestOpen(blocks, k, p) && blocks[k].Ids()[p] == bound)
  {
    var named, open := LastNaming(blocks, id), LastOpen(blocks);
    forall j, x | 0 <= j < |blocks| && j > open && x in blocks[j].Ids() ensures x in blocks[j].Covered() {
      InSlots(blocks[j].Ids(), blocks[j].Covered());
      assert x !in blocks[j].Slots();
    }
    if open >= 0 {
      var p := FirstSlot(blocks[open].Ids(), blocks[open].Covered());
      assert NearestOpen(blocks, open, p);
    }
  }

  /** A buffered result is folded into the last turn that still waits for its id, or stays buffered. */
  lemma {:induction false} FoldedInto(s: State, orphan: Orphan)
    ensures var id, t := orphan.answer.id, FoldStep(s, orphan);
      || ((id == "" || forall k :: 0 <= k < |s.blocks| ==> !s.blocks[k].Wants(id))
          && t == s.(orphans := s.orphans + [orphan]))
      || (exists k :: 0 <= k < |s.blocks| && id != "" && s.blocks[k].Wants(id)
            && (forall j :: k < j < |s.blocks| ==> !s.blocks[j].Wants(id))
            && t == s.(blocks := s.blocks[k := s.blocks[k].(answers := s.blocks[k].answers + [orphan.answer])]))
  {
  }

  // ---- What becomes of the turns -------------------------------------------------------------------------

  predicate Completed(call: Call, original: Call) {
    && call.name == original.name && call.arguments == original.arguments
    && call.id != "" && (original.id != "" ==> call.id == original.id)
  }

  /** Some of the calls in their order, with missing ids filled in. */
  predicate SomeOf(calls: seq<Call>, originals: seq<Call>) {
    if originals == [] then calls == []
    else (calls != [] && Completed(calls[0], originals[0]) && SomeOf(calls[1..], originals[1..]))
         || SomeOf(calls, originals[1..])
  }

  ghost predicate FilledTurn(named: Turn, turn: Turn) {
    && named.role == turn.role && named.content == turn.content && |named.calls| == |turn.calls|
    && forall p :: 0 <= p < |turn.calls| ==> Completed(named.calls[p], turn.calls[p])
  }

  lemma {:induction false} KeptAreSome(named: seq<Call>, originals: seq<Call>, ids: set<string>)
    requires |named| == |originals| && forall p :: 0 <= p < |named| ==> Completed(named[p], originals[p])
    ensures SomeOf(KeepCalls(named, ids), originals)
  {
    if named != [] {
      var rest := KeepCalls(named[1..], ids);
      KeptAreSome(named[1..], originals[1..], ids);
      assert KeepCalls(named, ids) == if named[0].id in ids then [named[0]] + rest else rest;
      assert ([named[0]] + rest)[1..] == rest;
    }
  }

  lemma {:induction false} NamedAreFilled(messages: seq<Message>)
    ensures |NamedTurns(messages)| == |Turns(messages)|
    ensures forall k :: 0 <= k < |Turns(messages)| ==> FilledTurn(NamedTurns(messages)[k], Turns(messages)[k])
  {
    if messages != [] {
      var n := |messages| - 1;
      NamedAreFilled(messages[..n]);
      TurnsConcat(messages[..n], [messages[n]]);
      assert messages == messages[..n] + [messages[n]] && [messages[n]][1..] == [];
      if messages[n].Spoken? { assert FilledTurn(Normalize(messages[n].turn, n), messages[n].turn); }
    }
  }

  /** On success the turns come back in order, each saying what it said, with some of its calls in their order:
      their names and arguments, and their ids where they had one. */
  lemma {:induction false} TurnsComeBack(messages: seq<Message>)
    requires Repair(messages).Ok?
    ensures var before, after := Turns(messages), Turns(Repair(messages).value);
      && |after| == |before|
      && forall k :: 0 <= k < |before| ==>
           after[k].role == before[k].role && after[k].content == before[k].content
           && SomeOf(after[k].calls, before[k].calls)
  {
    RepairConserves(messages);
    NamedAreFilled(messages);
    var before, after, named := Turns(messages), Turns(Repair(messages).value), NamedTurns(messages);
    forall k | 0 <= k < |before|
      ensures after[k].role == before[k].role && after[k].content == before[k].content
      ensures SomeOf(after[k].calls, before[k].calls) {
      assert FilledTurn(named[k], before[k]);
      KeptAreSome(named[k].calls, before[k].calls, AsSet(CallIds(after[k].calls)));
    }
  }
}
