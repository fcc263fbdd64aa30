/** Bookkeeping facts about the repair: nothing is lost, how many results are buffered, and exactly when
    and where it fails. */
module ToolPairingAccounting {
  import opened Messages
  import opened ToolPairing
  import opened ToolPairingValidity

  // ---- Conservation --------------------------------------------------------------------------

  function Turns(messages: seq<Message>): seq<Turn> {
    if messages == [] then []
    else (if messages[0].Spoken? then [messages[0].turn] else []) + Turns(messages[1..])
  }

  function Contents(messages: seq<Message>): multiset<string> {
    if messages == [] then multiset{}
    else (if messages[0].Tool? then multiset{messages[0].answer.content} else multiset{}) + Contents(messages[1..])
  }

  /** The turns of the input, each with its missing call ids filled in. */
  function NamedTurns(messages: seq<Message>): seq<Turn> {
    if messages == [] then []
    else
      var n := |messages| - 1;
      NamedTurns(messages[..n]) + if messages[n].Spoken? then [Normalize(messages[n].turn, n)] else []
  }

  function Heads(blocks: seq<Block>): seq<Turn> {
    seq(|blocks|, b requires 0 <= b < |blocks| => blocks[b].head)
  }

  function OrphanContents(orphans: seq<Orphan>): multiset<string> {
    if orphans == [] then multiset{}
    else OrphanContents(orphans[..|orphans| - 1]) + multiset{orphans[|orphans| - 1].answer.content}
  }

  lemma {:induction false} TurnsConcat(left: seq<Message>, right: seq<Message>)
    ensures Turns(left + right) == Turns(left) + Turns(right)
  {
    if left == [] {
      assert left + right == right;
    } else {
      assert (left + right)[0] == left[0] && (left + right)[1..] == left[1..] + right;
      TurnsConcat(left[1..], right);
      var first := if left[0].Spoken? then [left[0].turn] else [];
      assert first + (Turns(left[1..]) + Turns(right)) == first + Turns(left[1..]) + Turns(right);
    }
  }

  lemma {:induction false} ContentsConcat(left: seq<Message>, right: seq<Message>)
    ensures Contents(left + right) == Contents(left) + Contents(right)
  {
    if left == [] {
      assert left + right == right;
    } else {
      assert (left + right)[0] == left[0] && (left + right)[1..] == left[1..] + right;
      ContentsConcat(left[1..], right);
    }
  }

  lemma {:induction false} ContentsSnoc(messages: seq<Message>)
    requires messages != []
    ensures Contents(messages) == Contents(messages[..|messages| - 1]) + Contents([messages[|messages| - 1]])
  {
    ContentsConcat(messages[..|messages| - 1], [messages[|messages| - 1]]);
    assert messages == messages[..|messages| - 1] + [messages[|messages| - 1]];
  }

  lemma {:induction false} ToolsSayNothing(answers: seq<Answer>)
    ensures Turns(Tools(answers)) == []
    ensures |Contents(Tools(answers))| == |answers|
  {
    if answers != [] {
      assert Tools(answers)[1..] == Tools(answers[1..]);
      ToolsSayNothing(answers[1..]);
    }
  }

  lemma {:induction false} TurnsOfBlocks(blocks: seq<Block>)
    ensures Turns(Flatten(blocks)) == Heads(blocks)
  {
    if blocks != [] {
      var lines := blocks[0].Lines();
      TurnsConcat(lines, Flatten(blocks[1..]));
      assert lines[1..] == Tools(blocks[0].answers);
      ToolsSayNothing(blocks[0].answers);
      TurnsOfBlocks(blocks[1..]);
      assert Heads(blocks) == [blocks[0].head] + Heads(blocks[1..]);
    }
  }

  lemma {:induction false} SplitUpdate<T>(s: seq<T>, k: nat, x: T)
    requires k < |s|
    ensures s == s[..k + 1] + s[k + 1..]
    ensures s[k := x] == s[..k + 1][k := x] + s[k + 1..]
  {
  }

  lemma {:induction false} FlattenAttachBetween(front: seq<Block>, back: seq<Block>, answer: Answer)
    requires front != []
    ensures Flatten(front[|front| - 1 := front[|front| - 1].Attach(answer.id, answer.content)] + back)
         == Flatten(front) + [Tool(answer)] + Flatten(back)
  {
    FlattenAttachLast(front, answer);
    FlattenAppend(AttachTo(front, |front| - 1, answer.id, answer.content), back);
  }

  /** Attaching a result is a single insertion into the written-out list. */
  lemma {:induction false} FlattenAttach(blocks: seq<Block>, k: nat, id: string, content: string)
    requires k < |blocks|
    ensures Flatten(blocks) == Flatten(blocks[..k + 1]) + Flatten(blocks[k + 1..])
    ensures Flatten(AttachTo(blocks, k, id, content))
         == Flatten(blocks[..k + 1]) + [Tool(Answer(id, content))] + Flatten(blocks[k + 1..])
  {
    SplitUpdate(blocks, k, blocks[k].Attach(id, content));
    FlattenAppend(blocks[..k + 1], blocks[k + 1..]);
    FlattenAttachBetween(blocks[..k + 1], blocks[k + 1..], Answer(id, content));
  }

  lemma {:induction false} AttachContents(blocks: seq<Block>, k: nat, id: string, content: string)
    requires k < |blocks|
    ensures Contents(Flatten(AttachTo(blocks, k, id, content))) == Contents(Flatten(blocks)) + multiset{content}
  {
    var front, back := Flatten(blocks[..k + 1]), Flatten(blocks[k + 1..]);
    var tool := [Tool(Answer(id, content))];
    FlattenAttach(blocks, k, id, content);
    ContentsConcat(front, back);
    ContentsConcat(front + tool, back);
    ContentsConcat(front, tool);
    assert Contents(tool) == multiset{content};
  }

  /** Every tool result received so far is either in a block or buffered. */
  function Held(s: State): multiset<string> {
    Contents(Flatten(s.blocks)) + OrphanContents(s.orphans)
  }

  lemma {:induction false} HeldOrphan(s: State, orphan: Orphan)
    ensures Held(s.(orphans := s.orphans + [orphan])) == Held(s) + multiset{orphan.answer.content}
  {
  }

  lemma {:induction false} HeldStep(s: State, index: nat, message: Message)
    ensures Held(Step(s, index, message)) == Held(s) + Contents([message])
  {
    assert Contents([message]) == if message.Tool? then multiset{message.answer.content} else multiset{};
    match message
    case Spoken(turn) =>
      var named := Normalize(turn, index);
      FlattenNewTurn(s.blocks, named);
      ContentsConcat(Flatten(s.blocks), [Spoken(named)]);
      assert Contents([Spoken(named)]) == multiset{};
    case Tool(answer) =>
      match Bind(s.blocks, answer.id)
      case Unbound => HeldOrphan(s, Orphan(index, answer));
      case Bound(k, id) => AttachContents(s.blocks, k, id, answer.content);
  }

  lemma {:induction false} MainPassHolds(messages: seq<Message>)
    ensures Held(MainPass(messages)) == Contents(messages)
  {
    if messages != [] {
      var n := |messages| - 1;
      MainPassHolds(messages[..n]);
      HeldStep(MainPass(messages[..n]), n, messages[n]);
      ContentsSnoc(messages);
    }
  }

  lemma {:induction false} FoldStepHolds(s: State, last: Orphan)
    ensures Held(FoldStep(s, last)) == Held(s) + multiset{last.answer.content}
  {
    var k := if last.answer.id == "" then -1 else LastWanting(s.blocks, last.answer.id);
    if k < 0 {
      HeldOrphan(s, last);
    } else {
      AttachContents(s.blocks, k, last.answer.id, last.answer.content);
    }
  }

  lemma {:induction false} HeldWith(blocks: seq<Block>, rest: seq<Orphan>, last: Orphan)
    ensures Held(State(blocks, rest + [last])) == Held(State(blocks, rest)) + multiset{last.answer.content}
  {
    HeldOrphan(State(blocks, rest), last);
  }

  lemma {:induction false} FoldPassSnoc(blocks: seq<Block>, rest: seq<Orphan>, last: Orphan)
    ensures FoldPass(blocks, rest + [last]) == FoldStep(FoldPass(blocks, rest), last)
  {
    assert (rest + [last])[..|rest|] == rest;
  }

  lemma {:induction false} FoldPassHolds(blocks: seq<Block>, orphans: seq<Orphan>)
    ensures Held(FoldPass(blocks, orphans)) == Held(State(blocks, orphans))
  {
    if orphans != [] {
      var rest, last := orphans[..|orphans| - 1], orphans[|orphans| - 1];
      assert orphans == rest + [last];
      FoldPassHolds(blocks, rest);
      HeldWith(blocks, rest, last);
      FoldStepHolds(FoldPass(blocks, rest), last);
      FoldPassSnoc(blocks, rest, last);
    }
  }

  lemma {:induction false} MainPassHeads(messages: seq<Message>)
    ensures Heads(MainPass(messages).blocks) == NamedTurns(messages)
  {
    if messages != [] { MainPassHeads(messages[..|messages| - 1]); }
  }

  lemma {:induction false} FoldPassHeads(blocks: seq<Block>, orphans: seq<Orphan>)
    ensures Heads(FoldPass(blocks, orphans).blocks) == Heads(blocks)
  {
    if orphans != [] { FoldPassHeads(blocks, orphans[..|orphans| - 1]); }
  }

  lemma {:induction false} TrimConserves(blocks: seq<Block>)
    ensures Contents(Flatten(TrimAll(blocks))) == Contents(Flatten(blocks))
  {
    if blocks != [] {
      var trimmed := TrimAll(blocks);
      assert trimmed[1..] == TrimAll(blocks[1..]);
      TrimConserves(blocks[1..]);
      ContentsConcat(blocks[0].Lines(), Flatten(blocks[1..]));
      ContentsConcat(trimmed[0].Lines(), Flatten(trimmed[1..]));
      assert blocks[0].Lines()[1..] == Tools(blocks[0].answers) == trimmed[0].Lines()[1..];
    }
  }

  lemma {:induction false} LengthSplit(messages: seq<Message>)
    ensures |messages| == |Turns(messages)| + |Contents(messages)|
  {
    if messages != [] { LengthSplit(messages[1..]); }
  }

  lemma {:induction false} NamedTurnsCount(messages: seq<Message>)
    ensures |NamedTurns(messages)| == |Turns(messages)|
  {
    if messages != [] {
      var n := |messages| - 1;
      NamedTurnsCount(messages[..n]);
      assert messages == messages[..n] + [messages[n]];
      TurnsConcat(messages[..n], [messages[n]]);
    }
  }

  /** On success the tool results are a permutation of the input's with their content unchanged, and the
      turns are the input's in order, changed only by filled-in ids and by the removal of calls: a call
      stays exactly when its id does. */
  lemma {:induction false} RepairConserves(messages: seq<Message>)
    requires Repair(messages).Ok?
    ensures var repaired, named := Repair(messages).value, NamedTurns(messages);
      && |repaired| == |messages|
      && Contents(repaired) == Contents(messages)
      && |Turns(repaired)| == |named| == |Turns(messages)|
      && forall k :: 0 <= k < |named| ==>
           Turns(repaired)[k] == named[k].(calls := KeepCalls(named[k].calls, AsSet(CallIds(Turns(repaired)[k].calls))))
  {
    var main, s, repaired := MainPass(messages), Settle(messages), Repair(messages).value;
    MainPassHolds(messages);
    FoldPassHolds(main.blocks, main.orphans);
    MainPassHeads(messages);
    FoldPassHeads(main.blocks, main.orphans);
    TrimConserves(s.blocks);
    TurnsOfBlocks(TrimAll(s.blocks));
    LengthSplit(messages);
    LengthSplit(repaired);
    NamedTurnsCount(messages);
    SettleSound(messages);
    forall k | 0 <= k < |s.blocks|
      ensures Turns(repaired)[k] ==
        NamedTurns(messages)[k].(calls := KeepCalls(NamedTurns(messages)[k].calls,
                                                    AsSet(CallIds(Turns(repaired)[k].calls))))
    {
      assert Turns(repaired)[k] == s.blocks[k].Trim().head;
      assert Heads(s.blocks)[k] == s.blocks[k].head;
      KeptIds(s.blocks[k]);
    }
  }

  // ---- How many results are buffered -----------------------------------------------------------

  /** Tool results minus distinct call ids per turn. */
  function Balance(messages: seq<Message>): int {
    if messages == [] then 0
    else
      var n := |messages| - 1;
      Balance(messages[..n]) + match messages[n]
        case Spoken(turn) => -|AsSet(CallIds(Normalize(turn, n).calls))|
        case Tool(_) => 1
  }

  /** Distinct calls of these blocks that nobody answered yet. */
  function Room(blocks: seq<Block>): int {
    if blocks == [] then 0 else |AsSet(blocks[0].Ids())| - |blocks[0].answers| + Room(blocks[1..])
  }

  lemma {:induction false} DistinctCount(ids: seq<string>)
    requires Distinct(ids)
    ensures |AsSet(ids)| == |ids|
  {
    if ids != [] {
      assert AsSet(ids) == AsSet(ids[1..]) + {ids[0]};
      assert ids[0] !in AsSet(ids[1..]);
      DistinctCount(ids[1..]);
    }
  }

  lemma {:induction false} SubsetCount(small: set<string>, large: set<string>)
    requires small <= large
    ensures |small| <= |large|
    ensures |small| == |large| ==> small == large
  {
    assert large == small + (large - small);
    assert |large| == |small| + |large - small|;
  }

  lemma {:induction false} BlockRoom(block: Block)
    requires Sound(block)
    ensures |AsSet(block.Ids())| - |block.answers| >= 0
    ensures |AsSet(block.Ids())| == |block.answers| <==> block.Slots() == []
  {
    DistinctCount(block.Covered());
    InSlots(block.Ids(), block.Covered());
    SubsetCount(AsSet(block.Covered()), AsSet(block.Ids()));
    if block.Slots() == [] {
      forall x | x in AsSet(block.Ids()) ensures x in AsSet(block.Covered()) { assert x !in block.Slots(); }
      assert AsSet(block.Ids()) == AsSet(block.Covered());
    } else {
      var x := block.Slots()[0];
      assert x in block.Slots();
      assert x in AsSet(block.Ids()) && x !in AsSet(block.Covered());
    }
  }

  lemma {:induction false} RoomOpen(blocks: seq<Block>)
    requires AllSound(blocks)
    ensures Room(blocks) >= 0
    ensures Room(blocks) == 0 <==> LastOpen(blocks) < 0
  {
    if blocks != [] {
      BlockRoom(blocks[0]);
      RoomOpen(blocks[1..]);
      var last, rest := LastOpen(blocks), LastOpen(blocks[1..]);
      if last >= 1 { assert blocks[1..][last - 1].Slots() != []; }
      if rest >= 0 { assert blocks[rest + 1].Slots() != []; }
    }
  }

  lemma {:induction false} RoomAttach(blocks: seq<Block>, k: nat, id: string, content: string)
    requires k < |blocks|
    ensures Room(AttachTo(blocks, k, id, content)) == Room(blocks) - 1
  {
    var grown := AttachTo(blocks, k, id, content);
    if k == 0 {
      assert grown[1..] == blocks[1..];
    } else {
      assert grown[1..] == AttachTo(blocks[1..], k - 1, id, content);
      RoomAttach(blocks[1..], k - 1, id, content);
    }
  }

  lemma {:induction false} RoomNewTurn(blocks: seq<Block>, turn: Turn)
    ensures Room(blocks + [Block(turn, [])]) == Room(blocks) + |AsSet(CallIds(turn.calls))|
  {
    if blocks == [] {
      assert blocks + [Block(turn, [])] == [Block(turn, [])];
    } else {
      assert (blocks + [Block(turn, [])])[1..] == blocks[1..] + [Block(turn, [])];
      RoomNewTurn(blocks[1..], turn);
    }
  }

  /** An unanswered call is found exactly when there is room. */
  lemma {:induction false} BindFindsRoom(blocks: seq<Block>, id: string)
    requires AllSound(blocks)
    ensures Bind(blocks, id).Unbound? <==> Room(blocks) == 0
  {
    RoomOpen(blocks);
    var b := Bind(blocks, id);
    if b.Bound? {
      InSlots(blocks[b.block].Ids(), blocks[b.block].Covered());
      assert b.id in blocks[b.block].Slots();
    }
  }

  lemma {:induction false} RoomIsSlack(messages: seq<Message>)
    ensures Room(MainPass(messages).blocks) == |MainPass(messages).orphans| - Balance(messages)
  {
    if messages != [] {
      var n := |messages| - 1;
      var s := MainPass(messages[..n]);
      RoomIsSlack(messages[..n]);
      match messages[n]
      case Spoken(turn) => RoomNewTurn(s.blocks, Normalize(turn, n));
      case Tool(answer) =>
        match Bind(s.blocks, answer.id)
        case Unbound =>
        case Bound(k, id) => RoomAttach(s.blocks, k, id, answer.content);
    }
  }

  ghost predicate IsPeak(messages: seq<Message>, peak: int) {
    && (forall k :: 0 <= k <= |messages| ==> Balance(messages[..k]) <= peak)
    && (exists k :: 0 <= k <= |messages| && Balance(messages[..k]) == peak)
  }

  /** One more message raises the number buffered exactly when it takes the balance past it. */
  lemma {:induction false} OneMoreBuffered(messages: seq<Message>)
    requires messages != []
    ensures var s, t := MainPass(messages[..|messages| - 1]), MainPass(messages);
      if Balance(messages) > |s.orphans|
      then && messages[|messages| - 1].Tool?
           && t.orphans == s.orphans + [Orphan(|messages| - 1, messages[|messages| - 1].answer)]
           && Balance(messages) == |t.orphans|
      else t.orphans == s.orphans
  {
    var n := |messages| - 1;
    var s := MainPass(messages[..n]);
    RoomIsSlack(messages[..n]);
    MainPassSound(messages[..n]);
    RoomOpen(s.blocks);
    if messages[n].Tool? { BindFindsRoom(s.blocks, messages[n].answer.id); }
  }

  lemma {:induction false} PeakOfPrefix(messages: seq<Message>, peak: int)
    requires messages != [] && IsPeak(messages[..|messages| - 1], peak)
    ensures forall k :: 0 <= k < |messages| ==> Balance(messages[..k]) <= peak
    ensures exists k :: 0 <= k < |messages| && Balance(messages[..k]) == peak
  {
    var front := messages[..|messages| - 1];
    forall k | 0 <= k < |messages| ensures Balance(messages[..k]) <= peak { assert front[..k] == messages[..k]; }
    var k :| 0 <= k <= |front| && Balance(front[..k]) == peak;
    assert front[..k] == messages[..k];
  }

  /** The number of buffered results is the highest balance any prefix reaches (the empty prefix has 0),
      whatever the ids are. */
  lemma {:induction false} BufferedIsPeak(messages: seq<Message>)
    ensures IsPeak(messages, |MainPass(messages).orphans|)
  {
    if messages == [] {
      assert Balance(messages[..0]) == 0;
    } else {
      var n := |messages| - 1;
      var front := messages[..n];
      BufferedIsPeak(front);
      OneMoreBuffered(messages);
      PeakOfPrefix(messages, |MainPass(front).orphans|);
      assert messages[..n + 1] == messages;
    }
  }

  /** Buffered results keep their arrival index, in order. */
  lemma {:induction false} OrphansInOrder(messages: seq<Message>)
    ensures var os := MainPass(messages).orphans;
      && (forall i :: 0 <= i < |os| ==> os[i].index < |messages| && messages[os[i].index] == Tool(os[i].answer))
      && (forall i, j :: 0 <= i < j < |os| ==> os[i].index < os[j].index)
  {
    if messages != [] {
      OrphansInOrder(messages[..|messages| - 1]);
      OneMoreBuffered(messages);
    }
  }

  ghost predicate IsBuffered(messages: seq<Message>, index: nat) {
    exists i :: 0 <= i < |MainPass(messages).orphans| && MainPass(messages).orphans[i].index == index
  }

  ghost predicate IsRecord(messages: seq<Message>, index: nat)
    requires index < |messages|
  {
    forall k :: 0 <= k <= index ==> Balance(messages[..k]) < Balance(messages[..index + 1])
  }

  lemma {:induction false} RecordOfPrefix(messages: seq<Message>, index: nat)
    requires index < |messages| - 1
    ensures IsRecord(messages[..|messages| - 1], index) <==> IsRecord(messages, index)
  {
    var front := messages[..|messages| - 1];
    forall k | 0 <= k <= index + 1 ensures front[..k] == messages[..k] {}
  }

  lemma {:induction false} LastIsRecord(messages: seq<Message>, peak: int)
    requires messages != [] && IsPeak(messages[..|messages| - 1], peak)
    ensures IsRecord(messages, |messages| - 1) <==> Balance(messages) > peak
  {
    PeakOfPrefix(messages, peak);
    assert messages[..|messages|] == messages;
  }

  /** A message is buffered exactly when the balance after it exceeds every balance before it. */
  lemma {:induction false} BufferedIffRecord(messages: seq<Message>, index: nat)
    requires index < |messages|
    ensures IsBuffered(messages, index) <==> IsRecord(messages, index)
    decreases |messages|
  {
    var n := |messages| - 1;
    var s, t := MainPass(messages[..n]).orphans, MainPass(messages).orphans;
    OrphansInOrder(messages[..n]);
    OneMoreBuffered(messages);
    if index < n {
      BufferedIffRecord(messages[..n], index);
      RecordOfPrefix(messages, index);
      assert forall i :: 0 <= i < |s| ==> t[i] == s[i];
    } else {
      BufferedIsPeak(messages[..n]);
      LastIsRecord(messages, |s|);
      assert |t| > |s| ==> t[|s|].index == n;
    }
  }

  // ---- Exactly when and where the repair fails ---------------------------------------------------

  /** How many turns still wait for an answer to `id`. */
  function Waiting(blocks: seq<Block>, id: string): nat {
    if blocks == [] then 0 else (if blocks[0].Wants(id) then 1 else 0) + Waiting(blocks[1..], id)
  }

  function Claims(orphans: seq<Orphan>, id: string): nat {
    if orphans == [] then 0
    else Claims(orphans[..|orphans| - 1], id) + if orphans[|orphans| - 1].answer.id == id then 1 else 0
  }

  /** The i-th buffered result has no id, or the results buffered before it already use up every turn that
      still waits for that id. */
  predicate Unfoldable(blocks: seq<Block>, orphans: seq<Orphan>, i: nat)
    requires i < |orphans|
  {
    orphans[i].answer.id == "" || Claims(orphans[..i], orphans[i].answer.id) >= Waiting(blocks, orphans[i].answer.id)
  }

  function Unfolded(blocks: seq<Block>, orphans: seq<Orphan>, upTo: nat): seq<Orphan>
    requires upTo <= |orphans|
  {
    if upTo == 0 then []
    else Unfolded(blocks, orphans, upTo - 1) + if Unfoldable(blocks, orphans, upTo - 1) then [orphans[upTo - 1]] else []
  }

  lemma {:induction false} WaitingFound(blocks: seq<Block>, id: string)
    ensures Waiting(blocks, id) > 0 <==> LastWanting(blocks, id) >= 0
  {
    if blocks != [] {
      WaitingFound(blocks[1..], id);
      var last, rest := LastWanting(blocks, id), LastWanting(blocks[1..], id);
      if last >= 1 { assert blocks[1..][last - 1].Wants(id); }
      if rest >= 0 { assert blocks[rest + 1].Wants(id); }
    }
  }

  lemma {:induction false} WaitingAttach(blocks: seq<Block>, k: nat, id: string, content: string, other: string)
    requires k < |blocks| && blocks[k].Wants(id)
    ensures Waiting(AttachTo(blocks, k, id, content), other) == Waiting(blocks, other) - if other == id then 1 else 0
  {
    var grown := AttachTo(blocks, k, id, content);
    if k == 0 {
      assert grown[1..] == blocks[1..];
      assert grown[0].Covered() == blocks[0].Covered() + [id];
    } else {
      assert grown[1..] == AttachTo(blocks[1..], k - 1, id, content);
      WaitingAttach(blocks[1..], k - 1, id, content, other);
    }
  }

  lemma {:induction false} FoldCounts(s: State, last: Orphan, id: string)
    requires id != ""
    ensures var t := FoldStep(s, last);
      && t.orphans == (if last.answer.id == "" || Waiting(s.blocks, last.answer.id) == 0 then s.orphans + [last]
                       else s.orphans)
      && Waiting(t.blocks, id)
         == Waiting(s.blocks, id) - (if last.answer.id == id && Waiting(s.blocks, id) > 0 then 1 else 0)
  {
    if last.answer.id != "" {
      WaitingFound(s.blocks, last.answer.id);
      var k := LastWanting(s.blocks, last.answer.id);
      if k >= 0 { WaitingAttach(s.blocks, k, last.answer.id, last.answer.content, id); }
    }
  }

  /** After folding the first n buffered results, each id waits in as many turns as it did, minus the
      results that claimed it, and exactly the unfoldable ones are left over. */
  lemma {:induction false} FoldPrefix(blocks: seq<Block>, orphans: seq<Orphan>, n: nat, id: string)
    requires n <= |orphans| && id != ""
    ensures var s := FoldPass(blocks, orphans[..n]);
      && s.orphans == Unfolded(blocks, orphans, n)
      && Waiting(s.blocks, id)
         == (if Claims(orphans[..n], id) < Waiting(blocks, id)
             then Waiting(blocks, id) - Claims(orphans[..n], id) else 0)
    decreases n
  {
    if n > 0 {
      assert orphans[..n][..n - 1] == orphans[..n - 1];
      var last := orphans[n - 1];
      FoldPrefix(blocks, orphans, n - 1, id);
      if last.answer.id != "" { FoldPrefix(blocks, orphans, n - 1, last.answer.id); }
      FoldCounts(FoldPass(blocks, orphans[..n - 1]), last, id);
    }
  }

  lemma {:induction false} NoneUnfolded(blocks: seq<Block>, orphans: seq<Orphan>, n: nat)
    requires n <= |orphans|
    ensures Unfolded(blocks, orphans, n) == [] <==> forall i :: 0 <= i < n ==> !Unfoldable(blocks, orphans, i)
    decreases n
  {
    if n > 0 { NoneUnfolded(blocks, orphans, n - 1); }
  }

  lemma {:induction false} FirstUnfolded(blocks: seq<Block>, orphans: seq<Orphan>, n: nat) returns (i: nat)
    requires n <= |orphans| && Unfolded(blocks, orphans, n) != []
    ensures i < n && Unfoldable(blocks, orphans, i) && Unfolded(blocks, orphans, n)[0] == orphans[i]
    ensures forall j :: 0 <= j < i ==> !Unfoldable(blocks, orphans, j)
    decreases n
  {
    var front := Unfolded(blocks, orphans, n - 1);
    assert Unfolded(blocks, orphans, n) == front + if Unfoldable(blocks, orphans, n - 1) then [orphans[n - 1]] else [];
    if front == [] {
      NoneUnfolded(blocks, orphans, n - 1);
      i := n - 1;
    } else {
      i := FirstUnfolded(blocks, orphans, n - 1);
    }
  }

  ghost predicate AllFoldable(s: State) {
    forall i :: 0 <= i < |s.orphans| ==> !Unfoldable(s.blocks, s.orphans, i)
  }

  ghost predicate FirstUnfoldable(s: State, i: nat) {
    && i < |s.orphans| && Unfoldable(s.blocks, s.orphans, i)
    && forall j :: 0 <= j < |s.orphans| && Unfoldable(s.blocks, s.orphans, j) ==>
      s.orphans[i].index <= s.orphans[j].index
  }

  lemma {:induction false} SettleLeaves(messages: seq<Message>)
    ensures var s := MainPass(messages); Settle(messages).orphans == Unfolded(s.blocks, s.orphans, |s.orphans|)
  {
    var s := MainPass(messages);
    assert s.orphans[..|s.orphans|] == s.orphans;
    FoldPrefix(s.blocks, s.orphans, |s.orphans|, MissingId(0, 0));
  }

  /** The repair succeeds exactly when every buffered result can be folded in by its id. */
  lemma {:induction false} RepairSucceedsExactly(messages: seq<Message>)
    ensures Repair(messages).Ok? <==> AllFoldable(MainPass(messages))
  {
    var s := MainPass(messages);
    SettleLeaves(messages);
    NoneUnfolded(s.blocks, s.orphans, |s.orphans|);
  }

  /** Otherwise it names the buffered result that cannot be folded in with the least index. */
  lemma {:induction false} RepairNamesLeast(messages: seq<Message>)
    requires Repair(messages).Err?
    ensures exists i: nat :: FirstUnfoldable(MainPass(messages), i)
              && Repair(messages).error == Unpairable(MainPass(messages).orphans[i].index)
  {
    var s := MainPass(messages);
    SettleLeaves(messages);
    var i := FirstUnfolded(s.blocks, s.orphans, |s.orphans|);
    assert Repair(messages).error == Unpairable(s.orphans[i].index);
    OrphansInOrder(messages);
    assert FirstUnfoldable(s, i);
  }
}
