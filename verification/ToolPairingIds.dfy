/** Which tool results keep their id through the repair, and which are bound to a call they do not name. */
module ToolPairingIds {
  import opened Messages
  import opened ToolPairing
  import opened ToolPairingValidity
  import opened ToolPairingAccounting

  // ---- One arrival ---------------------------------------------------------------------------------------

  /** The result stays bound to the id it came with, or is buffered under it. */
  predicate KeepsId(blocks: seq<Block>, id: string) {
    var b := Bind(blocks, id);
    b.Bound? ==> b.id == id
  }

  /** The last turn with a call named `id` still waits for it. */
  predicate Awaited(blocks: seq<Block>, id: string) {
    var k := LastNaming(blocks, id);
    id != "" && k >= 0 && id !in blocks[k].Covered()
  }

  /** The call that a result with an unknown id takes. */
  predicate NextOpen(blocks: seq<Block>, id: string) {
    var k := LastOpen(blocks);
    k >= 0 && blocks[k].Slots()[0] == id
  }

  /** An arriving result keeps its id if and only if the last turn naming it waits for it, or it happens to name the
      next open call, or every call is answered. */
  lemma {:induction false} ArrivalKeepsIdExactly(blocks: seq<Block>, id: string)
    ensures KeepsId(blocks, id) <==> Awaited(blocks, id) || NextOpen(blocks, id) || LastOpen(blocks) < 0
  {
    if Awaited(blocks, id) {
      var k := LastNaming(blocks, id);
      InSlots(blocks[k].Ids(), blocks[k].Covered());
      assert id in blocks[k].Slots();
    }
  }

  /** A result that does not keep its id takes a call away from the result that names it: this one is then bound to
      another call, or to the same call of another turn, or to none. */
  lemma {:induction false} UnknownResultDisplacesAnother(
    blocks: seq<Block>, unknown: string, k: nat, id: string, content: string)
    requires Bind(blocks, unknown) == Bound(k, id) && unknown != id
    ensures k < |blocks| && blocks[k].Wants(id)
    ensures var after := AttachTo(blocks, k, id, content);
      !after[k].Wants(id) && Bind(after, id) != Bound(k, id)
    ensures k == LastNaming(blocks, id) ==>
      var after := AttachTo(blocks, k, id, content);
      KeepsId(after, id) ==> NextOpen(after, id) || LastOpen(after) < 0
  {
    var after := AttachTo(blocks, k, id, content);
    assert after[k].Covered() == blocks[k].Covered() + [id];
    if k == LastNaming(blocks, id) {
      SameNaming(blocks, k, id, content);
      ArrivalKeepsIdExactly(after, id);
    }
  }

  lemma {:induction false} SameNaming(blocks: seq<Block>, k: nat, id: string, content: string)
    requires k < |blocks|
    ensures LastNaming(AttachTo(blocks, k, id, content), id) == LastNaming(blocks, id)
  {
    var after := AttachTo(blocks, k, id, content);
    assert forall b :: 0 <= b < |blocks| ==> after[b].Ids() == blocks[b].Ids();
  }

  // ---- Whole runs ----------------------------------------------------------------------------------------

  /** No result is bound to a call it does not name. */
  predicate NothingRebound(messages: seq<Message>) {
    messages == [] ||
    var n := |messages| - 1;
    && NothingRebound(messages[..n])
    && (messages[n].Tool? ==> KeepsId(MainPass(messages[..n]).blocks, messages[n].answer.id))
  }

  function Answers(messages: seq<Message>): multiset<Answer> {
    if messages == [] then multiset{}
    else (if messages[0].Tool? then multiset{messages[0].answer} else multiset{}) + Answers(messages[1..])
  }

  lemma {:induction false} AnswersConcat(left: seq<Message>, right: seq<Message>)
    ensures Answers(left + right) == Answers(left) + Answers(right)
  {
    if left == [] {
      assert left + right == right;
    } else {
      assert (left + right)[0] == left[0] && (left + right)[1..] == left[1..] + right;
      AnswersConcat(left[1..], right);
    }
  }

  lemma {:induction false} AttachAnswers(blocks: seq<Block>, k: nat, answer: Answer)
    requires k < |blocks|
    ensures Answers(Flatten(AttachTo(blocks, k, answer.id, answer.content)))
      == Answers(Flatten(blocks)) + multiset{answer}
  {
    var front, back := Flatten(blocks[..k + 1]), Flatten(blocks[k + 1..]);
    FlattenAttach(blocks, k, answer.id, answer.content);
    AnswersConcat(front, back);
    AnswersConcat(front + [Tool(answer)], back);
    AnswersConcat(front, [Tool(answer)]);
    assert Answers([Tool(answer)]) == multiset{answer};
  }

  lemma {:induction false} TrimKeepsAnswers(blocks: seq<Block>)
    ensures Answers(Flatten(TrimAll(blocks))) == Answers(Flatten(blocks))
  {
    if blocks != [] {
      var trimmed := TrimAll(blocks);
      assert trimmed[1..] == TrimAll(blocks[1..]);
      TrimKeepsAnswers(blocks[1..]);
      AnswersConcat(blocks[0].Lines(), Flatten(blocks[1..]));
      AnswersConcat(trimmed[0].Lines(), Flatten(trimmed[1..]));
      assert blocks[0].Lines()[1..] == Tools(blocks[0].answers) == trimmed[0].Lines()[1..];
    }
  }

  function Buffered(orphans: seq<Orphan>): multiset<Answer> {
    if orphans == [] then multiset{}
    else Buffered(orphans[..|orphans| - 1]) + multiset{orphans[|orphans| - 1].answer}
  }

  lemma {:induction false} BufferedSnoc(orphans: seq<Orphan>, orphan: Orphan)
    ensures Buffered(orphans + [orphan]) == Buffered(orphans) + multiset{orphan.answer}
  {
    assert (orphans + [orphan])[..|orphans|] == orphans;
  }

  /** Every result so far with the id it has now. */
  function HeldAnswers(s: State): multiset<Answer> {
    Answers(Flatten(s.blocks)) + Buffered(s.orphans)
  }

  lemma {:induction false} AnswersSnoc(messages: seq<Message>)
    requires messages != []
    ensures var last := messages[|messages| - 1];
      Answers(messages)
      == Answers(messages[..|messages| - 1]) + (if last.Tool? then multiset{last.answer} else multiset{})
  {
    var n := |messages| - 1;
    assert messages == messages[..n] + [messages[n]];
    AnswersConcat(messages[..n], [messages[n]]);
    assert [messages[n]][1..] == [];
  }

  lemma {:induction false} TurnAnswers(blocks: seq<Block>, turn: Turn)
    ensures Answers(Flatten(blocks + [Block(turn, [])])) == Answers(Flatten(blocks))
  {
    FlattenNewTurn(blocks, turn);
    AnswersConcat(Flatten(blocks), [Spoken(turn)]);
    assert Answers([Spoken(turn)]) == multiset{};
  }

  /** The answer an arriving message becomes: under the id it is bound to. */
  function Becomes(blocks: seq<Block>, answer: Answer): Answer {
    var b := Bind(blocks, answer.id);
    Answer(if b.Bound? then b.id else answer.id, answer.content)
  }

  lemma {:induction false} HeldArrival(s: State, index: nat, answer: Answer)
    ensures HeldAnswers(Step(s, index, Tool(answer))) == HeldAnswers(s) + multiset{Becomes(s.blocks, answer)}
  {
    var b, a := Bind(s.blocks, answer.id), Becomes(s.blocks, answer);
    if b.Unbound? {
      assert Step(s, index, Tool(answer)) == s.(orphans := s.orphans + [Orphan(index, answer)]);
      BufferedSnoc(s.orphans, Orphan(index, answer));
      assert a == answer;
    } else {
      assert Step(s, index, Tool(answer)) == s.(blocks := AttachTo(s.blocks, b.block, a.id, a.content));
      AttachAnswers(s.blocks, b.block, a);
    }
  }

  lemma {:induction false} UnreboundHeld(messages: seq<Message>)
    requires NothingRebound(messages)
    ensures HeldAnswers(MainPass(messages)) == Answers(messages)
  {
    if messages != [] {
      var n := |messages| - 1;
      UnreboundHeld(messages[..n]);
      AnswersSnoc(messages);
      var s := MainPass(messages[..n]);
      match messages[n]
      case Spoken(turn) => TurnAnswers(s.blocks, Normalize(turn, n));
      case Tool(answer) => HeldArrival(s, n, answer);
    }
  }

  lemma {:induction false} FoldStepKeeps(s: State, orphan: Orphan)
    ensures HeldAnswers(FoldStep(s, orphan)) == HeldAnswers(s) + multiset{orphan.answer}
  {
    var k := if orphan.answer.id == "" then -1 else LastWanting(s.blocks, orphan.answer.id);
    if k < 0 { BufferedSnoc(s.orphans, orphan); } else { AttachAnswers(s.blocks, k, orphan.answer); }
  }

  /** Folding results in never changes an id. */
  lemma {:induction false} FoldPassKeeps(blocks: seq<Block>, orphans: seq<Orphan>)
    ensures HeldAnswers(FoldPass(blocks, orphans)) == HeldAnswers(State(blocks, orphans))
  {
    if orphans != [] {
      var n := |orphans| - 1;
      FoldPassKeeps(blocks, orphans[..n]);
      FoldStepKeeps(FoldPass(blocks, orphans[..n]), orphans[n]);
    }
  }

  /** On success the results of the output are those the first pass held, under the ids they had then. */
  lemma {:induction false} RepairAnswers(messages: seq<Message>)
    requires Repair(messages).Ok?
    ensures Answers(Repair(messages).value) == HeldAnswers(MainPass(messages))
  {
    var s := MainPass(messages);
    FoldPassKeeps(s.blocks, s.orphans);
    TrimKeepsAnswers(Settle(messages).blocks);
  }

  /** If nothing is rebound, every result of a repaired list has the id and content it came with: also where turns
      reuse an id, and where results arrive before their call. */
  lemma {:induction false} UnreboundKeepsIds(messages: seq<Message>)
    requires NothingRebound(messages) && Repair(messages).Ok?
    ensures Answers(Repair(messages).value) == Answers(messages)
  {
    UnreboundHeld(messages);
    RepairAnswers(messages);
  }

  // ---- And only then -------------------------------------------------------------------------------------

  /** The results can be told apart by what they say. */
  ghost predicate DistinctContents(messages: seq<Message>) {
    forall c :: Contents(messages)[c] <= 1
  }

  lemma {:induction false} AnswerSaysContent(messages: seq<Message>, a: Answer)
    requires a in Answers(messages)
    ensures a.content in Contents(messages)
  {
    if a in Answers(messages[1..]) { AnswerSaysContent(messages[1..], a); }
  }

  lemma {:induction false} HeldSaysContent(messages: seq<Message>, a: Answer)
    requires a in Answers(Flatten(MainPass(messages).blocks))
    ensures a.content in Contents(messages)
  {
    AnswerSaysContent(Flatten(MainPass(messages).blocks), a);
    MainPassHolds(messages);
  }

  lemma {:induction false} AnswersStay(s: State, index: nat, message: Message, a: Answer)
    requires a in Answers(Flatten(s.blocks))
    ensures a in Answers(Flatten(Step(s, index, message).blocks))
  {
    match message
    case Spoken(turn) => TurnAnswers(s.blocks, Normalize(turn, index));
    case Tool(answer) =>
      match Bind(s.blocks, answer.id)
      case Unbound =>
      case Bound(k, id) => AttachAnswers(s.blocks, k, Answer(id, answer.content));
  }

  ghost predicate Stray(messages: seq<Message>, a: Answer) {
    a in Answers(Flatten(MainPass(messages).blocks)) && a !in Answers(messages)
  }

  lemma {:induction false} StrayStays(messages: seq<Message>, a: Answer)
    requires messages != [] && DistinctContents(messages) && Stray(messages[..|messages| - 1], a)
    ensures Stray(messages, a)
  {
    var n := |messages| - 1;
    HeldSaysContent(messages[..n], a);
    AnswersStay(MainPass(messages[..n]), n, messages[n], a);
    AnswersSnoc(messages);
    ContentsSnoc(messages);
    assert messages[n].Tool? ==> Contents(messages)[messages[n].answer.content] <= 1;
  }

  lemma {:induction false} ReboundStrays(messages: seq<Message>) returns (a: Answer)
    requires messages != [] && messages[|messages| - 1].Tool? && DistinctContents(messages)
    requires !KeepsId(MainPass(messages[..|messages| - 1]).blocks, messages[|messages| - 1].answer.id)
    ensures Stray(messages, a)
  {
    var n := |messages| - 1;
    var blocks, answer := MainPass(messages[..n]).blocks, messages[n].answer;
    a := Becomes(blocks, answer);
    AttachAnswers(blocks, Bind(blocks, answer.id).block, a);
    AnswersSnoc(messages);
    ContentsSnoc(messages);
    assert Contents(messages)[answer.content] <= 1;
    if a in Answers(messages[..n]) { AnswerSaysContent(messages[..n], a); }
  }

  /** After a rebinding some turn has a result that never came with the id it has. */
  lemma {:induction false} ReboundIsStray(messages: seq<Message>) returns (a: Answer)
    requires !NothingRebound(messages) && DistinctContents(messages)
    ensures Stray(messages, a)
  {
    if !NothingRebound(messages[..|messages| - 1]) {
      FewerContents(messages);
      a := ReboundIsStray(messages[..|messages| - 1]);
      StrayStays(messages, a);
    } else {
      a := ReboundStrays(messages);
    }
  }

  lemma {:induction false} FewerContents(messages: seq<Message>)
    requires messages != [] && DistinctContents(messages)
    ensures DistinctContents(messages[..|messages| - 1])
  {
    var fewer := messages[..|messages| - 1];
    ContentsSnoc(messages);
    forall c ensures Contents(fewer)[c] <= 1 { assert Contents(messages)[c] <= 1; }
  }

  /** The exact condition: where results can be told apart, they all keep their ids if and only if nothing is
      rebound. */
  lemma {:induction false} IdsKeptExactly(messages: seq<Message>)
    requires Repair(messages).Ok? && DistinctContents(messages)
    ensures Answers(Repair(messages).value) == Answers(messages) <==> NothingRebound(messages)
  {
    if NothingRebound(messages) {
      UnreboundKeepsIds(messages);
    } else {
      var a := ReboundIsStray(messages);
      RepairAnswers(messages);
      assert a in HeldAnswers(MainPass(messages));
    }
  }

  // ---- Results that name their call keep it --------------------------------------------------------

  /** The ids the turns of a list name, and the ids its tool results answer. */
  function Named(messages: seq<Message>): set<string> {
    if messages == [] then {}
    else
      var n := |messages| - 1;
      Named(messages[..n]) + if messages[n].Spoken? then AsSet(CallIds(messages[n].turn.calls)) else {}
  }

  function Answered(messages: seq<Message>): set<string> {
    if messages == [] then {}
    else
      var n := |messages| - 1;
      Answered(messages[..n]) + if messages[n].Tool? then {messages[n].answer.id} else {}
  }

  /** Every tool result names a call of some earlier turn, and no two results name the same id. */
  predicate WellAnswered(messages: seq<Message>) {
    messages == [] ||
    var n := |messages| - 1;
    && WellAnswered(messages[..n])
    && (messages[n].Tool? ==>
          var id := messages[n].answer.id;
          id != "" && id in Named(messages[..n]) && id !in Answered(messages[..n]))
  }

  /** While the pass reads a well-answered list, named ids are found and only answered ids are covered. */
  ghost predicate Tracks(messages: seq<Message>, blocks: seq<Block>) {
    && (forall id :: id in Named(messages) && id != "" ==> LastNaming(blocks, id) >= 0)
    && (forall b :: 0 <= b < |blocks| ==> AsSet(blocks[b].Covered()) <= Answered(messages))
  }

  lemma {:induction false} NamingStays(blocks: seq<Block>, id: string, block: Block)
    requires LastNaming(blocks, id) >= 0 || id in block.Ids()
    ensures LastNaming(blocks + [block], id) >= 0
  {
  }

  lemma {:induction false} NamingStaysAttached(blocks: seq<Block>, id: string, k: nat, answer: Answer)
    requires LastNaming(blocks, id) >= 0 && k < |blocks|
    ensures LastNaming(AttachTo(blocks, k, answer.id, answer.content), id) >= 0
  {
    assert id in AttachTo(blocks, k, answer.id, answer.content)[LastNaming(blocks, id)].Ids();
  }

  lemma {:induction false} NamedIds(turn: Turn, index: nat)
    ensures forall id :: id in CallIds(turn.calls) && id != "" ==> id in CallIds(Normalize(turn, index).calls)
  {
    forall id | id in CallIds(turn.calls) && id != "" ensures id in CallIds(Normalize(turn, index).calls) {
      var p :| 0 <= p < |turn.calls| && CallIds(turn.calls)[p] == id;
      assert CallIds(Normalize(turn, index).calls)[p] == id;
    }
  }

  lemma {:induction false} TracksTurn(messages: seq<Message>, blocks: seq<Block>)
    requires messages != [] && messages[|messages| - 1].Spoken? && Tracks(messages[..|messages| - 1], blocks)
    ensures Tracks(messages, blocks + [Block(Normalize(messages[|messages| - 1].turn, |messages| - 1), [])])
  {
    var n := |messages| - 1;
    var block := Block(Normalize(messages[n].turn, n), []);
    NamedIds(messages[n].turn, n);
    assert block.Covered() == [];
    forall id | id in Named(messages) && id != "" ensures LastNaming(blocks + [block], id) >= 0 {
      NamingStays(blocks, id, block);
    }
  }

  lemma {:induction false} TracksAnswer(messages: seq<Message>, blocks: seq<Block>, k: nat)
    requires messages != [] && messages[|messages| - 1].Tool? && Tracks(messages[..|messages| - 1], blocks)
    requires k < |blocks|
    ensures var answer := messages[|messages| - 1].answer;
      Tracks(messages, AttachTo(blocks, k, answer.id, answer.content))
  {
    var answer := messages[|messages| - 1].answer;
    var grown := AttachTo(blocks, k, answer.id, answer.content);
    assert grown[k].Covered() == blocks[k].Covered() + [answer.id];
    forall id | id in Named(messages) && id != "" ensures LastNaming(grown, id) >= 0 {
      NamingStaysAttached(blocks, id, k, answer);
    }
  }

  lemma {:induction false} WellAnsweredTracks(messages: seq<Message>)
    requires WellAnswered(messages)
    ensures var s := MainPass(messages); s.orphans == [] && Tracks(messages, s.blocks) && NothingRebound(messages)
  {
    if messages != [] {
      var n := |messages| - 1;
      var blocks := MainPass(messages[..n]).blocks;
      WellAnsweredTracks(messages[..n]);
      match messages[n]
      case Spoken(_) =>
        TracksTurn(messages, blocks);
      case Tool(answer) =>
        var k := LastNaming(blocks, answer.id);
        assert answer.id !in AsSet(blocks[k].Covered());
        TracksAnswer(messages, blocks, k);
    }
  }

  /** Results that each name a different call of an earlier turn are never refused, and every one of them
      keeps its id and its content, however late or interleaved it arrives. */
  lemma {:induction false} WellAnsweredKeepsIds(messages: seq<Message>)
    requires WellAnswered(messages)
    ensures Repair(messages).Ok?
    ensures Answers(Repair(messages).value) == Answers(messages)
  {
    WellAnsweredTracks(messages);
    UnreboundKeepsIds(messages);
  }
}
