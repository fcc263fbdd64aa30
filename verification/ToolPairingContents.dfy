/** The repair never looks at what results say, so ids are kept whatever they say or not at all. */
module ToolPairingContents {
  import opened Messages
  import opened ToolPairing
  import opened ToolPairingAccounting
  import opened ToolPairingIds

  /** The same list, but for what the results say. */
  ghost predicate Like(messages: seq<Message>, other: seq<Message>) {
    && |messages| == |other|
    && forall i :: 0 <= i < |messages| ==>
         if messages[i].Spoken? then other[i] == messages[i]
         else other[i].Tool? && other[i].answer.id == messages[i].answer.id
  }

  ghost predicate LikeBlocks(a: seq<Block>, b: seq<Block>) {
    |a| == |b| && forall k :: 0 <= k < |a| ==> a[k].head == b[k].head && a[k].Covered() == b[k].Covered()
  }

  ghost predicate LikeOrphans(a: seq<Orphan>, b: seq<Orphan>) {
    |a| == |b| && forall i :: 0 <= i < |a| ==> a[i].index == b[i].index && a[i].answer.id == b[i].answer.id
  }

  ghost predicate LikeStates(s: State, t: State) {
    LikeBlocks(s.blocks, t.blocks) && LikeOrphans(s.orphans, t.orphans)
  }

  lemma {:induction false} LikeLast(a: seq<Block>, b: seq<Block>, id: string)
    requires LikeBlocks(a, b)
    ensures LastNaming(a, id) == LastNaming(b, id) && LastOpen(a) == LastOpen(b)
    ensures LastWanting(a, id) == LastWanting(b, id)
  {
    if a != [] { LikeLast(a[..|a| - 1], b[..|b| - 1], id); }
  }

  lemma {:induction false} LikeBind(a: seq<Block>, b: seq<Block>, id: string)
    requires LikeBlocks(a, b)
    ensures Bind(a, id) == Bind(b, id)
  {
    LikeLast(a, b, id);
  }

  lemma {:induction false} LikeAttach(a: seq<Block>, b: seq<Block>, k: nat, id: string, said: string, other: string)
    requires LikeBlocks(a, b) && k < |a|
    ensures LikeBlocks(AttachTo(a, k, id, said), AttachTo(b, k, id, other))
  {
    assert a[k].Attach(id, said).Covered() == a[k].Covered() + [id];
    assert b[k].Attach(id, other).Covered() == b[k].Covered() + [id];
  }

  lemma {:induction false} LikeStep(s: State, t: State, index: nat, message: Message, other: Message)
    requires LikeStates(s, t) && Like([message], [other])
    ensures LikeStates(Step(s, index, message), Step(t, index, other))
  {
    assert [message][0] == message && [other][0] == other;
    if message.Tool? {
      LikeBind(s.blocks, t.blocks, message.answer.id);
      var b := Bind(s.blocks, message.answer.id);
      if b.Bound? {
        LikeAttach(s.blocks, t.blocks, b.block, b.id, message.answer.content, other.answer.content);
      }
    }
  }

  lemma {:induction false} LikeMain(messages: seq<Message>, other: seq<Message>)
    requires Like(messages, other)
    ensures LikeStates(MainPass(messages), MainPass(other))
    ensures NothingRebound(messages) <==> NothingRebound(other)
  {
    if messages != [] {
      var n := |messages| - 1;
      var s, t := MainPass(messages[..n]), MainPass(other[..n]);
      LikeMain(messages[..n], other[..n]);
      LikeStep(s, t, n, messages[n], other[n]);
      if messages[n].Tool? { LikeBind(s.blocks, t.blocks, messages[n].answer.id); }
    }
  }

  lemma {:induction false} LikeFold(a: seq<Block>, b: seq<Block>, left: seq<Orphan>, right: seq<Orphan>)
    requires LikeBlocks(a, b) && LikeOrphans(left, right)
    ensures LikeStates(FoldPass(a, left), FoldPass(b, right))
    decreases |left|
  {
    if left != [] {
      var n := |left| - 1;
      var s, t := FoldPass(a, left[..n]), FoldPass(b, right[..n]);
      LikeFold(a, b, left[..n], right[..n]);
      LikeLast(s.blocks, t.blocks, left[n].answer.id);
      var k := if left[n].answer.id == "" then -1 else LastWanting(s.blocks, left[n].answer.id);
      if k >= 0 {
        LikeAttach(s.blocks, t.blocks, k, left[n].answer.id, left[n].answer.content, right[n].answer.content);
      }
    }
  }

  lemma {:induction false} LikeRepaired(messages: seq<Message>, other: seq<Message>)
    requires Like(messages, other)
    ensures Repair(messages).Ok? <==> Repair(other).Ok?
  {
    LikeMain(messages, other);
    var s, t := MainPass(messages), MainPass(other);
    LikeFold(s.blocks, t.blocks, s.orphans, t.orphans);
  }

  // ---- Results that can be told apart --------------------------------------------------------------------

  function Tag(n: nat): string { seq(n, _ => 'x') }

  /** The list with results that all say something else. */
  function Tagged(messages: seq<Message>): seq<Message> {
    seq(|messages|, i requires 0 <= i < |messages| =>
      if messages[i].Tool? then Tool(Answer(messages[i].answer.id, Tag(i))) else messages[i])
  }

  lemma {:induction false} TaggedContents(messages: seq<Message>, c: string)
    ensures Contents(Tagged(messages))[c] <= 1 && (|c| >= |messages| ==> Contents(Tagged(messages))[c] == 0)
  {
    if messages != [] {
      var n := |messages| - 1;
      var tagged := Tagged(messages);
      assert tagged[..n] == Tagged(messages[..n]);
      TaggedContents(messages[..n], c);
      ContentsSnoc(tagged);
      assert Contents([tagged[n]]) == if tagged[n].Tool? then multiset{Tag(n)} else multiset{};
      assert |Tag(n)| == n;
    }
  }

  /** The exact condition, for every list that can be repaired: its results keep their ids, whatever they say, if
      and only if no arriving result is rebound. */
  lemma {:induction false} IdsKeptWhateverSaid(messages: seq<Message>)
    requires Repair(messages).Ok?
    ensures (forall other :: Like(messages, other) ==>
               Repair(other).Ok? && Answers(Repair(other).value) == Answers(other))
      <==> NothingRebound(messages)
  {
    forall other | Like(messages, other)
      ensures Repair(other).Ok? && (NothingRebound(messages) ==> Answers(Repair(other).value) == Answers(other)) {
      LikeRepaired(messages, other);
      LikeMain(messages, other);
      if NothingRebound(messages) { UnreboundKeepsIds(other); }
    }
    var tagged := Tagged(messages);
    assert Like(messages, tagged);
    LikeMain(messages, tagged);
    forall c ensures Contents(tagged)[c] <= 1 { TaggedContents(messages, c); }
    IdsKeptExactly(tagged);
  }
}
