/** What the repair guarantees: its output passes the strict validator, nothing said is lost,
    and a list that already passes comes back unchanged. */
module ToolPairingValidity {
  import opened Messages
  import opened ToolPairing

  /** Answers of a block carry distinct ids of that block's calls, and every call has an id. */
  ghost predicate Sound(block: Block) {
    && "" !in block.Ids()
    && Distinct(block.Covered())
    && AsSet(block.Covered()) <= AsSet(block.Ids())
  }

  ghost predicate AllSound(blocks: seq<Block>) {
    forall b :: 0 <= b < |blocks| ==> Sound(blocks[b])
  }

  lemma {:induction false} AttachKeepsSound(blocks: seq<Block>, k: nat, id: string, content: string)
    requires AllSound(blocks) && k < |blocks| && blocks[k].Wants(id)
    ensures AllSound(AttachTo(blocks, k, id, content))
  {
    var before, after := blocks[k], blocks[k].Attach(id, content);
    assert after.Covered() == before.Covered() + [id];
  }

  lemma {:induction false} MainPassSound(messages: seq<Message>)
    ensures AllSound(MainPass(messages).blocks)
  {
    if messages != [] {
      var n := |messages| - 1;
      MainPassSound(messages[..n]);
      var s := MainPass(messages[..n]);
      match messages[n]
      case Spoken(turn) =>
        assert "" !in CallIds(Normalize(turn, n).calls);
      case Tool(answer) =>
        match Bind(s.blocks, answer.id)
        case Unbound =>
        case Bound(k, id) => AttachKeepsSound(s.blocks, k, id, answer.content);
    }
  }

  lemma {:induction false} FoldPassSound(blocks: seq<Block>, orphans: seq<Orphan>)
    requires AllSound(blocks)
    ensures AllSound(FoldPass(blocks, orphans).blocks)
  {
    if orphans != [] {
      var rest, last := orphans[..|orphans| - 1], orphans[|orphans| - 1];
      FoldPassSound(blocks, rest);
      var s := FoldPass(blocks, rest);
      var k := if last.answer.id == "" then -1 else LastWanting(s.blocks, last.answer.id);
      if k >= 0 {
        AttachKeepsSound(s.blocks, k, last.answer.id, last.answer.content);
      }
    }
  }

  lemma {:induction false} SettleSound(messages: seq<Message>)
    ensures AllSound(Settle(messages).blocks)
  {
    MainPassSound(messages);
    FoldPassSound(MainPass(messages).blocks, MainPass(messages).orphans);
  }

  lemma {:induction false} FirstAnswer(answers: seq<Answer>)
    requires answers != [] && Distinct(AnswerIds(answers))
    ensures Distinct(AnswerIds(answers[1..]))
    ensures answers[0].id !in AsSet(AnswerIds(answers[1..]))
    ensures AsSet(AnswerIds(answers)) == {answers[0].id} + AsSet(AnswerIds(answers[1..]))
  {
    var ids, tail := AnswerIds(answers), AnswerIds(answers[1..]);
    assert ids == [answers[0].id] + tail;
    assert forall i :: 0 <= i < |tail| ==> tail[i] == ids[i + 1];
    assert ids[0] !in tail;
  }

  /** A run of distinct, welcome answers is accepted and leaves the rest of the pending ids. */
  lemma {:induction false} AcceptsAnswers(answers: seq<Answer>, rest: seq<Message>, pending: set<string>)
    requires Distinct(AnswerIds(answers)) && AsSet(AnswerIds(answers)) <= pending
    ensures Accepts(Tools(answers) + rest, pending) == Accepts(rest, pending - AsSet(AnswerIds(answers)))
  {
    if answers == [] {
      assert Tools(answers) + rest == rest;
      assert pending - AsSet(AnswerIds(answers)) == pending;
    } else {
      FirstAnswer(answers);
      var lines := Tools(answers) + rest;
      assert lines[0] == Tool(answers[0]) && lines[1..] == Tools(answers[1..]) + rest;
      AcceptsAnswers(answers[1..], rest, pending - {answers[0].id});
      assert pending - {answers[0].id} - AsSet(AnswerIds(answers[1..])) == pending - AsSet(AnswerIds(answers));
    }
  }

  lemma {:induction false} KeptIds(block: Block)
    requires Sound(block)
    ensures AsSet(CallIds(block.Trim().head.calls)) == AsSet(block.Covered())
  {
    var kept, ids := block.Trim().head.calls, CallIds(block.Trim().head.calls);
    InKept(block.head.calls, AsSet(block.Covered()));
    forall x | x in AsSet(block.Covered()) ensures x in ids {
      assert x in block.Ids();
      var j :| 0 <= j < |block.Ids()| && block.Ids()[j] == x;
      assert block.head.calls[j] in kept;
      var p :| 0 <= p < |kept| && kept[p] == block.head.calls[j];
      assert ids[p] == x;
    }
    forall x | x in ids ensures x in AsSet(block.Covered()) {
      var p :| 0 <= p < |ids| && ids[p] == x;
      assert kept[p] in kept;
    }
  }

  lemma {:induction false} HeadAccepted(block: Block, rest: seq<Message>)
    requires Sound(block)
    ensures Accepts(block.Trim().Lines() + rest, {}) == Accepts(rest, {})
  {
    var trimmed, covered := block.Trim(), AsSet(block.Covered());
    KeptIds(block);
    AcceptsAnswers(trimmed.answers, rest, covered);
    assert covered - covered == {};
    assert (trimmed.Lines() + rest)[0] == Spoken(trimmed.head);
    assert (trimmed.Lines() + rest)[1..] == Tools(trimmed.answers) + rest;
  }

  /** Trimmed sound blocks, written out, are what the strict validator accepts. */
  lemma {:induction false} TrimmedAccepted(blocks: seq<Block>)
    requires AllSound(blocks)
    ensures StrictlyPaired(Flatten(TrimAll(blocks)))
  {
    if blocks != [] {
      assert TrimAll(blocks)[1..] == TrimAll(blocks[1..]);
      TrimmedAccepted(blocks[1..]);
      HeadAccepted(blocks[0], Flatten(TrimAll(blocks[1..])));
    }
  }

  lemma {:induction false} FlattenIdentified(blocks: seq<Block>)
    requires forall b :: 0 <= b < |blocks| ==> "" !in blocks[b].Ids()
    ensures Identified(Flatten(blocks))
  {
    if blocks != [] {
      FlattenIdentified(blocks[1..]);
      var lines := blocks[0].Lines();
      assert forall i :: 0 <= i < |lines| && lines[i].Spoken? ==> i == 0;
    }
  }

  /** Whenever the repair returns a list, the strict validator accepts it and every call has an id. */
  lemma {:induction false} RepairIsStrict(messages: seq<Message>)
    requires Repair(messages).Ok?
    ensures StrictlyPaired(Repair(messages).value)
    ensures Identified(Repair(messages).value)
  {
    var blocks := Settle(messages).blocks;
    SettleSound(messages);
    TrimmedAccepted(blocks);
    forall b | 0 <= b < |blocks| ensures "" !in TrimAll(blocks)[b].Ids() {
      var kept := blocks[b].Trim().head.calls;
      InKept(blocks[b].head.calls, AsSet(blocks[b].Covered()));
      forall p | 0 <= p < |kept| ensures kept[p].id != "" {
        assert kept[p] in kept;
        var q :| 0 <= q < |blocks[b].head.calls| && blocks[b].head.calls[q] == kept[p];
        assert blocks[b].Ids()[q] == kept[p].id;
      }
    }
    FlattenIdentified(TrimAll(blocks));
  }

  // ---- Fixpoint ------------------------------------------------------------------------------

  /** The main pass has read `done` without moving, filling or buffering anything; only the last turn may
      still wait for answers. */
  ghost predicate Undisturbed(s: State, done: seq<Message>) {
    && s.orphans == [] && Flatten(s.blocks) == done && AllSound(s.blocks)
    && forall b :: 0 <= b < |s.blocks| - 1 ==> s.blocks[b].Slots() == []
  }

  ghost function Pending(blocks: seq<Block>): set<string> {
    if blocks == [] then {} else AsSet(blocks[|blocks| - 1].Slots())
  }

  lemma {:induction false} SetOfSome(ids: seq<string>)
    requires ids != []
    ensures AsSet(ids) != {}
  {
    assert ids[0] in AsSet(ids);
  }

  ghost predicate Filled(blocks: seq<Block>) {
    forall b :: 0 <= b < |blocks| ==> blocks[b].Slots() == []
  }

  lemma {:induction false} NothingPending(blocks: seq<Block>)
    requires Pending(blocks) == {} && forall b :: 0 <= b < |blocks| - 1 ==> blocks[b].Slots() == []
    ensures Filled(blocks)
  {
    if blocks != [] && blocks[|blocks| - 1].Slots() != [] { SetOfSome(blocks[|blocks| - 1].Slots()); }
  }

  lemma {:induction false} NormalizeIdentified(turn: Turn, index: nat)
    requires "" !in CallIds(turn.calls)
    ensures Normalize(turn, index) == turn
  {
    forall p | 0 <= p < |turn.calls| ensures turn.calls[p].id != "" { assert CallIds(turn.calls)[p] != ""; }
    assert Normalize(turn, index).calls == turn.calls;
  }

  lemma {:induction false} FlattenNewTurn(blocks: seq<Block>, turn: Turn)
    ensures Flatten(blocks + [Block(turn, [])]) == Flatten(blocks) + [Spoken(turn)]
  {
    FlattenAppend(blocks, [Block(turn, [])]);
    assert Block(turn, []).Lines() == [Spoken(turn)];
    assert Flatten([Block(turn, [])]) == [Spoken(turn)];
  }

  lemma {:induction false} FreshBlock(turn: Turn)
    requires "" !in CallIds(turn.calls)
    ensures Sound(Block(turn, []))
    ensures AsSet(Block(turn, []).Slots()) == AsSet(CallIds(turn.calls))
  {
    assert Block(turn, []).Covered() == [];
    InSlots(Block(turn, []).Ids(), []);
  }

  lemma {:induction false} OneMoreBlock(blocks: seq<Block>, block: Block)
    requires AllSound(blocks) && Sound(block) && Filled(blocks)
    ensures var more := blocks + [block];
      AllSound(more) && Filled(more[..|blocks|]) && Pending(more) == AsSet(block.Slots())
  {
  }

  lemma {:induction false} ReadTurn(s: State, done: seq<Message>, turn: Turn)
    requires Undisturbed(s, done) && Pending(s.blocks) == {} && "" !in CallIds(turn.calls)
    ensures var t := Step(s, |done|, Spoken(turn));
      Undisturbed(t, done + [Spoken(turn)]) && Pending(t.blocks) == AsSet(CallIds(turn.calls))
  {
    var more := s.blocks + [Block(turn, [])];
    NormalizeIdentified(turn, |done|);
    FlattenNewTurn(s.blocks, turn);
    FreshBlock(turn);
    NothingPending(s.blocks);
    OneMoreBlock(s.blocks, Block(turn, []));
    assert forall b :: 0 <= b < |more| - 1 ==> more[b] == more[..|s.blocks|][b];
  }

  lemma {:induction false} SlotsAfterAnswer(block: Block, answer: Answer)
    requires answer.id in block.Slots()
    ensures block.Wants(answer.id)
    ensures AsSet(block.Attach(answer.id, answer.content).Slots()) == AsSet(block.Slots()) - {answer.id}
  {
    var grown := block.Attach(answer.id, answer.content);
    InSlots(block.Ids(), block.Covered());
    InSlots(grown.Ids(), grown.Covered());
    assert grown.Covered() == block.Covered() + [answer.id];
  }

  lemma {:induction false} ReadAnswer(s: State, done: seq<Message>, answer: Answer)
    requires Undisturbed(s, done) && answer.id in Pending(s.blocks)
    ensures var t := Step(s, |done|, Tool(answer));
      Undisturbed(t, done + [Tool(answer)]) && Pending(t.blocks) == Pending(s.blocks) - {answer.id}
  {
    var n := |s.blocks| - 1;
    SlotsAfterAnswer(s.blocks[n], answer);
    assert Sound(s.blocks[n]);
    assert LastNaming(s.blocks, answer.id) == n;
    FlattenAttachLast(s.blocks, answer);
    AttachKeepsSound(s.blocks, n, answer.id, answer.content);
  }

  lemma {:induction false} MainPassNext(messages: seq<Message>, message: Message)
    ensures MainPass(messages + [message]) == Step(MainPass(messages), |messages|, message)
  {
    assert (messages + [message])[..|messages|] == messages;
  }

  lemma {:induction false} ReadOne(s: State, done: seq<Message>, rest: seq<Message>, t: State)
    requires rest != [] && Undisturbed(s, done) && Accepts(rest, Pending(s.blocks)) && t == Step(s, |done|, rest[0])
    requires rest[0].Spoken? ==> "" !in CallIds(rest[0].turn.calls)
    ensures Undisturbed(t, done + [rest[0]]) && Accepts(rest[1..], Pending(t.blocks))
  {
    match rest[0] {
      case Spoken(turn) => ReadTurn(s, done, turn);
      case Tool(answer) => ReadAnswer(s, done, answer);
    }
  }

  /** If the validator accepts what is left, reading it disturbs nothing and leaves no call waiting. */
  lemma {:induction false} ReadRest(done: seq<Message>, rest: seq<Message>)
    requires Identified(done + rest)
    requires Undisturbed(MainPass(done), done) && Accepts(rest, Pending(MainPass(done).blocks))
    ensures Undisturbed(MainPass(done + rest), done + rest) && Pending(MainPass(done + rest).blocks) == {}
    decreases |rest|
  {
    if rest == [] {
      assert done + rest == done;
    } else {
      var next := done + [rest[0]];
      assert (done + rest)[|done|] == rest[0];
      assert next + rest[1..] == done + rest;
      MainPassNext(done, rest[0]);
      ReadOne(MainPass(done), done, rest, MainPass(next));
      ReadRest(next, rest[1..]);
    }
  }

  lemma {:induction false} FlattenAppend(left: seq<Block>, right: seq<Block>)
    ensures Flatten(left + right) == Flatten(left) + Flatten(right)
  {
    if left == [] {
      assert left + right == right;
    } else {
      assert (left + right)[1..] == left[1..] + right;
      FlattenAppend(left[1..], right);
    }
  }

  lemma {:induction false} FlattenAttachLast(blocks: seq<Block>, answer: Answer)
    requires blocks != []
    ensures Flatten(AttachTo(blocks, |blocks| - 1, answer.id, answer.content)) == Flatten(blocks) + [Tool(answer)]
  {
    var n := |blocks| - 1;
    var grown := blocks[n].Attach(answer.id, answer.content);
    assert blocks == blocks[..n] + [blocks[n]];
    assert AttachTo(blocks, n, answer.id, answer.content) == blocks[..n] + [grown];
    FlattenAppend(blocks[..n], [blocks[n]]);
    FlattenAppend(blocks[..n], [grown]);
    assert grown.Lines() == blocks[n].Lines() + [Tool(answer)];
    assert Flatten([grown]) == grown.Lines();
    assert Flatten([blocks[n]]) == blocks[n].Lines();
  }

  lemma {:induction false} KeepAll(calls: seq<Call>, ids: set<string>)
    requires AsSet(CallIds(calls)) <= ids
    ensures KeepCalls(calls, ids) == calls
  {
    if calls != [] {
      assert CallIds(calls)[0] == calls[0].id;
      assert CallIds(calls)[1..] == CallIds(calls[1..]);
      assert forall x :: x in CallIds(calls)[1..] ==> x in CallIds(calls);
      KeepAll(calls[1..], ids);
    }
  }

  lemma {:induction false} TrimFull(block: Block)
    requires block.Slots() == []
    ensures block.Trim() == block
  {
    InSlots(block.Ids(), block.Covered());
    forall x | x in AsSet(block.Ids()) ensures x in AsSet(block.Covered()) {
      assert x !in block.Slots();
    }
    KeepAll(block.head.calls, AsSet(block.Covered()));
  }

  lemma {:induction false} TrimFilled(blocks: seq<Block>)
    requires Filled(blocks)
    ensures TrimAll(blocks) == blocks
  {
    forall b | 0 <= b < |blocks| ensures blocks[b].Trim() == blocks[b] { TrimFull(blocks[b]); }
  }

  /** A list the strict validator accepts, with every call identified, comes back equal - even when
      turns reuse an id. */
  lemma {:induction false} RepairFixesStrict(messages: seq<Message>)
    requires StrictlyPaired(messages) && Identified(messages)
    ensures Repair(messages) == Ok(messages)
  {
    assert [] + messages == messages;
    ReadRest([], messages);
    var s := MainPass(messages);
    assert Settle(messages) == s;
    NothingPending(s.blocks);
    TrimFilled(s.blocks);
  }

  lemma {:induction false} RepairIsIdempotent(messages: seq<Message>)
    requires Repair(messages).Ok?
    ensures Repair(Repair(messages).value) == Repair(messages)
  {
    RepairIsStrict(messages);
    RepairFixesStrict(Repair(messages).value);
  }
}
