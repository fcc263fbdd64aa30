/** Consequences a caller can rely on, and inputs on which the documented behaviour does not happen. */
module ToolPairingPromises {
  import opened Messages
  import opened ToolPairing
  import opened ToolPairingValidity
  import opened ToolPairingAccounting

  // ---- No more calls are removed than answers are missing ------------------------------------------

  function DistinctCalls(turns: seq<Turn>): nat {
    if turns == [] then 0
    else DistinctCalls(turns[..|turns| - 1]) + |AsSet(CallIds(turns[|turns| - 1].calls))|
  }

  lemma {:induction false} BalanceIsDifference(messages: seq<Message>)
    ensures Balance(messages) == |Contents(messages)| - DistinctCalls(NamedTurns(messages))
  {
    if messages != [] {
      var n := |messages| - 1;
      BalanceIsDifference(messages[..n]);
      ContentsSnoc(messages);
      assert |Contents([messages[n]])| == if messages[n].Tool? then 1 else 0;
      var front, named := NamedTurns(messages[..n]), NamedTurns(messages);
      if messages[n].Spoken? { assert named[..|named| - 1] == front; } else { assert named == front; }
    }
  }

  lemma {:induction false} NamedWhenIdentified(messages: seq<Message>)
    requires Identified(messages)
    ensures NamedTurns(messages) == Turns(messages)
  {
    if messages != [] {
      var n := |messages| - 1;
      NamedWhenIdentified(messages[..n]);
      TurnsConcat(messages[..n], [messages[n]]);
      assert messages == messages[..n] + [messages[n]];
      if messages[n].Spoken? { NormalizeIdentified(messages[n].turn, n); }
    }
  }

  /** A strictly paired list has as many tool results as distinct calls. */
  lemma {:induction false} StrictIsBalanced(messages: seq<Message>)
    requires StrictlyPaired(messages) && Identified(messages)
    ensures Balance(messages) == 0
  {
    assert [] + messages == messages;
    ReadRest([], messages);
    RoomIsSlack(messages);
    var blocks := MainPass(messages).blocks;
    if blocks != [] { NothingPending(blocks); }
    RoomOpen(blocks);
  }

  /** On success the repair removes exactly as many distinct calls as there are answers missing. */
  lemma {:induction false} RemovesOnlyTheMissing(messages: seq<Message>)
    requires Repair(messages).Ok?
    ensures DistinctCalls(NamedTurns(messages)) - DistinctCalls(Turns(Repair(messages).value))
         == DistinctCalls(NamedTurns(messages)) - |Contents(messages)|
         == -Balance(messages)
  {
    var repaired := Repair(messages).value;
    RepairIsStrict(messages);
    RepairConserves(messages);
    StrictIsBalanced(repaired);
    BalanceIsDifference(messages);
    BalanceIsDifference(repaired);
    NamedWhenIdentified(repaired);
  }

  // ---- Where the documentation promises more -------------------------------------------------------

  /** A result without an id that arrives when every earlier call is answered is refused, even if a later
      turn leaves calls open to which it could be bound. */
  lemma {:induction false} LateCallCannotAdoptNameless(messages: seq<Message>, index: nat)
    requires index < |messages| && messages[index].Tool? && messages[index].answer.id == ""
    requires IsRecord(messages, index)
    ensures Repair(messages).Err?
  {
    BufferedIffRecord(messages, index);
    OrphansInOrder(messages);
    RepairSucceedsExactly(messages);
    var s := MainPass(messages);
    assert IsBuffered(messages, index);
    var i :| 0 <= i < |s.orphans| && s.orphans[i].index == index;
    assert Unfoldable(s.blocks, s.orphans, i);
  }
}
