/** `repair_tool_pairing` as it runs: one list that grows by insertion in the middle, and a record per turn
    whose list position is maintained by hand. Proved to compute ToolPairing.Repair. */
module ToolPairingRepair {
  import opened Messages
  import opened ToolPairing
  import opened ToolPairingValidity
  import opened ToolPairingAccounting

  datatype TurnRecord = TurnRecord(ids: seq<string>, covered: seq<string>, attached: nat, position: nat)

  function Size(blocks: seq<Block>): nat {
    if blocks == [] then 0 else 1 + |blocks[0].answers| + Size(blocks[1..])
  }

  lemma {:induction false} FlattenSize(blocks: seq<Block>)
    ensures |Flatten(blocks)| == Size(blocks)
  {
    if blocks != [] { FlattenSize(blocks[1..]); }
  }

  lemma {:induction false} SizeConcat(left: seq<Block>, right: seq<Block>)
    ensures Size(left + right) == Size(left) + Size(right)
  {
    if left == [] {
      assert left + right == right;
    } else {
      assert (left + right)[1..] == left[1..] + right;
      SizeConcat(left[1..], right);
    }
  }

  /** Blocks after the k-th start behind its last line, blocks up to it start before that. */
  lemma {:induction false} StartsAround(blocks: seq<Block>, k: nat, b: nat)
    requires k < |blocks| && b <= |blocks|
    ensures Size(blocks[..k + 1]) == Size(blocks[..k]) + 1 + |blocks[k].answers|
    ensures b > k ==> Size(blocks[..b]) >= Size(blocks[..k + 1])
    ensures b <= k ==> Size(blocks[..b]) <= Size(blocks[..k])
  {
    assert blocks[..k + 1] == blocks[..k] + [blocks[k]];
    SizeConcat(blocks[..k], [blocks[k]]);
    if b > k {
      assert blocks[..b] == blocks[..k + 1] + blocks[k + 1..b];
      SizeConcat(blocks[..k + 1], blocks[k + 1..b]);
    } else {
      assert blocks[..k] == blocks[..b] + blocks[b..k];
      SizeConcat(blocks[..b], blocks[b..k]);
    }
  }

  /** A further block behind all others leaves their starts where they are. */
  lemma {:induction false} StartsBefore(blocks: seq<Block>, block: Block)
    ensures forall b :: 0 <= b < |blocks| ==> (blocks + [block])[b] == blocks[b]
    ensures forall b :: 0 <= b < |blocks| ==> Size((blocks + [block])[..b]) == Size(blocks[..b])
    ensures Size((blocks + [block])[..|blocks|]) == |Flatten(blocks)|
    ensures block.answers == [] ==> block.Covered() == []
  {
    FlattenSize(blocks);
    assert (blocks + [block])[..|blocks|] == blocks;
    forall b | 0 <= b < |blocks| ensures Size((blocks + [block])[..b]) == Size(blocks[..b]) {
      assert (blocks + [block])[..b] == blocks[..b];
    }
  }

  lemma {:induction false} StartsAfterAttach(blocks: seq<Block>, k: nat, id: string, content: string, b: nat)
    requires k < |blocks| && b <= |blocks|
    ensures Size(AttachTo(blocks, k, id, content)[..b]) == Size(blocks[..b]) + if b > k then 1 else 0
  {
    var grown := AttachTo(blocks, k, id, content);
    if b <= k {
      assert grown[..b] == blocks[..b];
    } else {
      assert blocks[..b] == blocks[..k] + ([blocks[k]] + blocks[k + 1..b]);
      assert grown[..b] == blocks[..k] + ([grown[k]] + blocks[k + 1..b]);
      SizeConcat(blocks[..k], [blocks[k]] + blocks[k + 1..b]);
      SizeConcat(blocks[..k], [grown[k]] + blocks[k + 1..b]);
    }
  }

  lemma {:induction false} FlattenAround(before: seq<Block>, block: Block, after: seq<Block>)
    ensures Flatten(before + ([block] + after)) == Flatten(before) + (block.Lines() + Flatten(after))
  {
    FlattenAppend(before, [block] + after);
    assert Flatten([block] + after) == block.Lines() + Flatten(after);
  }

  lemma {:induction false} UpdateBetween<T>(left: seq<T>, x: T, right: seq<T>, y: T)
    ensures (left + ([x] + right))[|left| := y] == left + ([y] + right)
  {
  }

  lemma {:induction false} FlattenFromHead(block: Block, after: seq<Block>)
    ensures block.Lines() + Flatten(after) == [Spoken(block.head)] + (Tools(block.answers) + Flatten(after))
  {
  }

  lemma {:induction false} HeadAround(before: seq<Block>, block: Block, after: seq<Block>, head: Turn)
    ensures var lines := Flatten(before + ([block] + after));
      && Size(before) < |lines| && lines[Size(before)] == Spoken(block.head)
      && Flatten(before + ([block.(head := head)] + after)) == lines[Size(before) := Spoken(head)]
  {
    FlattenAround(before, block, after);
    FlattenAround(before, block.(head := head), after);
    FlattenSize(before);
    FlattenFromHead(block, after);
    FlattenFromHead(block.(head := head), after);
    UpdateBetween(Flatten(before), Spoken(block.head), Tools(block.answers) + Flatten(after), Spoken(head));
  }

  /** Replacing a turn's own message leaves every position where it was. */
  lemma {:induction false} FlattenNewHead(blocks: seq<Block>, k: nat, head: Turn)
    requires k < |blocks|
    ensures Size(blocks[..k]) < |Flatten(blocks)| && Flatten(blocks)[Size(blocks[..k])] == Spoken(blocks[k].head)
    ensures Flatten(blocks[k := blocks[k].(head := head)]) == Flatten(blocks)[Size(blocks[..k]) := Spoken(head)]
  {
    var before, block, after := blocks[..k], blocks[k], blocks[k + 1..];
    HeadAround(before, block, after, head);
    assert blocks == before + ([block] + after);
    assert blocks[k := block.(head := head)] == before + ([block.(head := head)] + after);
  }

  /** The calls whose id is not one of the open slots. */
  function Surviving(calls: seq<Call>, slots: seq<string>): seq<Call> {
    if calls == [] then []
    else (if calls[0].id !in slots then [calls[0]] else []) + Surviving(calls[1..], slots)
  }

  lemma {:induction false} SurvivingAreCovered(calls: seq<Call>, ids: seq<string>, covered: seq<string>)
    requires forall c :: c in calls ==> c.id in ids
    ensures Surviving(calls, OpenSlots(ids, covered)) == KeepCalls(calls, AsSet(covered))
  {
    if calls != [] {
      assert calls[0] in calls;
      assert forall c :: c in calls[1..] ==> c in calls;
      InSlots(ids, covered);
      SurvivingAreCovered(calls[1..], ids, covered);
    }
  }

  lemma {:induction false} CallsAreNamed(block: Block)
    ensures forall c :: c in block.head.calls ==> c.id in block.Ids()
  {
    forall c | c in block.head.calls ensures c.id in block.Ids() {
      var i :| 0 <= i < |block.head.calls| && block.head.calls[i] == c;
      assert block.Ids()[i] == c.id;
    }
  }

  lemma {:induction false} SameSize(left: seq<Block>, right: seq<Block>)
    requires |left| == |right| && forall b :: 0 <= b < |left| ==> left[b].answers == right[b].answers
    ensures Size(left) == Size(right)
  {
    if left != [] { SameSize(left[1..], right[1..]); }
  }

  ghost predicate InOrder(orphans: seq<Orphan>) {
    forall i, j :: 0 <= i < j < |orphans| ==> orphans[i].index < orphans[j].index
  }

  lemma {:induction false} InOrderWithout(left: seq<Orphan>, orphan: Orphan, right: seq<Orphan>)
    requires InOrder(left + ([orphan] + right))
    ensures InOrder(left + right)
  {
    var all, some := left + ([orphan] + right), left + right;
    forall i, j | 0 <= i < j < |some| ensures some[i].index < some[j].index {
      var i', j' := if i < |left| then i else i + 1, if j < |left| then j else j + 1;
      assert all[i'] == some[i] && all[j'] == some[j];
    }
  }

  class Repairer {
    var output: seq<Message>
    var turns: seq<TurnRecord>
    var orphans: seq<Orphan>
    ghost var blocks: seq<Block>
    ghost var home: seq<nat>

    /** The record of turn t describes block b: its message is at `position` and its answers fill the next
        `attached` places. */
    ghost predicate Describes(t: nat, b: nat)
      requires t < |turns|
      reads this
    {
      && b < |blocks| && blocks[b].head.calls != []
      && turns[t] == TurnRecord(blocks[b].Ids(), blocks[b].Covered(), |blocks[b].answers|, Size(blocks[..b]))
    }

    ghost predicate Valid()
      reads this
    {
      && output == Flatten(blocks)
      && |home| == |turns|
      && (forall t :: 0 <= t < |turns| ==> Describes(t, home[t]))
      && (forall t, u :: 0 <= t < u < |home| ==> home[t] < home[u])
      && (forall b :: 0 <= b < |blocks| && blocks[b].head.calls != [] ==> b in home)
    }

    ghost function View(): State
      reads this
    {
      State(blocks, orphans)
    }

    constructor ()
      ensures Valid() && View() == State([], [])
    {
      output, turns, orphans, blocks, home := [], [], [], [], [];
    }

    /** Moves every turn that sits at or behind `position` one place back, except turn t itself. */
    method ShiftBehind(t: nat, position: nat)
      modifies `turns
      ensures |turns| == |old(turns)|
      ensures forall u :: 0 <= u < |turns| ==> turns[u] == old(turns[u]).(position :=
        old(turns[u]).position + if u != t && old(turns[u]).position >= position then 1 else 0)
    {
      ghost var was := turns;
      for o := 0 to |turns|
        invariant |turns| == |was| && forall u :: o <= u < |was| ==> turns[u] == was[u]
        invariant forall u :: 0 <= u < o ==>
          turns[u] == was[u].(position := was[u].position + if u != t && was[u].position >= position then 1 else 0)
      {
        if o != t && turns[o].position >= position {
          turns := turns[o := turns[o].(position := turns[o].position + 1)];
        }
      }
    }

    method Insert(t: nat, answer: Answer)
      requires Valid() && t < |turns|
      modifies this
      ensures Valid() && home == old(home)
      ensures View() == old(View()).(blocks := AttachTo(old(blocks), home[t], answer.id, answer.content))
    {
      ghost var before, k := blocks, home[t];
      var position := turns[t].position + 1 + turns[t].attached;
      StartsAround(blocks, k, 0);
      FlattenAttach(blocks, k, answer.id, answer.content);
      FlattenSize(blocks[..k + 1]);
      output := output[..position] + [Tool(answer)] + output[position..];
      blocks := AttachTo(blocks, k, answer.id, answer.content);
      ShiftBehind(t, position);
      turns := turns[t := turns[t].(attached := turns[t].attached + 1, covered := turns[t].covered + [answer.id])];
      forall u | 0 <= u < |turns| ensures Describes(u, home[u]) {
        assert old(Describes(u, home[u]));
        StartsAround(before, k, home[u]);
        StartsAfterAttach(before, k, answer.id, answer.content, home[u]);
        if u == t { assert blocks[k].Covered() == before[k].Covered() + [answer.id]; }
      }
    }

    /** Every block behind turn t's is a later turn's, or has no calls at all. */
    lemma {:induction false} BehindTurn(t: int, b: nat)
      requires Valid() && -1 <= t < |turns| && b < |blocks| && (t >= 0 ==> home[t] < b)
      ensures (exists u :: t < u < |turns| && home[u] == b) || (blocks[b].Ids() == [] && blocks[b].Slots() == [])
    {
    }

    /** The turn an arriving result goes to (-1 for none) and the id it is bound to. */
    method Target(id: string) returns (target: int, boundId: string)
      requires Valid()
      ensures -1 <= target < |turns|
      ensures Bind(blocks, id) == if target < 0 then Unbound else Bound(home[target], boundId)
    {
      target, boundId := -1, id;
      if id != "" {
        var t := |turns| - 1;
        while t >= 0 && id !in turns[t].ids
          invariant -1 <= t < |turns|
          invariant forall u :: t < u < |turns| ==> id !in turns[u].ids
        {
          t := t - 1;
        }
        forall b: nat | b < |blocks| && (t >= 0 ==> home[t] < b) ensures id !in blocks[b].Ids() { BehindTurn(t, b); }
        assert LastNaming(blocks, id) == if t < 0 then -1 else home[t];
        if t >= 0 && id !in turns[t].covered {
          target := t;
        }
      }
      if target < 0 {
        var t := |turns| - 1;
        while t >= 0 && OpenSlots(turns[t].ids, turns[t].covered) == []
          invariant -1 <= t < |turns|
          invariant forall u :: t < u < |turns| ==> OpenSlots(turns[u].ids, turns[u].covered) == []
        {
          t := t - 1;
        }
        forall b: nat | b < |blocks| && (t >= 0 ==> home[t] < b) ensures blocks[b].Slots() == [] { BehindTurn(t, b); }
        assert LastOpen(blocks) == if t < 0 then -1 else home[t];
        if t >= 0 {
          target := t;
          boundId := OpenSlots(turns[t].ids, turns[t].covered)[0];
        }
      }
    }

    method AddTurn(named: Turn)
      requires Valid()
      modifies this
      ensures Valid() && View() == old(View()).(blocks := old(blocks) + [Block(named, [])])
    {
      ghost var before := blocks;
      FlattenNewTurn(blocks, named);
      StartsBefore(blocks, Block(named, []));
      if named.calls != [] {
        turns := turns + [TurnRecord(CallIds(named.calls), [], 0, |output|)];
        home := home + [|blocks|];
      }
      output := output + [Spoken(named)];
      blocks := blocks + [Block(named, [])];
      forall t | 0 <= t < |old(turns)| ensures Describes(t, home[t]) {
        assert old(Describes(t, home[t]));
      }
      if named.calls != [] { assert Describes(|turns| - 1, |before|) && home[|turns| - 1] == |before|; }
      forall b | 0 <= b < |blocks| && blocks[b].head.calls != [] ensures b in home {
        if b < |before| { assert b in old(home); }
      }
    }

    /** One round of the left-to-right pass. */
    method Receive(index: nat, message: Message)
      requires Valid()
      modifies this
      ensures Valid() && View() == Step(old(View()), index, message)
    {
      match message
      case Spoken(turn) => AddTurn(Normalize(turn, index));
      case Tool(answer) =>
        var target, boundId := Target(answer.id);
        if target < 0 {
          orphans := orphans + [Orphan(index, answer)];
        } else {
          Insert(target, Answer(boundId, answer.content));
        }
    }

    /** The last turn still waiting for `id`, or -1. */
    method TurnWaitingFor(id: string) returns (t: int)
      requires Valid()
      ensures -1 <= t < |turns|
      ensures LastWanting(blocks, id) == if t < 0 then -1 else home[t]
    {
      t := |turns| - 1;
      while t >= 0 && !(id in turns[t].ids && id !in turns[t].covered)
        invariant -1 <= t < |turns|
        invariant forall u :: t < u < |turns| ==> !(id in turns[u].ids && id !in turns[u].covered)
      {
        t := t - 1;
      }
      forall b: nat | b < |blocks| && (t >= 0 ==> home[t] < b) ensures !blocks[b].Wants(id) { BehindTurn(t, b); }
    }

    /** One round of the fold-in pass: `kept` results were left over, `rest` are still to come. */
    method FoldOne(orphan: Orphan, ghost kept: seq<Orphan>, ghost rest: seq<Orphan>)
      requires Valid() && orphans == kept + ([orphan] + rest) && InOrder(orphans)
      modifies this
      ensures Valid() && InOrder(orphans)
      ensures var after := FoldStep(State(old(blocks), kept), orphan);
        blocks == after.blocks && orphans == after.orphans + rest
    {
      var target := -1;
      if orphan.answer.id != "" {
        target := TurnWaitingFor(orphan.answer.id);
      }
      if target >= 0 {
        Insert(target, orphan.answer);
        assert orphan !in kept by {
          assert forall i :: 0 <= i < |kept| ==> orphans[i] == kept[i] && orphans[i].index < orphans[|kept|].index;
        }
        RemoveFirstFrom(kept, orphan, rest);
        orphans := RemoveFirst(orphans, orphan);
        InOrderWithout(kept, orphan, rest);
      } else {
        assert orphans == (kept + [orphan]) + rest;
      }
    }

    /** Folds the buffered results in and leaves the others buffered. */
    method FoldBuffered()
      requires Valid() && InOrder(orphans)
      modifies this
      ensures Valid() && View() == FoldPass(old(blocks), old(orphans))
    {
      var snapshot := orphans;
      ghost var kept := [];
      assert snapshot[..0] == [] && kept + snapshot == snapshot;
      for n := 0 to |snapshot|
        invariant Valid() && InOrder(orphans)
        invariant State(blocks, kept) == FoldPass(old(blocks), snapshot[..n])
        invariant orphans == kept + snapshot[n..]
      {
        FoldPassNext(old(blocks), snapshot, n);
        ghost var rest := snapshot[n + 1..];
        SuffixFrom(snapshot, n);
        ghost var after := FoldStep(State(blocks, kept), snapshot[n]);
        FoldOne(snapshot[n], kept, rest);
        kept := after.orphans;
      }
      assert snapshot[..|snapshot|] == snapshot;
    }

    /** Drops turn t's unanswered calls; `current` is what the output spells before that. */
    method DropDanglingOf(t: nat, ghost current: seq<Block>)
      requires t < |turns| && t < |home| && Describes(t, home[t]) && output == Flatten(current)
      requires |current| == |blocks| && current[home[t]] == blocks[home[t]]
      requires forall b :: 0 <= b < |blocks| ==> current[b].answers == blocks[b].answers
      modifies `output
      ensures output == Flatten(current[home[t] := blocks[home[t]].Trim()])
    {
      ghost var k := home[t];
      SameSize(blocks[..k], current[..k]);
      FlattenNewHead(current, k, blocks[k].Trim().head);
      var slots := OpenSlots(turns[t].ids, turns[t].covered);
      if slots != [] {
        CallsAreNamed(blocks[k]);
        SurvivingAreCovered(blocks[k].head.calls, blocks[k].Ids(), blocks[k].Covered());
        var original := output[turns[t].position].turn;
        var repaired := original.(calls := Surviving(original.calls, slots));
        output := output[turns[t].position := Spoken(repaired)];
      } else {
        TrimFull(blocks[k]);
        assert current[k := blocks[k]] == current;
      }
    }

    /** Drops the calls nobody answered from the messages that carry them. */
    method DropDangling()
      requires Valid()
      modifies `output
      ensures output == Flatten(TrimAll(blocks))
    {
      ghost var current := blocks;
      for t := 0 to |turns|
        invariant |current| == |blocks| && output == Flatten(current)
        invariant forall b :: 0 <= b < |blocks| ==>
          current[b] == if b in home[..t] then blocks[b].Trim() else blocks[b]
      {
        assert home[..t + 1] == home[..t] + [home[t]];
        DropDanglingOf(t, current);
        current := current[home[t] := blocks[home[t]].Trim()];
      }
      assert home[..|turns|] == home;
      assert current == TrimAll(blocks);
    }
  }

  /** What the repair answers for a request's raw `messages`; an entry that is no object at all is None. */
  function RepairEntries(entries: seq<Option<Message>>): Result<seq<Message>, PairingError> {
    var junk := FirstJunk(entries);
    if junk < |entries| then Err(NotAnObject(junk)) else Repair(Objects(entries))
  }

  /** The first entry that is no object is named, whatever else is wrong; without one the messages are repaired. */
  lemma {:induction false} JunkIsNamed(entries: seq<Option<Message>>, i: nat)
    requires i < |entries| && entries[i].None? && forall j :: 0 <= j < i ==> entries[j].Some?
    ensures RepairEntries(entries) == Err(NotAnObject(i))
  {
    assert FirstJunk(entries) == i;
  }

  function FirstJunk(entries: seq<Option<Message>>): (i: nat)
    ensures i <= |entries|
    ensures forall j :: 0 <= j < i ==> entries[j].Some?
    ensures i < |entries| ==> entries[i].None?
  {
    if entries == [] || entries[0].None? then 0 else 1 + FirstJunk(entries[1..])
  }

  function Objects(entries: seq<Option<Message>>): seq<Message>
    requires forall j :: 0 <= j < |entries| ==> entries[j].Some?
  {
    seq(|entries|, j requires 0 <= j < |entries| => entries[j].value)
  }

  lemma {:induction false} ObjectsNext(entries: seq<Option<Message>>, n: nat)
    requires n < FirstJunk(entries)
    ensures Objects(entries[..n + 1])[..n] == Objects(entries[..n]) && Objects(entries[..n + 1])[n] == entries[n].value
  {
  }

  /** The first pass, up to the first entry that is no object: its index, or the number of entries. */
  method ReadEntries(entries: seq<Option<Message>>) returns (repairer: Repairer, index: nat)
    ensures fresh(repairer) && repairer.Valid() && index == FirstJunk(entries)
    ensures repairer.View() == MainPass(Objects(entries[..index]))
  {
    repairer := new Repairer();
    index := 0;
    while index < |entries|
      invariant index <= FirstJunk(entries) && repairer.Valid() && fresh(repairer)
      invariant repairer.View() == MainPass(Objects(entries[..index]))
    {
      if entries[index].None? { return; }
      ObjectsNext(entries, index);
      repairer.Receive(index, entries[index].value);
      index := index + 1;
    }
  }

  method RepairToolPairing(entries: seq<Option<Message>>) returns (r: Result<seq<Message>, PairingError>)
    ensures r == RepairEntries(entries)
  {
    var repairer, index := ReadEntries(entries);
    if index < |entries| { return Err(NotAnObject(index)); }
    assert entries[..index] == entries;
    ghost var messages := Objects(entries);
    OrphansInOrder(messages);
    repairer.FoldBuffered();
    repairer.DropDangling();
    if repairer.orphans != [] {
      var bad := LeastIndex(repairer.orphans);
      FoldKeepsOrder(MainPass(messages).blocks, MainPass(messages).orphans);
      r := Err(Unpairable(bad));
    } else {
      r := Ok(repairer.output);
    }
  }

  method LeastIndex(orphans: seq<Orphan>) returns (least: nat)
    requires orphans != []
    ensures exists i :: 0 <= i < |orphans| && least == orphans[i].index
    ensures forall i :: 0 <= i < |orphans| ==> least <= orphans[i].index
  {
    least := orphans[0].index;
    for i := 1 to |orphans|
      invariant exists j :: 0 <= j < i && least == orphans[j].index
      invariant forall j :: 0 <= j < i ==> least <= orphans[j].index
    {
      if orphans[i].index < least {
        least := orphans[i].index;
      }
    }
  }

  lemma {:induction false} FoldKeepsOrder(blocks: seq<Block>, orphans: seq<Orphan>)
    requires InOrder(orphans)
    ensures InOrder(FoldPass(blocks, orphans).orphans)
    ensures forall o :: o in FoldPass(blocks, orphans).orphans ==> o in orphans
  {
    if orphans != [] {
      var rest, last := orphans[..|orphans| - 1], orphans[|orphans| - 1];
      FoldKeepsOrder(blocks, rest);
      forall o | o in rest ensures o in orphans && o.index < last.index {
        var i :| 0 <= i < |rest| && rest[i] == o;
        assert orphans[i] == o;
      }
      var kept := FoldPass(blocks, rest).orphans;
      forall i | 0 <= i < |kept| ensures kept[i].index < last.index { assert kept[i] in rest; }
    }
  }

  lemma {:induction false} SuffixFrom<T>(s: seq<T>, n: nat)
    requires n < |s|
    ensures s[n..] == [s[n]] + s[n + 1..]
  {
  }

  lemma {:induction false} FoldPassNext(blocks: seq<Block>, orphans: seq<Orphan>, n: nat)
    requires n < |orphans|
    ensures FoldPass(blocks, orphans[..n + 1]) == FoldStep(FoldPass(blocks, orphans[..n]), orphans[n])
  {
    assert orphans[..n + 1][..n] == orphans[..n];
  }

  function RemoveFirst<T(==)>(s: seq<T>, x: T): seq<T> {
    if s == [] then [] else if s[0] == x then s[1..] else [s[0]] + RemoveFirst(s[1..], x)
  }

  lemma {:induction false} RemoveFirstFrom<T>(left: seq<T>, x: T, right: seq<T>)
    requires x !in left
    ensures RemoveFirst(left + ([x] + right), x) == left + right
  {
    if left == [] {
      assert left + ([x] + right) == [x] + right && left + right == right;
    } else {
      assert (left + ([x] + right))[1..] == left[1..] + ([x] + right);
      RemoveFirstFrom(left[1..], x, right);
    }
  }
}
