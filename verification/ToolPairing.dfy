/** The meaning of `repair_tool_pairing`, stated on blocks: a turn together with the tool results that
    follow it. Nothing here knows about list positions. */
module ToolPairing {
  import opened Messages

  datatype Block = Block(head: Turn, answers: seq<Answer>) {
    function Ids(): seq<string> { CallIds(head.calls) }

    function Covered(): seq<string> { AnswerIds(answers) }

    predicate Wants(id: string) { id in Ids() && id !in Covered() }

    function Slots(): seq<string> { OpenSlots(Ids(), Covered()) }

    function Lines(): seq<Message> { [Spoken(head)] + Tools(answers) }

    function Attach(id: string, content: string): Block { this.(answers := answers + [Answer(id, content)]) }

    /** The block without the calls nobody answered. */
    function Trim(): Block { this.(head := head.(calls := KeepCalls(head.calls, AsSet(Covered())))) }
  }

  /** A buffered tool result and the index at which it arrived. */
  datatype Orphan = Orphan(index: nat, answer: Answer)

  datatype State = State(blocks: seq<Block>, orphans: seq<Orphan>)

  datatype Binding = Unbound | Bound(block: nat, id: string)

  datatype PairingError = NotAnObject(index: nat) | Unpairable(index: nat)

  function Tools(answers: seq<Answer>): seq<Message> {
    seq(|answers|, i requires 0 <= i < |answers| => Tool(answers[i]))
  }

  function Flatten(blocks: seq<Block>): seq<Message> {
    if blocks == [] then [] else blocks[0].Lines() + Flatten(blocks[1..])
  }

  function OpenSlots(ids: seq<string>, covered: seq<string>): seq<string> {
    if ids == [] then []
    else (if ids[0] in covered then [] else [ids[0]]) + OpenSlots(ids[1..], covered)
  }

  function KeepCalls(calls: seq<Call>, ids: set<string>): seq<Call> {
    if calls == [] then []
    else (if calls[0].id in ids then [calls[0]] else []) + KeepCalls(calls[1..], ids)
  }

  lemma {:induction false} InSlots(ids: seq<string>, covered: seq<string>)
    ensures forall x :: x in OpenSlots(ids, covered) <==> x in ids && x !in covered
  {
    if ids != [] { InSlots(ids[1..], covered); }
  }

  lemma {:induction false} InKept(calls: seq<Call>, ids: set<string>)
    ensures forall c :: c in KeepCalls(calls, ids) <==> c in calls && c.id in ids
  {
    if calls != [] { InKept(calls[1..], ids); }
  }

  function MissingId(index: nat, position: nat): (id: string)
    ensures id != ""
  {
    "call_missing_" + Decimal(index) + "_" + Decimal(position)
  }

  /** Calls with a synthetic id wherever the id was missing. */
  function Normalize(turn: Turn, index: nat): (named: Turn)
    ensures |named.calls| == |turn.calls|
    ensures forall p :: 0 <= p < |turn.calls| ==>
      named.calls[p] == if turn.calls[p].id != "" then turn.calls[p] else turn.calls[p].(id := MissingId(index, p))
  {
    turn.(calls := seq(|turn.calls|, p requires 0 <= p < |turn.calls| =>
      if turn.calls[p].id != "" then turn.calls[p] else turn.calls[p].(id := MissingId(index, p))))
  }

  /** The last block with a call named `id`, or -1. */
  function LastNaming(blocks: seq<Block>, id: string): (k: int)
    ensures -1 <= k < |blocks|
    ensures k >= 0 ==> id in blocks[k].Ids()
    ensures forall j :: k < j < |blocks| ==> id !in blocks[j].Ids()
  {
    if blocks == [] then -1
    else if id in blocks[|blocks| - 1].Ids() then |blocks| - 1
    else LastNaming(blocks[..|blocks| - 1], id)
  }

  /** The last block with an unanswered call named `id`, or -1. */
  function LastWanting(blocks: seq<Block>, id: string): (k: int)
    ensures -1 <= k < |blocks|
    ensures k >= 0 ==> blocks[k].Wants(id)
    ensures forall j :: k < j < |blocks| ==> !blocks[j].Wants(id)
  {
    if blocks == [] then -1
    else if blocks[|blocks| - 1].Wants(id) then |blocks| - 1
    else LastWanting(blocks[..|blocks| - 1], id)
  }

  /** The last block with any unanswered call, or -1. */
  function LastOpen(blocks: seq<Block>): (k: int)
    ensures -1 <= k < |blocks|
    ensures k >= 0 ==> blocks[k].Slots() != []
    ensures forall j :: k < j < |blocks| ==> blocks[j].Slots() == []
  {
    if blocks == [] then -1
    else if blocks[|blocks| - 1].Slots() != [] then |blocks| - 1
    else LastOpen(blocks[..|blocks| - 1])
  }

  /** Where an arriving tool result goes: to the last turn naming its id if that call is unanswered,
      otherwise to the first unanswered call of the last turn that has one. */
  function Bind(blocks: seq<Block>, id: string): (b: Binding)
    ensures b.Bound? ==> b.block < |blocks| && blocks[b.block].Wants(b.id)
  {
    var named := LastNaming(blocks, id);
    if id != "" && named >= 0 && id !in blocks[named].Covered() then Bound(named, id)
    else
      var open := LastOpen(blocks);
      if open < 0 then Unbound
      else
        InSlots(blocks[open].Ids(), blocks[open].Covered());
        assert blocks[open].Slots()[0] in blocks[open].Slots();
        Bound(open, blocks[open].Slots()[0])
  }

  function AttachTo(blocks: seq<Block>, k: nat, id: string, content: string): seq<Block>
    requires k < |blocks|
  {
    blocks[k := blocks[k].Attach(id, content)]
  }

  function Step(s: State, index: nat, message: Message): State {
    match message
    case Spoken(turn) => s.(blocks := s.blocks + [Block(Normalize(turn, index), [])])
    case Tool(answer) =>
      match Bind(s.blocks, answer.id)
      case Unbound => s.(orphans := s.orphans + [Orphan(index, answer)])
      case Bound(k, id) => s.(blocks := AttachTo(s.blocks, k, id, answer.content))
  }

  function MainPass(messages: seq<Message>): State {
    if messages == [] then State([], [])
    else
      var n := |messages| - 1;
      Step(MainPass(messages[..n]), n, messages[n])
  }

  function FoldStep(s: State, orphan: Orphan): State {
    var k := if orphan.answer.id == "" then -1 else LastWanting(s.blocks, orphan.answer.id);
    if k < 0 then s.(orphans := s.orphans + [orphan])
    else s.(blocks := AttachTo(s.blocks, k, orphan.answer.id, orphan.answer.content))
  }

  /** Folds buffered results into the turns that claimed their ids later; `orphans` keeps those it cannot. */
  function FoldPass(blocks: seq<Block>, orphans: seq<Orphan>): State {
    if orphans == [] then State(blocks, [])
    else FoldStep(FoldPass(blocks, orphans[..|orphans| - 1]), orphans[|orphans| - 1])
  }

  function TrimAll(blocks: seq<Block>): (trimmed: seq<Block>)
    ensures |trimmed| == |blocks|
  {
    seq(|blocks|, i requires 0 <= i < |blocks| => blocks[i].Trim())
  }

  function Settle(messages: seq<Message>): State {
    var s := MainPass(messages);
    FoldPass(s.blocks, s.orphans)
  }

  function Repair(messages: seq<Message>): Result<seq<Message>, PairingError> {
    var s := Settle(messages);
    if s.orphans != [] then Err(Unpairable(s.orphans[0].index)) else Ok(Flatten(TrimAll(s.blocks)))
  }
}
