/** Upstream stream chunks and the three ways the gateway puts the tool calls of a stream together. */
module StreamChunks {
  import opened Messages

  /** One streamed piece of a tool call; a missing id, name or argument piece is "". */
  datatype Fragment = Fragment(index: int, id: string, name: string, arguments: string)

  datatype Choice = Choice(content: string, fragments: seq<Fragment>, finish: string)

  datatype Chunk = Chunk(choices: seq<Choice>) {
    function Piece(): string { if choices == [] then "" else choices[0].content }

    function Fragments(): seq<Fragment> { if choices == [] then [] else choices[0].fragments }

    function Finish(): string { if choices == [] then "" else choices[0].finish }
  }

  /** A call id: the provider's, or one the gateway made up. Made-up ids are never equal to others. */
  datatype CallId = Given(text: string) | Minted(serial: nat)

  datatype OpenCall = OpenCall(id: CallId, name: string, arguments: string)

  /** The assistant message that is persisted when a stream ends. */
  datatype Reply = Reply(content: Option<string>, calls: seq<OpenCall>)

  function OrObject(arguments: string): string { if arguments == "" then "{}" else arguments }

  function ClosedCalls(calls: seq<OpenCall>): (closed: seq<OpenCall>)
    ensures |closed| == |calls|
    ensures forall k :: 0 <= k < |calls| ==> closed[k] == calls[k].(arguments := OrObject(calls[k].arguments))
  {
    if calls == [] then []
    else ClosedCalls(calls[..|calls| - 1])
         + [calls[|calls| - 1].(arguments := OrObject(calls[|calls| - 1].arguments))]
  }

  function MakeReply(text: string, calls: seq<OpenCall>): Reply {
    Reply(if text == "" then None else Some(text), ClosedCalls(calls))
  }

  /** What is persisted has no content where there is no text, and "{}" for the arguments of a call without any. */
  lemma {:induction false} MadeReply(text: string, calls: seq<OpenCall>)
    ensures var reply := MakeReply(text, calls);
      && (text == "" ==> reply.content == None) && (text != "" ==> reply.content == Some(text))
      && |reply.calls| == |calls|
      && forall k :: 0 <= k < |calls| ==>
           && reply.calls[k].id == calls[k].id && reply.calls[k].name == calls[k].name
           && (calls[k].arguments != "" ==> reply.calls[k].arguments == calls[k].arguments)
           && (calls[k].arguments == "" ==> reply.calls[k].arguments == "{}")
  {
  }

  /** All text and all tool-call fragments of a stream, in order. */
  function JoinPieces(chunks: seq<Chunk>): string {
    if chunks == [] then "" else JoinPieces(chunks[..|chunks| - 1]) + chunks[|chunks| - 1].Piece()
  }

  function AllFragments(chunks: seq<Chunk>): seq<Fragment> {
    if chunks == [] then [] else AllFragments(chunks[..|chunks| - 1]) + chunks[|chunks| - 1].Fragments()
  }

  /** The chunk with its first choice only. */
  function FirstChoice(chunk: Chunk): Chunk {
    Chunk(if chunk.choices == [] then [] else [chunk.choices[0]])
  }

  function FirstChoices(chunks: seq<Chunk>): seq<Chunk> {
    seq(|chunks|, k requires 0 <= k < |chunks| => FirstChoice(chunks[k]))
  }

  /** A stream's chunks: the one fetched ahead, if any, and the rest. */
  function Upstream(first: Option<Chunk>, tail: seq<Chunk>): seq<Chunk> {
    (if first.Some? then [first.value] else []) + tail
  }

  /** A tool call being streamed: the number of its content block or output item, and what has arrived of it. */
  datatype ToolState = ToolState(place: nat, call: OpenCall)

  function CallsIn(tools: seq<ToolState>): (calls: seq<OpenCall>)
    ensures |calls| == |tools| && forall k :: 0 <= k < |tools| ==> calls[k] == tools[k].call
  {
    if tools == [] then [] else [tools[0].call] + CallsIn(tools[1..])
  }

  lemma {:induction false} CallsInSnoc(tools: seq<ToolState>, tool: ToolState)
    ensures CallsIn(tools + [tool]) == CallsIn(tools) + [tool.call]
  {
    var left, right := CallsIn(tools + [tool]), CallsIn(tools) + [tool.call];
    assert |left| == |right| && forall k :: 0 <= k < |left| ==> left[k] == right[k];
  }

  lemma {:induction false} CallsInUpdate(tools: seq<ToolState>, k: nat, tool: ToolState)
    requires k < |tools|
    ensures CallsIn(tools[k := tool]) == CallsIn(tools)[k := tool.call]
  {
    var left, right := CallsIn(tools[k := tool]), CallsIn(tools)[k := tool.call];
    assert |left| == |right| && forall j :: 0 <= j < |left| ==> left[j] == right[j];
  }

  lemma {:induction false} SplitLast<T>(left: seq<T>, right: seq<T>)
    requires right != []
    ensures left + right == left + right[..|right| - 1] + [right[|right| - 1]]
  {
  }

  lemma {:induction false} TakeOne<T>(done: seq<T>, tail: seq<T>, n: nat)
    requires n < |tail|
    ensures done + tail[..n + 1] == done + tail[..n] + [tail[n]]
  {
  }

  // ---- The Anthropic and Responses accumulator -----------------------------------------------------

  /** Calls in the order they were opened, and which call each upstream index currently feeds. */
  datatype Ledger = Ledger(calls: seq<OpenCall>, current: map<int, nat>) {
    ghost predicate Valid() { forall i :: i in current ==> current[i] < |calls| }

    /** A fragment opens a call when its index feeds none, when it carries another id, or - where names are
        compared - another name. */
    predicate Opens(f: Fragment, byName: bool)
      requires f.index in current ==> current[f.index] < |calls|
    {
      f.index !in current ||
      var call := calls[current[f.index]];
      || (f.id != "" && Given(f.id) != call.id)
      || (byName && f.name != "" && call.name != "" && f.name != call.name)
    }

    function Take(f: Fragment, byName: bool): (l: Ledger)
      requires Valid()
      ensures l.Valid()
    {
      if Opens(f, byName) then
        Ledger(calls + [OpenCall(if f.id != "" then Given(f.id) else Minted(|calls|), f.name, f.arguments)],
               current[f.index := |calls|])
      else
        var k := current[f.index];
        this.(calls := calls[k := calls[k].(name := if calls[k].name == "" then f.name else calls[k].name,
                                            arguments := calls[k].arguments + f.arguments)])
    }
  }

  function Accumulate(fragments: seq<Fragment>, byName: bool): (l: Ledger)
    ensures l.Valid()
  {
    if fragments == [] then Ledger([], map[])
    else Accumulate(fragments[..|fragments| - 1], byName).Take(fragments[|fragments| - 1], byName)
  }

  lemma {:induction false} AccumulateSnoc(fragments: seq<Fragment>, f: Fragment, byName: bool)
    ensures Accumulate(fragments + [f], byName) == Accumulate(fragments, byName).Take(f, byName)
  {
  }

  // ---- The same with the streamed tool states --------------------------------------------------------

  function Extended(tools: seq<ToolState>, k: nat, piece: string): seq<ToolState>
    requires k < |tools|
  {
    tools[k := tools[k].(call := tools[k].call.(arguments := tools[k].call.arguments + piece))]
  }

  /** `found`: the states with the call the fragment belongs to, added if need be, and named. */
  ghost predicate FoundFor(l: Ledger, tools: seq<ToolState>, f: Fragment, byName: bool, found: seq<ToolState>, k: nat)
    requires l.Valid()
  {
    if l.Opens(f, byName) then
      && k == |tools| && |found| == k + 1 && found == tools + [found[k]]
      && found[k].call == OpenCall(if f.id != "" then Given(f.id) else Minted(k), f.name, "")
    else
      && k == l.current[f.index] && k < |tools| == |found| && found == tools[k := found[k]]
      && found[k].call == tools[k].call.(name := if tools[k].call.name == "" then f.name else tools[k].call.name)
  }

  lemma {:induction false} ExtendedByNothing(tools: seq<ToolState>, k: nat)
    requires k < |tools|
    ensures Extended(tools, k, "") == tools
  {
    var call := tools[k].call;
    assert call.arguments + "" == call.arguments;
    assert call.(arguments := call.arguments) == call;
  }

  lemma {:induction false} ToolsTaken(
    tools: seq<ToolState>, current: map<int, nat>, f: Fragment, byName: bool, found: seq<ToolState>, k: nat)
    requires Ledger(CallsIn(tools), current).Valid() && k < |found|
    requires FoundFor(Ledger(CallsIn(tools), current), tools, f, byName, found, k)
    ensures Ledger(CallsIn(tools), current).Take(f, byName).calls == CallsIn(Extended(found, k, f.arguments))
  {
    var taken := Extended(found, k, f.arguments)[k];
    if Ledger(CallsIn(tools), current).Opens(f, byName) {
      CallsInSnoc(tools, taken);
      assert Extended(found, k, f.arguments) == tools + [taken];
      assert "" + f.arguments == f.arguments;
    } else {
      CallsInUpdate(tools, k, taken);
      assert Extended(found, k, f.arguments) == tools[k := taken];
    }
  }

  // ---- The chat accumulator ------------------------------------------------------------------------

  function TakeKeyed(states: map<int, OpenCall>, f: Fragment): map<int, OpenCall> {
    if f.index in states then
      states[f.index := states[f.index].(arguments := states[f.index].arguments + f.arguments)]
    else
      states[f.index := OpenCall(Given(f.id), f.name, f.arguments)]
  }

  function AccumulateKeyed(fragments: seq<Fragment>): map<int, OpenCall> {
    if fragments == [] then map[]
    else TakeKeyed(AccumulateKeyed(fragments[..|fragments| - 1]), fragments[|fragments| - 1])
  }

  ghost predicate IsMax(s: set<int>, m: int) {
    m in s && forall x :: x in s ==> x <= m
  }

  lemma {:induction false} Inhabited(s: set<int>)
    ensures s == {} || exists x :: x in s
  {
    if !exists x :: x in s { assert s == {}; }
  }

  lemma {:induction false} MaxExists(s: set<int>)
    requires s != {}
    ensures exists m :: IsMax(s, m)
  {
    Inhabited(s);
    var x :| x in s;
    var rest := s - {x};
    if rest == {} {
      assert forall y :: y in s && y != x ==> y in rest;
      assert IsMax(s, x);
    } else {
      MaxExists(rest);
      var m :| IsMax(rest, m);
      assert forall y :: y in s && y != x ==> y in rest;
      assert IsMax(s, if x > m then x else m);
    }
  }

  /** The members of `s` in increasing order. */
  ghost function Sorted(s: set<int>): (sorted: seq<int>)
    ensures forall x :: x in sorted <==> x in s
    ensures forall i, k :: 0 <= i < k < |sorted| ==> sorted[i] < sorted[k]
  {
    if s == {} then []
    else
      MaxExists(s);
      var m :| IsMax(s, m);
      var fewer := Sorted(s - {m});
      assert forall k :: 0 <= k < |fewer| ==> fewer[k] in s - {m};
      fewer + [m]
  }

  /** The calls by increasing index; one without an id gets a made-up id only now. */
  ghost function InIndexOrder(states: map<int, OpenCall>, indices: seq<int>): (calls: seq<OpenCall>)
    requires forall k :: 0 <= k < |indices| ==> indices[k] in states
    ensures |calls| == |indices|
  {
    if indices == [] then []
    else
      var n := |indices| - 1;
      var call := states[indices[n]];
      InIndexOrder(states, indices[..n]) + [if call.id == Given("") then call.(id := Minted(n)) else call]
  }
}
