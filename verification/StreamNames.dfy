/** The names of streamed tool calls: those a client is told when a call is started against those that are persisted. */
module StreamNames {
  import opened StreamChunks

  /** A tool call as a client is first told of it: where it stands, its id, and its name as it was then. */
  datatype ToolStart = ToolStart(index: nat, id: CallId, name: string)

  /** The fragment brings the name of a call that was opened without one. */
  predicate BringsLateName(l: Ledger, f: Fragment, byName: bool)
    requires l.Valid()
  {
    !l.Opens(f, byName) && f.name != "" && l.calls[l.current[f.index]].name == ""
  }

  /** No call gets its name after it was opened. */
  predicate NamedInTime(fragments: seq<Fragment>, byName: bool) {
    fragments == [] ||
    var n := |fragments| - 1;
    NamedInTime(fragments[..n], byName) && !BringsLateName(Accumulate(fragments[..n], byName), fragments[n], byName)
  }

  /** Every block was started with the name its call has by now. */
  ghost predicate SameNames(starts: seq<ToolStart>, tools: seq<ToolState>) {
    |starts| == |tools| && forall k :: 0 <= k < |tools| ==> starts[k].name == tools[k].call.name
  }

  lemma {:induction false} OneStarted(starts: seq<ToolStart>, tools: seq<ToolState>, start: ToolStart, tool: ToolState)
    requires |starts| == |tools| && start.name == tool.call.name
    ensures SameNames(starts + [start], tools + [tool]) <==> SameNames(starts, tools)
  {
    var more, all := starts + [start], tools + [tool];
    assert forall k :: 0 <= k < |tools| ==> more[k] == starts[k] && all[k] == tools[k];
  }

  lemma {:induction false} OneNamed(starts: seq<ToolStart>, tools: seq<ToolState>, k: nat, tool: ToolState)
    requires |starts| == |tools| && k < |tools| && starts[k].name in ["", tools[k].call.name]
    requires tools[k].call.name != "" ==> tool.call.name == tools[k].call.name
    ensures SameNames(starts, tools[k := tool])
      <==> SameNames(starts, tools) && tool.call.name == tools[k].call.name
  {
    var others := tools[k := tool];
    assert others[k] == tool && forall j :: 0 <= j < |tools| && j != k ==> others[j] == tools[j];
  }

  lemma {:induction false} InTimeSnoc(fragments: seq<Fragment>, f: Fragment, byName: bool)
    ensures NamedInTime(fragments + [f], byName)
      <==> NamedInTime(fragments, byName) && !BringsLateName(Accumulate(fragments, byName), f, byName)
  {
    assert (fragments + [f])[..|fragments|] == fragments;
  }

  /** What the client was told as names against what is persisted. */
  ghost predicate NamesAsPersisted(starts: seq<ToolStart>, calls: seq<OpenCall>) {
    |starts| == |calls| && forall k :: 0 <= k < |calls| ==> starts[k].name == calls[k].name
  }

  lemma {:induction false} ClosedNames(starts: seq<ToolStart>, tools: seq<ToolState>)
    ensures NamesAsPersisted(starts, ClosedCalls(CallsIn(tools))) <==> SameNames(starts, tools)
  {
    var calls := ClosedCalls(CallsIn(tools));
    assert |calls| == |tools| && forall k :: 0 <= k < |tools| ==> calls[k].name == tools[k].call.name;
  }
}
