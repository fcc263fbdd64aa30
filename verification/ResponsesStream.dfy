/** The Responses event stream: output items are added as they first appear and completed at the end. */
module ResponsesStream {
  import opened Messages
  import opened StreamChunks

  /** Item ids are made up by the gateway: one text item at most, and one item per tool call. */
  datatype ItemId = TextItem | CallItem(serial: nat)

  datatype Item =
    | MessageItem(id: ItemId, text: string)
    | FunctionCallItem(id: ItemId, callId: CallId, name: string, arguments: string)

  datatype Frame =
    | Created
    | ItemAdded(output: nat, item: Item)
    | PartAdded(id: ItemId, output: nat)
    | TextDelta(id: ItemId, output: nat, delta: string)
    | ArgumentsDelta(id: ItemId, output: nat, delta: string)
    | TextDone(id: ItemId, output: nat, text: string)
    | PartDone(id: ItemId, output: nat, text: string)
    | ArgumentsDone(id: ItemId, output: nat, arguments: string)
    | ItemDone(output: nat, item: Item)
    | Completed(items: seq<Item>)
    | ErrorFrame

  /** The state of one stream; the item of call k has id CallItem(k). */
  datatype Stream = Stream(
    sent: seq<Frame>,
    text: string,
    textOutput: Option<nat>,
    tools: seq<ToolState>,
    current: map<int, nat>,
    next: nat)
  {
    function Send(frame: Frame): Stream { this.(sent := sent + [frame]) }

    function AsLedger(): Ledger { Ledger(CallsIn(tools), current) }

    ghost predicate Valid() { AsLedger().Valid() }
  }

  const START := Stream([Created], "", None, [], map[], 0)

  function OpenText(s: Stream): Stream {
    if s.textOutput.Some? then s
    else s.(textOutput := Some(s.next), next := s.next + 1)
          .Send(ItemAdded(s.next, MessageItem(TextItem, ""))).Send(PartAdded(TextItem, s.next))
  }

  function TakeText(s: Stream, piece: string): Stream {
    if piece == "" then s
    else
      var o := OpenText(s);
      o.(text := o.text + piece).Send(TextDelta(TextItem, o.textOutput.GetOr(0), piece))
  }

  /** The call a fragment belongs to: a new one with its own output item, or the one its index feeds. */
  function FindCall(s: Stream, f: Fragment): (r: (Stream, nat))
    requires s.Valid()
    ensures r.1 < |r.0.tools| && r.0.Valid()
  {
    if s.AsLedger().Opens(f, true) then
      var n := |s.tools|;
      var id := if f.id != "" then Given(f.id) else Minted(n);
      (s.(tools := s.tools + [ToolState(s.next, OpenCall(id, f.name, ""))],
          current := s.current[f.index := n],
          next := s.next + 1).Send(ItemAdded(s.next, FunctionCallItem(CallItem(n), id, f.name, ""))), n)
    else
      var k := s.current[f.index];
      var call := s.tools[k].call;
      (s.(tools := s.tools[k := s.tools[k].(call := call.(name := if call.name == "" then f.name else call.name))]), k)
  }

  function TakeArguments(s: Stream, k: nat, delta: string): Stream
    requires k < |s.tools|
  {
    if delta == "" then s
    else
      var tool := s.tools[k];
      s.(tools := s.tools[k := tool.(call := tool.call.(arguments := tool.call.arguments + delta))])
       .Send(ArgumentsDelta(CallItem(k), tool.place, delta))
  }

  function TakeFragment(s: Stream, f: Fragment): (t: Stream)
    requires s.Valid()
    ensures t.Valid()
  {
    var (o, k) := FindCall(s, f);
    TakeArguments(o, k, f.arguments)
  }

  function TakeFragments(s: Stream, fragments: seq<Fragment>): (t: Stream)
    requires s.Valid()
    ensures t.Valid()
  {
    if fragments == [] then s
    else TakeFragment(TakeFragments(s, fragments[..|fragments| - 1]), fragments[|fragments| - 1])
  }

  function Feed(s: Stream, chunk: Chunk): (t: Stream)
    requires s.Valid()
    ensures t.Valid()
  {
    TakeFragments(TakeText(s, chunk.Piece()), chunk.Fragments())
  }

  function FeedAll(chunks: seq<Chunk>): (s: Stream)
    ensures s.Valid()
  {
    if chunks == [] then START else Feed(FeedAll(chunks[..|chunks| - 1]), chunks[|chunks| - 1])
  }

  function DoneItem(tools: seq<ToolState>, k: nat): Item
    requires k < |tools|
  {
    FunctionCallItem(CallItem(k), tools[k].call.id, tools[k].call.name, OrObject(tools[k].call.arguments))
  }

  /** The completed calls, in the order they were opened. */
  function DoneItems(tools: seq<ToolState>, n: nat): seq<Item>
    requires n <= |tools|
  {
    if n == 0 then [] else DoneItems(tools, n - 1) + [DoneItem(tools, n - 1)]
  }

  function TextClosing(s: Stream): seq<Frame> {
    if s.textOutput.None? then []
    else [TextDone(TextItem, s.textOutput.value, s.text), PartDone(TextItem, s.textOutput.value, s.text)]
  }

  function CallClosings(tools: seq<ToolState>, n: nat): seq<Frame>
    requires n <= |tools|
  {
    if n == 0 then []
    else
      var item := DoneItem(tools, n - 1);
      CallClosings(tools, n - 1) + [ArgumentsDone(item.id, tools[n - 1].place, item.arguments)]
                                 + [ItemDone(tools[n - 1].place, item)]
  }

  function TextItemDone(s: Stream): seq<Frame> {
    if s.textOutput.None? then [] else [ItemDone(s.textOutput.value, MessageItem(TextItem, s.text))]
  }

  /** The response object's output: the text item first, whatever its output index is, then the calls. */
  function FinalOutput(s: Stream): seq<Item> {
    (if s.textOutput.None? then [] else [MessageItem(TextItem, s.text)]) + DoneItems(s.tools, |s.tools|)
  }

  function Closed(s: Stream): Stream {
    s.(sent := s.sent + TextClosing(s) + CallClosings(s.tools, |s.tools|) + TextItemDone(s))
     .Send(Completed(FinalOutput(s)))
  }

  function Trace(chunks: seq<Chunk>, failed: bool): seq<Frame> {
    if failed then FeedAll(chunks).sent + [ErrorFrame] else Closed(FeedAll(chunks)).sent
  }

  function Persisted(chunks: seq<Chunk>): Reply {
    MakeReply(FeedAll(chunks).text, CallsIn(FeedAll(chunks).tools))
  }

  // ---- The stream as it runs -------------------------------------------------------------------

  class Writer {
    var sent: seq<Frame>
    var replyText: string
    var textOutputIndex: Option<nat>
    var toolStates: seq<ToolState>
    var currentByIndex: map<int, nat>
    var nextOutputIndex: nat

    ghost function View(): Stream
      reads this
    {
      Stream(sent, replyText, textOutputIndex, toolStates, currentByIndex, nextOutputIndex)
    }

    constructor ()
      ensures View() == START
    {
      sent, replyText, textOutputIndex := [Created], "", None;
      toolStates, currentByIndex, nextOutputIndex := [], map[], 0;
    }

    method WriteText(piece: string)
      modifies this
      ensures View() == TakeText(old(View()), piece)
    {
      if piece != "" {
        if textOutputIndex.None? {
          textOutputIndex := Some(nextOutputIndex);
          nextOutputIndex := nextOutputIndex + 1;
          sent := sent + [ItemAdded(textOutputIndex.value, MessageItem(TextItem, ""))];
          sent := sent + [PartAdded(TextItem, textOutputIndex.value)];
        }
        replyText := replyText + piece;
        sent := sent + [TextDelta(TextItem, textOutputIndex.value, piece)];
      }
    }

    method WriteFragment(f: Fragment)
      requires View().Valid()
      modifies this
      ensures View() == TakeFragment(old(View()), f)
    {
      assert forall i :: i in currentByIndex ==> currentByIndex[i] < |CallsIn(toolStates)|;
      var k := |toolStates|;
      if f.index in currentByIndex {
        k := currentByIndex[f.index];
        var call := toolStates[k].call;
        if f.id != "" && Given(f.id) != call.id {
          k := |toolStates|;
        }
        if f.name != "" && call.name != "" && f.name != call.name {
          k := |toolStates|;
        }
      }
      assert View().AsLedger().Opens(f, true) <==> k == |toolStates|;
      if k == |toolStates| {
        var id := if f.id != "" then Given(f.id) else Minted(k);
        toolStates := toolStates + [ToolState(nextOutputIndex, OpenCall(id, f.name, ""))];
        currentByIndex := currentByIndex[f.index := k];
        sent := sent + [ItemAdded(nextOutputIndex, FunctionCallItem(CallItem(k), id, f.name, ""))];
        nextOutputIndex := nextOutputIndex + 1;
      } else if f.name != "" && toolStates[k].call.name == "" {
        toolStates := toolStates[k := toolStates[k].(call := toolStates[k].call.(name := f.name))];
      } else {
        assert toolStates[k := toolStates[k]] == toolStates;
      }
      assert (View(), k) == FindCall(old(View()), f);
      if f.arguments != "" {
        var state := toolStates[k];
        toolStates := toolStates[k := state.(call := state.call.(arguments := state.call.arguments + f.arguments))];
        sent := sent + [ArgumentsDelta(CallItem(k), state.place, f.arguments)];
      }
    }

    method WriteFragments(fragments: seq<Fragment>)
      requires View().Valid()
      modifies this
      ensures View() == TakeFragments(old(View()), fragments)
    {
      for k := 0 to |fragments|
        invariant View() == TakeFragments(old(View()), fragments[..k])
      {
        TakeNext(old(View()), fragments, k);
        WriteFragment(fragments[k]);
      }
      assert fragments[..|fragments|] == fragments;
    }

    method FeedChunk(chunk: Chunk)
      requires View().Valid()
      modifies this
      ensures View() == Feed(old(View()), chunk)
    {
      WriteText(chunk.Piece());
      WriteFragments(chunk.Fragments());
    }

    method FeedTail(tail: seq<Chunk>, ghost done: seq<Chunk>)
      requires View() == FeedAll(done)
      modifies this
      ensures View() == FeedAll(done + tail)
    {
      assert done + tail[..0] == done;
      for k := 0 to |tail|
        invariant View() == FeedAll(done + tail[..k])
      {
        TakeOne(done, tail, k);
        FeedSnoc(done + tail[..k], tail[k]);
        FeedChunk(tail[k]);
      }
      assert tail[..|tail|] == tail;
    }

    method CloseCalls(completed: seq<Item>) returns (items: seq<Item>)
      modifies `sent
      ensures sent == old(sent) + CallClosings(toolStates, |toolStates|)
      ensures items == completed + DoneItems(toolStates, |toolStates|)
    {
      items := completed;
      for k := 0 to |toolStates|
        invariant sent == old(sent) + CallClosings(toolStates, k)
        invariant items == completed + DoneItems(toolStates, k)
      {
        var call := toolStates[k].call;
        var item := FunctionCallItem(CallItem(k), call.id, call.name, OrObject(call.arguments));
        sent := sent + [ArgumentsDone(CallItem(k), toolStates[k].place, item.arguments)];
        sent := sent + [ItemDone(toolStates[k].place, item)];
        items := items + [item];
      }
    }

    method Close()
      modifies `sent
      ensures View() == Closed(old(View()))
    {
      var completed: seq<Item> := [];
      if textOutputIndex.Some? {
        sent := sent + [TextDone(TextItem, textOutputIndex.value, replyText)];
        sent := sent + [PartDone(TextItem, textOutputIndex.value, replyText)];
        completed := [MessageItem(TextItem, replyText)];
      }
      assert sent == old(sent) + TextClosing(View());
      completed := CloseCalls(completed);
      if textOutputIndex.Some? {
        sent := sent + [ItemDone(textOutputIndex.value, MessageItem(TextItem, replyText))];
      }
      assert sent == old(sent + TextClosing(View()) + CallClosings(toolStates, |toolStates|) + TextItemDone(View()));
      sent := sent + [Completed(completed)];
    }
  }

  lemma {:induction false} FeedFirst(chunk: Chunk)
    ensures FeedAll([chunk]) == Feed(START, chunk)
  {
  }

  lemma {:induction false} FeedSnoc(chunks: seq<Chunk>, chunk: Chunk)
    ensures FeedAll(chunks + [chunk]) == Feed(FeedAll(chunks), chunk)
  {
    assert (chunks + [chunk])[..|chunks|] == chunks;
  }

  lemma {:induction false} TakeNext(s: Stream, fragments: seq<Fragment>, n: nat)
    requires s.Valid() && n < |fragments|
    ensures TakeFragments(s, fragments[..n + 1]) == TakeFragment(TakeFragments(s, fragments[..n]), fragments[n])
  {
    assert fragments[..n + 1][..n] == fragments[..n];
  }

  /** Streams `first` (if any) and `tail`; with `failed` the upstream raises after the last of them. Returns
      the frames and the messages the completion callback received. */
  method BuildStreamEvents(first: Option<Chunk>, tail: seq<Chunk>, failed: bool)
    returns (frames: seq<Frame>, completed: seq<Reply>)
    ensures frames == Trace(Upstream(first, tail), failed)
    ensures completed == [Persisted(Upstream(first, tail))]
  {
    var writer := new Writer();
    ghost var done := [];
    if first.Some? {
      writer.FeedChunk(first.value);
      FeedFirst(first.value);
      done := [first.value];
    }
    writer.FeedTail(tail, done);
    if failed {
      frames := writer.sent + [ErrorFrame];
    } else {
      writer.Close();
      frames := writer.sent;
    }
    completed := [MakeReply(writer.replyText, CallsIn(writer.toolStates))];
  }
}
