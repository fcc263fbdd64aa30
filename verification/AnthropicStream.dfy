/** The Anthropic event stream: upstream chunks in, protocol frames out, one assistant message persisted. */
module AnthropicStream {
  import opened Messages
  import opened StreamChunks

  datatype Block = TextBlock | ToolBlock(id: CallId, name: string)

  datatype StopReason = EndTurn | MaxTokens | ToolUse

  datatype Frame =
    | MessageStart
    | BlockStart(index: nat, block: Block)
    | TextDelta(index: nat, text: string)
    | JsonDelta(index: nat, json: string)
    | BlockStop(index: nat)
    | MessageDelta(stopReason: StopReason)
    | MessageStop
    | ErrorFrame

  datatype Stream = Stream(
    sent: seq<Frame>,
    text: string,
    finish: string,
    textBlock: Option<nat>,
    tools: seq<ToolState>,
    current: map<int, nat>,
    next: nat)
  {
    function Send(frame: Frame): Stream { this.(sent := sent + [frame]) }

    function AsLedger(): Ledger { Ledger(CallsIn(tools), current) }

    ghost predicate Valid() { AsLedger().Valid() }
  }

  const START := Stream([MessageStart], "", "", None, [], map[], 0)

  function OpenText(s: Stream): Stream {
    if s.textBlock.Some? then s
    else s.(textBlock := Some(s.next), next := s.next + 1).Send(BlockStart(s.next, TextBlock))
  }

  function TakeText(s: Stream, piece: string): Stream {
    if piece == "" then s
    else
      var o := OpenText(s);
      o.(text := o.text + piece).Send(TextDelta(o.textBlock.GetOr(0), piece))
  }

  /** The call a fragment belongs to: a new one with its own block, or the one its index feeds. */
  function FindCall(s: Stream, f: Fragment): (r: (Stream, nat))
    requires s.Valid()
    ensures r.1 < |r.0.tools| && r.0.Valid()
  {
    if s.AsLedger().Opens(f, false) then
      var id := if f.id != "" then Given(f.id) else Minted(|s.tools|);
      (s.(tools := s.tools + [ToolState(s.next, OpenCall(id, f.name, ""))],
          current := s.current[f.index := |s.tools|],
          next := s.next + 1).Send(BlockStart(s.next, ToolBlock(id, f.name))), |s.tools|)
    else
      var k := s.current[f.index];
      var call := s.tools[k].call;
      (s.(tools := s.tools[k := s.tools[k].(call := call.(name := if call.name == "" then f.name else call.name))]), k)
  }

  function TakeArguments(s: Stream, k: nat, json: string): Stream
    requires k < |s.tools|
  {
    if json == "" then s
    else
      var tool := s.tools[k];
      s.(tools := s.tools[k := tool.(call := tool.call.(arguments := tool.call.arguments + json))])
       .Send(JsonDelta(tool.place, json))
  }

  function TakeFragment(s: Stream, f: Fragment): (t: Stream)
    requires s.Valid()
    ensures t.Valid()
  {
    var (o, k) := FindCall(s, f);
    TakeArguments(o, k, f.arguments)
  }

  function TakeFragments(s: Stream, fragments: seq<Fragment>): (t: Stream)
    requires s.Valid()
    ensures t.Valid()
  {
    if fragments == [] then s
    else TakeFragment(TakeFragments(s, fragments[..|fragments| - 1]), fragments[|fragments| - 1])
  }

  function Feed(s: Stream, chunk: Chunk): (t: Stream)
    requires s.Valid()
    ensures t.Valid()
  {
    var o := TakeText(s.(finish := if chunk.Finish() != "" then chunk.Finish() else s.finish), chunk.Piece());
    TakeFragments(o, chunk.Fragments())
  }

  function FeedAll(chunks: seq<Chunk>): (s: Stream)
    ensures s.Valid()
  {
    if chunks == [] then START else Feed(FeedAll(chunks[..|chunks| - 1]), chunks[|chunks| - 1])
  }

  function TranslateFinish(finish: string): StopReason {
    match finish
    case "length" => MaxTokens
    case "tool_calls" => ToolUse
    case _ => EndTurn
  }

  /** A turn that called tools always stops for them. */
  function StopReasonOf(s: Stream): StopReason {
    if s.tools != [] then ToolUse else TranslateFinish(s.finish)
  }

  function Stops(n: nat): seq<Frame> {
    if n == 0 then [] else Stops(n - 1) + [BlockStop(n - 1)]
  }

  function Ending(s: Stream, failed: bool): seq<Frame> {
    if failed then [ErrorFrame]
    else Stops(s.next) + [MessageDelta(StopReasonOf(s)), MessageStop]
  }

  /** Everything the client receives: after the last chunk the blocks are closed, after a failure nothing is. */
  function Trace(chunks: seq<Chunk>, failed: bool): seq<Frame> {
    FeedAll(chunks).sent + Ending(FeedAll(chunks), failed)
  }

  function Persisted(chunks: seq<Chunk>): Reply {
    var s := FeedAll(chunks);
    MakeReply(s.text, CallsIn(s.tools))
  }

  // ---- The stream as it runs -------------------------------------------------------------------

  class Writer {
    var sent: seq<Frame>
    var replyText: string
    var finishReason: string
    var textBlockIndex: Option<nat>
    var toolStates: seq<ToolState>
    var currentByIndex: map<int, nat>
    var nextBlockIndex: nat

    ghost function View(): Stream
      reads this
    {
      Stream(sent, replyText, finishReason, textBlockIndex, toolStates, currentByIndex, nextBlockIndex)
    }

    constructor ()
      ensures View() == START
    {
      sent, replyText, finishReason, textBlockIndex := [MessageStart], "", "", None;
      toolStates, currentByIndex, nextBlockIndex := [], map[], 0;
    }

    method WriteText(piece: string)
      modifies this
      ensures View() == TakeText(old(View()), piece)
    {
      if piece != "" {
        if textBlockIndex.None? {
          textBlockIndex := Some(nextBlockIndex);
          nextBlockIndex := nextBlockIndex + 1;
          sent := sent + [BlockStart(textBlockIndex.value, TextBlock)];
        }
        replyText := replyText + piece;
        sent := sent + [TextDelta(textBlockIndex.value, piece)];
      }
    }

    method WriteFragment(f: Fragment)
      requires View().Valid()
      modifies this
      ensures View() == TakeFragment(old(View()), f)
    {
      assert forall i :: i in currentByIndex ==> currentByIndex[i] < |CallsIn(toolStates)|;
      var k := |toolStates|;
      if f.index in currentByIndex {
        k := currentByIndex[f.index];
        if f.id != "" && Given(f.id) != toolStates[k].call.id {
          k := |toolStates|;
        }
      }
      assert View().AsLedger().Opens(f, false) <==> k == |toolStates|;
      if k == |toolStates| {
        var id := if f.id != "" then Given(f.id) else Minted(k);
        toolStates := toolStates + [ToolState(nextBlockIndex, OpenCall(id, f.name, ""))];
        currentByIndex := currentByIndex[f.index := k];
        sent := sent + [BlockStart(nextBlockIndex, ToolBlock(id, f.name))];
        nextBlockIndex := nextBlockIndex + 1;
      } else if f.name != "" && toolStates[k].call.name == "" {
        toolStates := toolStates[k := toolStates[k].(call := toolStates[k].call.(name := f.name))];
      } else {
        assert toolStates[k := toolStates[k]] == toolStates;
      }
      assert (View(), k) == FindCall(old(View()), f);
      if f.arguments != "" {
        var state := toolStates[k];
        toolStates := toolStates[k := state.(call := state.call.(arguments := state.call.arguments + f.arguments))];
        sent := sent + [JsonDelta(state.place, f.arguments)];
      }
    }

    method WriteFragments(fragments: seq<Fragment>)
      requires View().Valid()
      modifies this
      ensures View() == TakeFragments(old(View()), fragments)
    {
      for k := 0 to |fragments|
        invariant View() == TakeFragments(old(View()), fragments[..k])
      {
        TakeNext(old(View()), fragments, k);
        WriteFragment(fragments[k]);
      }
      assert fragments[..|fragments|] == fragments;
    }

    method FeedChunk(chunk: Chunk)
      requires View().Valid()
      modifies this
      ensures View() == Feed(old(View()), chunk)
    {
      if chunk.Finish() != "" {
        finishReason := chunk.Finish();
      }
      WriteText(chunk.Piece());
      WriteFragments(chunk.Fragments());
    }

    method FeedTail(tail: seq<Chunk>, ghost done: seq<Chunk>)
      requires View() == FeedAll(done)
      modifies this
      ensures View() == FeedAll(done + tail)
    {
      assert done + tail[..0] == done;
      for k := 0 to |tail|
        invariant View() == FeedAll(done + tail[..k])
      {
        TakeOne(done, tail, k);
        FeedSnoc(done + tail[..k], tail[k]);
        FeedChunk(tail[k]);
      }
      assert tail[..|tail|] == tail;
    }

    method CloseBlocks()
      modifies `sent
      ensures sent == old(sent) + Stops(nextBlockIndex)
    {
      for n := 0 to nextBlockIndex
        invariant sent == old(sent) + Stops(n)
      {
        sent := sent + [BlockStop(n)];
      }
    }

    /** Ends the stream: an error frame after a failure, otherwise every block and the message are closed. */
    method End(failed: bool)
      modifies `sent
      ensures sent == old(sent) + Ending(View(), failed)
    {
      if failed {
        sent := sent + [ErrorFrame];
      } else {
        CloseBlocks();
        var stopReason := if toolStates != [] then ToolUse else TranslateFinish(finishReason);
        sent := sent + [MessageDelta(stopReason)];
        sent := sent + [MessageStop];
      }
    }
  }

  lemma {:induction false} FeedFirst(chunk: Chunk)
    ensures FeedAll([chunk]) == Feed(START, chunk)
  {
  }

  lemma {:induction false} FeedSnoc(chunks: seq<Chunk>, chunk: Chunk)
    ensures FeedAll(chunks + [chunk]) == Feed(FeedAll(chunks), chunk)
  {
    assert (chunks + [chunk])[..|chunks|] == chunks;
  }

  lemma {:induction false} TakeNext(s: Stream, fragments: seq<Fragment>, n: nat)
    requires s.Valid() && n < |fragments|
    ensures TakeFragments(s, fragments[..n + 1]) == TakeFragment(TakeFragments(s, fragments[..n]), fragments[n])
  {
    assert fragments[..n + 1][..n] == fragments[..n];
  }

  /** Streams `first` (if any) and `tail`; with `failed` the upstream raises after the last of them. Returns
      the frames and the messages the completion callback received. */
  method BuildStreamEvents(first: Option<Chunk>, tail: seq<Chunk>, failed: bool)
    returns (frames: seq<Frame>, completed: seq<Reply>)
    ensures frames == Trace(Upstream(first, tail), failed)
    ensures completed == [Persisted(Upstream(first, tail))]
  {
    var writer := new Writer();
    ghost var done := [];
    if first.Some? {
      writer.FeedChunk(first.value);
      FeedFirst(first.value);
      done := [first.value];
    }
    writer.FeedTail(tail, done);
    writer.End(failed);
    frames := writer.sent;
    completed := [MakeReply(writer.replyText, CallsIn(writer.toolStates))];
  }
}
