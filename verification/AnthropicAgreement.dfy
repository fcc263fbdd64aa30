/** What an Anthropic client sees is well-formed and agrees with what is persisted, after a failure too. */
module AnthropicAgreement {
  import opened Messages
  import opened StreamChunks
  import opened AnthropicStream
  import opened StreamNames

  // ---- What a client reads off the frames ------------------------------------------------------

  function TextIn(frame: Frame): string { if frame.TextDelta? then frame.text else "" }

  function JsonIn(frame: Frame, index: nat): string {
    if frame.JsonDelta? && frame.index == index then frame.json else ""
  }

  function Texts(frames: seq<Frame>): string {
    if frames == [] then "" else Texts(frames[..|frames| - 1]) + TextIn(frames[|frames| - 1])
  }

  function Jsons(frames: seq<Frame>, index: nat): string {
    if frames == [] then "" else Jsons(frames[..|frames| - 1], index) + JsonIn(frames[|frames| - 1], index)
  }

  function Started(frames: seq<Frame>): seq<Block> {
    if frames == [] then []
    else
      var n := |frames| - 1;
      Started(frames[..n]) + if frames[n].BlockStart? then [frames[n].block] else []
  }

  /** The tool blocks in the order they were started. */
  function ToolStarts(frames: seq<Frame>): seq<ToolStart> {
    if frames == [] then []
    else
      var n := |frames| - 1;
      ToolStarts(frames[..n]) + ToolStartIn(frames[n])
  }

  function ToolStartIn(frame: Frame): seq<ToolStart> {
    if frame.BlockStart? && frame.block.ToolBlock?
    then [ToolStart(frame.index, frame.block.id, frame.block.name)] else []
  }

  /** The protocol's grammar as an automaton: a message starts, blocks start with consecutive numbers (one
      text block at most), deltas fit a started block; then either an error ends it, or every block is
      stopped once in order and the message is closed. */
  datatype Phase = Begin | Open(blocks: seq<Block>, stopped: nat) | Closing | Done | Failed | Broken

  function Advance(phase: Phase, frame: Frame): Phase {
    match phase
    case Begin => if frame.MessageStart? then Open([], 0) else Broken
    case Open(blocks, stopped) =>
      (match frame
       case BlockStart(index, block) =>
         if stopped == 0 && index == |blocks| && (block == TextBlock ==> TextBlock !in blocks)
         then Open(blocks + [block], 0)
         else Broken
       case TextDelta(index, _) =>
         if stopped == 0 && index < |blocks| && blocks[index].TextBlock? then phase else Broken
       case JsonDelta(index, _) =>
         if stopped == 0 && index < |blocks| && blocks[index].ToolBlock? then phase else Broken
       case BlockStop(index) => if index == stopped < |blocks| then Open(blocks, stopped + 1) else Broken
       case MessageDelta(_) => if stopped == |blocks| then Closing else Broken
       case ErrorFrame => if stopped == 0 then Failed else Broken
       case _ => Broken)
    case Closing => if frame.MessageStop? then Done else Broken
    case _ => Broken
  }

  function Parse(frames: seq<Frame>): Phase {
    if frames == [] then Begin else Advance(Parse(frames[..|frames| - 1]), frames[|frames| - 1])
  }

  lemma {:induction false} Sent(frames: seq<Frame>, frame: Frame)
    ensures var more := frames + [frame];
      && Texts(more) == Texts(frames) + TextIn(frame)
      && (forall i: nat :: Jsons(more, i) == Jsons(frames, i) + JsonIn(frame, i))
      && Started(more) == Started(frames) + (if frame.BlockStart? then [frame.block] else [])
      && ToolStarts(more) == ToolStarts(frames) + ToolStartIn(frame)
      && Parse(more) == Advance(Parse(frames), frame)
  {
  }

  // ---- The invariant of the stream ---------------------------------------------------------------

  ghost predicate GrammarHolds(s: Stream) {
    && Parse(s.sent) == Open(Started(s.sent), 0) && |Started(s.sent)| == s.next
    && (s.textBlock.None? ==> TextBlock !in Started(s.sent))
    && (s.textBlock.Some? ==> s.textBlock.value < s.next && Started(s.sent)[s.textBlock.value] == TextBlock)
  }

  ghost predicate TextHolds(s: Stream) {
    Texts(s.sent) == s.text && (s.text == "" <==> s.textBlock.None?)
  }

  ghost predicate ToolHolds(s: Stream, k: nat)
    requires k < |s.tools| && |Started(s.sent)| == s.next && |ToolStarts(s.sent)| == |s.tools|
  {
    var tool := s.tools[k];
    && ToolStarts(s.sent)[k].index == tool.place && ToolStarts(s.sent)[k].id == tool.call.id
    && ToolStarts(s.sent)[k].name in ["", tool.call.name]
    && tool.place < s.next && Started(s.sent)[tool.place].ToolBlock?
    && Jsons(s.sent, tool.place) == tool.call.arguments
  }

  ghost predicate ToolsHold(s: Stream) {
    && |Started(s.sent)| == s.next && |ToolStarts(s.sent)| == |s.tools|
    && (forall k :: 0 <= k < |s.tools| ==> ToolHolds(s, k))
    && (forall j, k :: 0 <= j < k < |s.tools| ==> s.tools[j].place < s.tools[k].place)
    && (forall i: nat :: i >= s.next ==> Jsons(s.sent, i) == "")
  }

  ghost predicate Agrees(s: Stream) {
    s.Valid() && GrammarHolds(s) && TextHolds(s) && ToolsHold(s)
  }

  lemma {:induction false} StartAgrees()
    ensures Agrees(START)
  {
  }

  lemma {:induction false} OpenTextAgrees(s: Stream)
    requires Agrees(s) && s.textBlock.None?
    ensures var o := OpenText(s); o.Valid() && GrammarHolds(o) && ToolsHold(o) && Texts(o.sent) == s.text
  {
    var o := OpenText(s);
    Sent(s.sent, BlockStart(s.next, TextBlock));
    forall k | 0 <= k < |o.tools| ensures ToolHolds(o, k) { assert ToolHolds(s, k); }
  }

  lemma {:induction false} TextDeltaAgrees(o: Stream, index: nat, piece: string)
    requires o.Valid() && GrammarHolds(o) && ToolsHold(o) && Texts(o.sent) == o.text
    requires o.textBlock == Some(index) && piece != ""
    ensures Agrees(o.(text := o.text + piece).Send(TextDelta(index, piece)))
  {
    var t := o.(text := o.text + piece).Send(TextDelta(index, piece));
    Sent(o.sent, TextDelta(index, piece));
    forall k | 0 <= k < |t.tools| ensures ToolHolds(t, k) { assert ToolHolds(o, k); }
  }

  lemma {:induction false} TakeTextAgrees(s: Stream, piece: string)
    requires Agrees(s)
    ensures Agrees(TakeText(s, piece))
  {
    if piece != "" {
      if s.textBlock.None? { OpenTextAgrees(s); }
      TextDeltaAgrees(OpenText(s), OpenText(s).textBlock.value, piece);
    }
  }

  lemma {:induction false} KeptTool(s: Stream, t: Stream, frame: Frame, k: nat)
    requires |Started(s.sent)| == s.next && |ToolStarts(s.sent)| == |s.tools|
    requires |Started(t.sent)| == t.next && |ToolStarts(t.sent)| == |t.tools|
    requires t.sent == s.sent + [frame] && frame.BlockStart? && s.next <= t.next
    requires k < |s.tools| && k < |t.tools| && t.tools[k] == s.tools[k] && ToolHolds(s, k)
    ensures ToolHolds(t, k)
  {
    Sent(s.sent, frame);
  }

  /** One more block, for a call. */
  lemma {:induction false} CallBlockFits(s: Stream, id: CallId, name: string, t: Stream)
    requires GrammarHolds(s) && TextHolds(s) && t.sent == s.sent + [BlockStart(s.next, ToolBlock(id, name))]
    requires t.next == s.next + 1 && t.textBlock == s.textBlock && t.text == s.text
    ensures GrammarHolds(t) && TextHolds(t)
  {
    Sent(s.sent, BlockStart(s.next, ToolBlock(id, name)));
  }

  lemma {:induction false} NewTool(s: Stream, call: OpenCall, t: Stream)
    requires ToolsHold(s) && t.sent == s.sent + [BlockStart(s.next, ToolBlock(call.id, call.name))]
    requires t.next == s.next + 1 && t.tools == s.tools + [ToolState(s.next, call)] && call.arguments == ""
    ensures |Started(t.sent)| == t.next && |ToolStarts(t.sent)| == |t.tools| && ToolHolds(t, |s.tools|)
  {
    Sent(s.sent, BlockStart(s.next, ToolBlock(call.id, call.name)));
  }

  lemma {:induction false} CallBlockTools(s: Stream, call: OpenCall, t: Stream)
    requires ToolsHold(s) && t.sent == s.sent + [BlockStart(s.next, ToolBlock(call.id, call.name))]
    requires t.next == s.next + 1 && t.tools == s.tools + [ToolState(s.next, call)] && call.arguments == ""
    ensures ToolsHold(t)
  {
    var frame := BlockStart(s.next, ToolBlock(call.id, call.name));
    Sent(s.sent, frame);
    NewTool(s, call, t);
    forall k | 0 <= k < |s.tools| ensures ToolHolds(t, k) { KeptTool(s, t, frame, k); }
    forall j | 0 <= j < |s.tools| ensures t.tools[j].place < s.next { assert ToolHolds(s, j); }
  }

  lemma {:induction false} OpenCallAgrees(s: Stream, f: Fragment)
    requires Agrees(s) && s.AsLedger().Opens(f, false)
    ensures Agrees(FindCall(s, f).0)
  {
    var (t, n) := FindCall(s, f);
    CallBlockFits(s, t.tools[n].call.id, f.name, t);
    CallBlockTools(s, t.tools[n].call, t);
  }

  lemma {:induction false} ContinueCallAgrees(s: Stream, f: Fragment)
    requires Agrees(s) && !s.AsLedger().Opens(f, false)
    ensures Agrees(FindCall(s, f).0)
  {
    var (t, n) := FindCall(s, f);
    forall k | 0 <= k < |t.tools| ensures ToolHolds(t, k) { assert ToolHolds(s, k); }
  }

  lemma {:induction false} ArgumentsAgree(s: Stream, n: nat, json: string)
    requires Agrees(s) && n < |s.tools|
    ensures Agrees(TakeArguments(s, n, json))
  {
    if json != "" {
      var t := TakeArguments(s, n, json);
      assert ToolHolds(s, n);
      Sent(s.sent, JsonDelta(s.tools[n].place, json));
      forall k | 0 <= k < |t.tools| ensures ToolHolds(t, k) { assert ToolHolds(s, k); }
    }
  }

  lemma {:induction false} TakeFragmentAgrees(s: Stream, f: Fragment)
    requires Agrees(s)
    ensures Agrees(TakeFragment(s, f))
  {
    if s.AsLedger().Opens(f, false) { OpenCallAgrees(s, f); } else { ContinueCallAgrees(s, f); }
    var (o, k) := FindCall(s, f);
    ArgumentsAgree(o, k, f.arguments);
  }

  lemma {:induction false} TakeFragmentsAgree(s: Stream, fragments: seq<Fragment>)
    requires Agrees(s)
    ensures Agrees(TakeFragments(s, fragments))
  {
    if fragments != [] {
      var n := |fragments| - 1;
      TakeFragmentsAgree(s, fragments[..n]);
      TakeFragmentAgrees(TakeFragments(s, fragments[..n]), fragments[n]);
    }
  }

  lemma {:induction false} FinishAgrees(s: Stream, finish: string)
    requires Agrees(s)
    ensures Agrees(s.(finish := finish))
  {
    var o := s.(finish := finish);
    forall k | 0 <= k < |o.tools| ensures ToolHolds(o, k) { assert ToolHolds(s, k); }
  }

  lemma {:induction false} FeedAllAgrees(chunks: seq<Chunk>)
    ensures Agrees(FeedAll(chunks))
  {
    if chunks == [] {
      StartAgrees();
    } else {
      var n := |chunks| - 1;
      var s, chunk := FeedAll(chunks[..n]), chunks[n];
      FeedAllAgrees(chunks[..n]);
      var o := s.(finish := if chunk.Finish() != "" then chunk.Finish() else s.finish);
      FinishAgrees(s, o.finish);
      TakeTextAgrees(o, chunk.Piece());
      TakeFragmentsAgree(TakeText(o, chunk.Piece()), chunk.Fragments());
    }
  }

  // ---- The end of the stream -----------------------------------------------------------------------

  /** A frame that says nothing and starts nothing. */
  predicate Quiet(frame: Frame) {
    !frame.BlockStart? && !frame.TextDelta? && !frame.JsonDelta?
  }

  lemma {:induction false} QuietFrame(frames: seq<Frame>, frame: Frame, i: nat)
    requires Quiet(frame)
    ensures Texts(frames + [frame]) == Texts(frames) && ToolStarts(frames + [frame]) == ToolStarts(frames)
    ensures Jsons(frames + [frame], i) == Jsons(frames, i)
  {
  }

  lemma {:induction false} QuietTail(frames: seq<Frame>, tail: seq<Frame>, i: nat)
    requires forall j :: 0 <= j < |tail| ==> Quiet(tail[j])
    ensures Texts(frames + tail) == Texts(frames) && ToolStarts(frames + tail) == ToolStarts(frames)
    ensures Jsons(frames + tail, i) == Jsons(frames, i)
    decreases |tail|
  {
    if tail == [] {
      assert frames + tail == frames;
    } else {
      var n := |tail| - 1;
      QuietTail(frames, tail[..n], i);
      QuietFrame(frames + tail[..n], tail[n], i);
      SplitLast(frames, tail);
    }
  }

  lemma {:induction false} StopsOnly(n: nat)
    ensures |Stops(n)| == n && forall j :: 0 <= j < n ==> Stops(n)[j] == BlockStop(j)
  {
    if n > 0 { StopsOnly(n - 1); }
  }

  lemma {:induction false} ParseNext(frames: seq<Frame>, frame: Frame)
    ensures Parse(frames + [frame]) == Advance(Parse(frames), frame)
  {
  }

  lemma {:induction false} ParseTwo(frames: seq<Frame>, first: Frame, second: Frame)
    ensures Parse(frames + [first, second]) == Advance(Advance(Parse(frames), first), second)
  {
    ParseNext(frames, first);
    ParseNext(frames + [first], second);
    assert frames + [first, second] == frames + [first] + [second];
  }

  lemma {:induction false} StopParses(frames: seq<Frame>, blocks: seq<Block>, n: nat, more: seq<Frame>)
    requires Parse(frames) == Open(blocks, n) && n < |blocks| && more == frames + [BlockStop(n)]
    ensures Parse(more) == Open(blocks, n + 1)
  {
    ParseNext(frames, BlockStop(n));
  }

  lemma {:induction false} StopsParse(frames: seq<Frame>, blocks: seq<Block>, n: nat)
    requires Parse(frames) == Open(blocks, 0) && n <= |blocks|
    ensures Parse(frames + Stops(n)) == Open(blocks, n)
    decreases n
  {
    if n == 0 {
      assert frames + Stops(0) == frames;
    } else {
      StopsParse(frames, blocks, n - 1);
      Regroup(frames, Stops(n - 1), [BlockStop(n - 1)]);
      StopParses(frames + Stops(n - 1), blocks, n - 1, frames + Stops(n));
    }
  }

  lemma {:induction false} CloseParses(frames: seq<Frame>, blocks: seq<Block>, reason: StopReason)
    requires Parse(frames) == Open(blocks, |blocks|)
    ensures Parse(frames + [MessageDelta(reason), MessageStop]) == Done
  {
    ParseTwo(frames, MessageDelta(reason), MessageStop);
  }

  lemma {:induction false} EndParses(s: Stream, failed: bool)
    requires GrammarHolds(s)
    ensures Parse(s.sent + Ending(s, failed)) == if failed then Failed else Done
  {
    var blocks := Started(s.sent);
    if failed {
      ParseNext(s.sent, ErrorFrame);
    } else {
      StopsParse(s.sent, blocks, s.next);
      CloseParses(s.sent + Stops(s.next), blocks, StopReasonOf(s));
      Regroup(s.sent, Stops(s.next), [MessageDelta(StopReasonOf(s)), MessageStop]);
    }
  }

  lemma {:induction false} Regroup<T>(a: seq<T>, b: seq<T>, c: seq<T>)
    ensures a + b + c == a + (b + c)
  {
  }

  /** Every stream the client sees follows the protocol: success closes every started block once and the
      message, failure ends with a single error and closes nothing. */
  lemma {:induction false} StreamFollowsGrammar(chunks: seq<Chunk>, failed: bool)
    ensures Parse(Trace(chunks, failed)) == if failed then Failed else Done
  {
    FeedAllAgrees(chunks);
    EndParses(FeedAll(chunks), failed);
  }

  ghost predicate SeenAsPersisted(frames: seq<Frame>, reply: Reply) {
    && Texts(frames) == reply.content.GetOr("")
    && |ToolStarts(frames)| == |reply.calls|
    && forall k :: 0 <= k < |reply.calls| ==>
         && ToolStarts(frames)[k].id == reply.calls[k].id
         && reply.calls[k].arguments == OrObject(Jsons(frames, ToolStarts(frames)[k].index))
  }

  lemma {:induction false} EndingIsQuiet(s: Stream, failed: bool)
    ensures forall j :: 0 <= j < |Ending(s, failed)| ==> Quiet(Ending(s, failed)[j])
  {
    StopsOnly(s.next);
  }

  lemma {:induction false} EndAgrees(s: Stream, failed: bool)
    requires TextHolds(s) && ToolsHold(s)
    ensures SeenAsPersisted(s.sent + Ending(s, failed), MakeReply(s.text, CallsIn(s.tools)))
  {
    var tail := Ending(s, failed);
    EndingIsQuiet(s, failed);
    QuietTail(s.sent, tail, 0);
    forall k | 0 <= k < |s.tools|
      ensures Jsons(s.sent + tail, s.tools[k].place) == s.tools[k].call.arguments
      ensures ToolStarts(s.sent + tail)[k].index == s.tools[k].place
      ensures ToolStarts(s.sent + tail)[k].id == s.tools[k].call.id
    {
      assert ToolHolds(s, k);
      QuietTail(s.sent, tail, s.tools[k].place);
    }
  }

  /** On success and on failure alike: the text deltas join to the persisted content, the tool blocks started
      are the persisted calls in order with the same ids, and each one's argument deltas join to the
      persisted arguments ("{}" where there were none). */
  lemma {:induction false} StreamAgreesWithPersisted(chunks: seq<Chunk>, failed: bool)
    ensures SeenAsPersisted(Trace(chunks, failed), Persisted(chunks))
  {
    FeedAllAgrees(chunks);
    EndAgrees(FeedAll(chunks), failed);
  }

  // ---- What is persisted ---------------------------------------------------------------------------

  lemma {:induction false} FragmentIsTaken(s: Stream, f: Fragment)
    requires s.Valid()
    ensures TakeFragment(s, f).AsLedger() == s.AsLedger().Take(f, false)
    ensures TakeFragment(s, f).text == s.text
  {
    var (o, k) := FindCall(s, f);
    ToolsTaken(s.tools, s.current, f, false, o.tools, k);
    ExtendedByNothing(o.tools, k);
  }

  lemma {:induction false} FragmentsAreTaken(s: Stream, before: seq<Fragment>, fragments: seq<Fragment>)
    requires s.Valid() && s.AsLedger() == Accumulate(before, false)
    ensures TakeFragments(s, fragments).AsLedger() == Accumulate(before + fragments, false)
    ensures TakeFragments(s, fragments).text == s.text
    decreases |fragments|
  {
    if fragments == [] {
      assert before + fragments == before;
    } else {
      var n := |fragments| - 1;
      FragmentsAreTaken(s, before, fragments[..n]);
      FragmentIsTaken(TakeFragments(s, fragments[..n]), fragments[n]);
      AccumulateSnoc(before + fragments[..n], fragments[n], false);
      SplitLast(before, fragments);
    }
  }

  lemma {:induction false} FedChunk(s: Stream, before: seq<Fragment>, chunk: Chunk)
    requires s.Valid() && s.AsLedger() == Accumulate(before, false)
    ensures Feed(s, chunk).AsLedger() == Accumulate(before + chunk.Fragments(), false)
    ensures Feed(s, chunk).text == s.text + chunk.Piece()
  {
    var o := TakeText(s.(finish := if chunk.Finish() != "" then chunk.Finish() else s.finish), chunk.Piece());
    assert o.text == s.text + chunk.Piece() && o.AsLedger() == s.AsLedger();
    FragmentsAreTaken(o, before, chunk.Fragments());
  }

  lemma {:induction false} FedSoFar(chunks: seq<Chunk>)
    ensures FeedAll(chunks).text == JoinPieces(chunks)
    ensures FeedAll(chunks).AsLedger() == Accumulate(AllFragments(chunks), false)
  {
    if chunks != [] {
      var n := |chunks| - 1;
      FedSoFar(chunks[..n]);
      FedChunk(FeedAll(chunks[..n]), AllFragments(chunks[..n]), chunks[n]);
    }
  }

  /** What is persisted is all the text, and the calls the upstream fragments add up to. */
  lemma {:induction false} PersistedReply(chunks: seq<Chunk>)
    ensures Persisted(chunks) == MakeReply(JoinPieces(chunks), Accumulate(AllFragments(chunks), false).calls)
  {
    FedSoFar(chunks);
  }

  // ---- Names that arrive late ----------------------------------------------------------------------

  ghost predicate NamesHold(s: Stream) { SameNames(ToolStarts(s.sent), s.tools) }

  lemma {:induction false} OpenedNames(s: Stream, f: Fragment)
    requires s.Valid() && s.AsLedger().Opens(f, false) && |ToolStarts(s.sent)| == |s.tools|
    ensures NamesHold(FindCall(s, f).0) <==> NamesHold(s)
  {
    var id := if f.id != "" then Given(f.id) else Minted(|s.tools|);
    var tool := ToolState(s.next, OpenCall(id, f.name, ""));
    Sent(s.sent, BlockStart(s.next, ToolBlock(id, f.name)));
    OneStarted(ToolStarts(s.sent), s.tools, ToolStart(s.next, id, f.name), tool);
  }

  lemma {:induction false} ContinuedNames(s: Stream, f: Fragment)
    requires s.Valid() && !s.AsLedger().Opens(f, false) && |ToolStarts(s.sent)| == |s.tools|
    requires ToolStarts(s.sent)[s.current[f.index]].name in ["", s.tools[s.current[f.index]].call.name]
    ensures NamesHold(FindCall(s, f).0) <==> NamesHold(s) && !BringsLateName(s.AsLedger(), f, false)
  {
    var (o, k) := FindCall(s, f);
    OneNamed(ToolStarts(s.sent), s.tools, k, o.tools[k]);
  }

  lemma {:induction false} ArgumentsNames(o: Stream, k: nat, json: string)
    requires k < |o.tools|
    ensures NamesHold(TakeArguments(o, k, json)) <==> NamesHold(o)
  {
    if json != "" {
      var t := TakeArguments(o, k, json);
      Sent(o.sent, JsonDelta(o.tools[k].place, json));
      assert ToolStarts(t.sent) == ToolStarts(o.sent);
      assert |t.tools| == |o.tools| && forall j :: 0 <= j < |o.tools| ==> t.tools[j].call.name == o.tools[j].call.name;
    }
  }

  lemma {:induction false} FragmentNames(s: Stream, f: Fragment)
    requires Agrees(s)
    ensures NamesHold(TakeFragment(s, f)) <==> NamesHold(s) && !BringsLateName(s.AsLedger(), f, false)
  {
    if s.AsLedger().Opens(f, false) {
      OpenedNames(s, f);
    } else {
      assert ToolHolds(s, s.current[f.index]);
      ContinuedNames(s, f);
    }
    ArgumentsNames(FindCall(s, f).0, FindCall(s, f).1, f.arguments);
  }

  lemma {:induction false} FragmentsNames(s: Stream, before: seq<Fragment>, fragments: seq<Fragment>)
    requires Agrees(s) && s.AsLedger() == Accumulate(before, false) && (NamesHold(s) <==> NamedInTime(before, false))
    ensures NamesHold(TakeFragments(s, fragments)) <==> NamedInTime(before + fragments, false)
    decreases |fragments|
  {
    if fragments == [] {
      assert before + fragments == before;
    } else {
      var n := |fragments| - 1;
      FragmentsNames(s, before, fragments[..n]);
      FragmentsAreTaken(s, before, fragments[..n]);
      TakeFragmentsAgree(s, fragments[..n]);
      FragmentNames(TakeFragments(s, fragments[..n]), fragments[n]);
      InTimeSnoc(before + fragments[..n], fragments[n], false);
      SplitLast(before, fragments);
    }
  }

  lemma {:induction false} TextNames(s: Stream, piece: string)
    ensures var o := TakeText(s, piece); o.tools == s.tools && ToolStarts(o.sent) == ToolStarts(s.sent)
  {
    if piece != "" {
      if s.textBlock.None? { Sent(s.sent, BlockStart(s.next, TextBlock)); }
      Sent(OpenText(s).sent, TextDelta(OpenText(s).textBlock.GetOr(0), piece));
    }
  }

  lemma {:induction false} FeedAllNames(chunks: seq<Chunk>)
    ensures NamesHold(FeedAll(chunks)) <==> NamedInTime(AllFragments(chunks), false)
  {
    FeedAllAgrees(chunks);
    if chunks != [] {
      var n := |chunks| - 1;
      var s, chunk := FeedAll(chunks[..n]), chunks[n];
      FeedAllNames(chunks[..n]);
      FeedAllAgrees(chunks[..n]);
      FedSoFar(chunks[..n]);
      var o := s.(finish := if chunk.Finish() != "" then chunk.Finish() else s.finish);
      FinishAgrees(s, o.finish);
      TextNames(o, chunk.Piece());
      TakeTextAgrees(o, chunk.Piece());
      FragmentsNames(TakeText(o, chunk.Piece()), AllFragments(chunks[..n]), chunk.Fragments());
    }
  }

  /** The client was told the persisted names if and only if no call gets its name late. */
  lemma {:induction false} NamesAgreeExactly(chunks: seq<Chunk>, failed: bool)
    ensures NamesAsPersisted(ToolStarts(Trace(chunks, failed)), Persisted(chunks).calls)
      <==> NamedInTime(AllFragments(chunks), false)
  {
    var s := FeedAll(chunks);
    FeedAllNames(chunks);
    EndingIsQuiet(s, failed);
    QuietTail(s.sent, Ending(s, failed), 0);
    ClosedNames(ToolStarts(s.sent), s.tools);
  }

  // ---- Why a message stops -------------------------------------------------------------------------

  /** The stop reasons a client is told. */
  function Reasons(frames: seq<Frame>): seq<StopReason> {
    if frames == [] then []
    else
      var n := |frames| - 1;
      Reasons(frames[..n]) + if frames[n].MessageDelta? then [frames[n].stopReason] else []
  }

  /** The last finish reason that came from upstream, or "". */
  function LastFinish(chunks: seq<Chunk>): string {
    if chunks == [] then ""
    else
      var last := chunks[|chunks| - 1];
      if last.choices != [] && last.choices[0].finish != "" then last.choices[0].finish
      else LastFinish(chunks[..|chunks| - 1])
  }

  lemma {:induction false} ReasonsNext(frames: seq<Frame>, frame: Frame)
    ensures Reasons(frames + [frame]) == Reasons(frames) + if frame.MessageDelta? then [frame.stopReason] else []
  {
    assert (frames + [frame])[..|frames|] == frames;
  }

  lemma {:induction false} NoReasonYet(frames: seq<Frame>)
    requires Parse(frames).Begin? || Parse(frames).Open?
    ensures Reasons(frames) == []
  {
    if frames != [] { NoReasonYet(frames[..|frames| - 1]); }
  }

  lemma {:induction false} FragmentsKeepFinish(s: Stream, fragments: seq<Fragment>)
    requires s.Valid()
    ensures TakeFragments(s, fragments).finish == s.finish
  {
    if fragments != [] { FragmentsKeepFinish(s, fragments[..|fragments| - 1]); }
  }

  lemma {:induction false} FinishIsLast(chunks: seq<Chunk>)
    ensures FeedAll(chunks).finish == LastFinish(chunks)
  {
    if chunks != [] {
      var n := |chunks| - 1;
      var s, chunk := FeedAll(chunks[..n]), chunks[n];
      FinishIsLast(chunks[..n]);
      var o := TakeText(s.(finish := if chunk.Finish() != "" then chunk.Finish() else s.finish), chunk.Piece());
      FragmentsKeepFinish(o, chunk.Fragments());
    }
  }

  lemma {:induction false} TwoReasons(frames: seq<Frame>, reason: StopReason)
    requires Reasons(frames) == []
    ensures Reasons(frames + [MessageDelta(reason), MessageStop]) == [reason]
  {
    ReasonsNext(frames, MessageDelta(reason));
    ReasonsNext(frames + [MessageDelta(reason)], MessageStop);
    assert frames + [MessageDelta(reason), MessageStop] == frames + [MessageDelta(reason)] + [MessageStop];
  }

  lemma {:induction false} EndReasons(s: Stream, failed: bool)
    requires GrammarHolds(s)
    ensures Reasons(s.sent + Ending(s, failed)) == if failed then [] else [StopReasonOf(s)]
  {
    NoReasonYet(s.sent);
    if failed {
      ReasonsNext(s.sent, ErrorFrame);
    } else {
      StopsParse(s.sent, Started(s.sent), s.next);
      NoReasonYet(s.sent + Stops(s.next));
      TwoReasons(s.sent + Stops(s.next), StopReasonOf(s));
      Regroup(s.sent, Stops(s.next), [MessageDelta(StopReasonOf(s)), MessageStop]);
    }
  }

  /** The reason to stop for, given whether a tool was called and what the upstream said last. */
  ghost predicate RightReason(reason: StopReason, called: bool, finish: string) {
    && (reason.ToolUse? <==> called || finish == "tool_calls")
    && (reason.MaxTokens? <==> !called && finish == "length")
    && (reason.EndTurn? <==> !called && finish !in ["tool_calls", "length"])
  }

  lemma {:induction false} ReasonIsRight(s: Stream)
    ensures RightReason(StopReasonOf(s), s.tools != [], s.finish)
  {
  }

  lemma {:induction false} CalledIfStarted(s: Stream, failed: bool)
    requires ToolsHold(s)
    ensures ToolStarts(s.sent + Ending(s, failed)) != [] <==> s.tools != []
  {
    EndingIsQuiet(s, failed);
    QuietTail(s.sent, Ending(s, failed), 0);
  }

  /** A successful message is closed with exactly one stop reason: a tool is used if a tool block was started or the
      upstream's last finish reason says so; otherwise the tokens ran out if that says so; and in every other case the
      turn ended. A failed one has none. */
  lemma {:induction false} StopReasonExactly(chunks: seq<Chunk>, failed: bool)
    ensures var frames := Trace(chunks, failed);
      if failed then Reasons(frames) == []
      else |Reasons(frames)| == 1 && RightReason(Reasons(frames)[0], ToolStarts(frames) != [], LastFinish(chunks))
  {
    var s := FeedAll(chunks);
    FeedAllAgrees(chunks);
    FinishIsLast(chunks);
    EndReasons(s, failed);
    ReasonIsRight(s);
    CalledIfStarted(s, failed);
  }

  // ---- Only the first choice counts ----------------------------------------------------------------

  lemma {:induction false} FedAlike(chunks: seq<Chunk>)
    ensures FeedAll(FirstChoices(chunks)) == FeedAll(chunks)
  {
    if chunks != [] {
      var n := |chunks| - 1;
      FedAlike(chunks[..n]);
      assert FirstChoices(chunks)[..n] == FirstChoices(chunks[..n]);
      assert FirstChoices(chunks)[n] == FirstChoice(chunks[n]);
    }
  }

  /** What other choices a chunk holds makes no difference to what is sent and what is persisted. */
  lemma {:induction false} OtherChoicesIgnored(chunks: seq<Chunk>, failed: bool)
    ensures Trace(FirstChoices(chunks), failed) == Trace(chunks, failed)
    ensures Persisted(FirstChoices(chunks)) == Persisted(chunks)
  {
    FedAlike(chunks);
  }
}
