/** What a client of either event stream receives, in time: every piece of text and arguments is passed on as it
    arrives, in the order it arrives, and nothing else is; a stream that breaks off has sent what it would have sent
    anyway. */
module StreamDeltas {
  import opened Messages
  import opened StreamChunks
  import A = AnthropicStream
  import R = ResponsesStream

  datatype Delta = TextPiece(text: string) | ArgumentPiece(arguments: string)

  // ---- What arrives --------------------------------------------------------------------------------------

  /** The pieces of arguments that fragments bring. */
  function ArgumentPieces(fragments: seq<Fragment>): seq<Delta> {
    if fragments == [] then []
    else
      var last := fragments[|fragments| - 1];
      ArgumentPieces(fragments[..|fragments| - 1])
      + if last.arguments == "" then [] else [ArgumentPiece(last.arguments)]
  }

  /** The pieces a chunk brings: of its first choice the text, then the arguments. */
  function PiecesOf(chunk: Chunk): seq<Delta> {
    if chunk.choices == [] then []
    else (if chunk.choices[0].content == "" then [] else [TextPiece(chunk.choices[0].content)])
         + ArgumentPieces(chunk.choices[0].fragments)
  }

  /** The pieces a stream brings. */
  function Arrived(chunks: seq<Chunk>): seq<Delta> {
    if chunks == [] then [] else Arrived(chunks[..|chunks| - 1]) + PiecesOf(chunks[|chunks| - 1])
  }

  lemma {:induction false} Grouped<T>(a: seq<T>, b: seq<T>, c: seq<T>)
    ensures a + b + c == a + (b + c)
  {
  }

  lemma {:induction false} NothingAdded<T>(a: seq<T>)
    ensures a + [] == a && [] + a == a
  {
  }

  // ---- The Anthropic stream ------------------------------------------------------------------------------

  function AnthropicDelta(frame: A.Frame): seq<Delta> {
    match frame
    case TextDelta(_, text) => [TextPiece(text)]
    case JsonDelta(_, json) => [ArgumentPiece(json)]
    case _ => []
  }

  /** The pieces among the frames. */
  function AnthropicDeltas(frames: seq<A.Frame>): seq<Delta> {
    if frames == [] then []
    else AnthropicDeltas(frames[..|frames| - 1]) + AnthropicDelta(frames[|frames| - 1])
  }

  lemma {:induction false} AnthropicNext(frames: seq<A.Frame>, frame: A.Frame)
    ensures AnthropicDeltas(frames + [frame]) == AnthropicDeltas(frames) + AnthropicDelta(frame)
  {
    assert (frames + [frame])[..|frames|] == frames;
  }

  lemma {:induction false} AnthropicText(s: A.Stream, piece: string)
    ensures var t := A.TakeText(s, piece);
      && s.sent <= t.sent
      && AnthropicDeltas(t.sent) == AnthropicDeltas(s.sent) + if piece == "" then [] else [TextPiece(piece)]
  {
    NothingAdded(AnthropicDeltas(s.sent));
    if piece != "" {
      var o := A.OpenText(s);
      if s.textBlock.None? { AnthropicNext(s.sent, A.BlockStart(s.next, A.TextBlock)); }
      AnthropicNext(o.sent, A.TextDelta(o.textBlock.GetOr(0), piece));
    }
  }

  lemma {:induction false} AnthropicFinds(s: A.Stream, f: Fragment)
    requires s.Valid()
    ensures var o := A.FindCall(s, f).0; s.sent <= o.sent && AnthropicDeltas(o.sent) == AnthropicDeltas(s.sent)
  {
    var o := A.FindCall(s, f).0;
    NothingAdded(AnthropicDeltas(s.sent));
    if s.AsLedger().Opens(f, false) { AnthropicNext(s.sent, o.sent[|s.sent|]); }
  }

  lemma {:induction false} AnthropicArguments(o: A.Stream, k: nat, json: string)
    requires k < |o.tools|
    ensures var t := A.TakeArguments(o, k, json);
      && o.sent <= t.sent
      && AnthropicDeltas(t.sent) == AnthropicDeltas(o.sent) + if json == "" then [] else [ArgumentPiece(json)]
  {
    NothingAdded(AnthropicDeltas(o.sent));
    AnthropicNext(o.sent, A.JsonDelta(o.tools[k].place, json));
  }

  lemma {:induction false} AnthropicFragment(s: A.Stream, f: Fragment)
    requires s.Valid()
    ensures var t := A.TakeFragment(s, f);
      && s.sent <= t.sent
      && AnthropicDeltas(t.sent)
         == AnthropicDeltas(s.sent) + if f.arguments == "" then [] else [ArgumentPiece(f.arguments)]
  {
    var (o, k) := A.FindCall(s, f);
    AnthropicFinds(s, f);
    AnthropicArguments(o, k, f.arguments);
  }

  lemma {:induction false} AnthropicFragments(s: A.Stream, fragments: seq<Fragment>)
    requires s.Valid()
    ensures var t := A.TakeFragments(s, fragments);
      s.sent <= t.sent && AnthropicDeltas(t.sent) == AnthropicDeltas(s.sent) + ArgumentPieces(fragments)
  {
    NothingAdded(AnthropicDeltas(s.sent));
    if fragments != [] {
      var n := |fragments| - 1;
      AnthropicFragments(s, fragments[..n]);
      AnthropicFragment(A.TakeFragments(s, fragments[..n]), fragments[n]);
      Grouped(AnthropicDeltas(s.sent), ArgumentPieces(fragments[..n]),
              if fragments[n].arguments == "" then [] else [ArgumentPiece(fragments[n].arguments)]);
    }
  }

  lemma {:induction false} AnthropicFeeds(s: A.Stream, chunk: Chunk)
    requires s.Valid()
    ensures var t := A.Feed(s, chunk);
      s.sent <= t.sent && AnthropicDeltas(t.sent) == AnthropicDeltas(s.sent) + PiecesOf(chunk)
  {
    var o := s.(finish := if chunk.Finish() != "" then chunk.Finish() else s.finish);
    AnthropicText(o, chunk.Piece());
    AnthropicFragments(A.TakeText(o, chunk.Piece()), chunk.Fragments());
    Grouped(AnthropicDeltas(s.sent), if chunk.Piece() == "" then [] else [TextPiece(chunk.Piece())],
            ArgumentPieces(chunk.Fragments()));
  }

  lemma {:induction false} AnthropicStep(chunks: seq<Chunk>, s: A.Stream, t: A.Stream)
    requires chunks != [] && s == A.FeedAll(chunks[..|chunks| - 1]) && t == A.FeedAll(chunks)
    ensures s.sent <= t.sent
    ensures AnthropicDeltas(t.sent) == AnthropicDeltas(s.sent) + PiecesOf(chunks[|chunks| - 1])
  {
    AnthropicFeeds(s, chunks[|chunks| - 1]);
  }

  lemma {:induction false} AnthropicFed(chunks: seq<Chunk>)
    ensures AnthropicDeltas(A.FeedAll(chunks).sent) == Arrived(chunks)
  {
    if chunks == [] {
      AnthropicNext([], A.MessageStart);
    } else {
      var n := |chunks| - 1;
      AnthropicFed(chunks[..n]);
      AnthropicStep(chunks, A.FeedAll(chunks[..n]), A.FeedAll(chunks));
    }
  }

  lemma {:induction false} AnthropicStops(frames: seq<A.Frame>, n: nat)
    ensures AnthropicDeltas(frames + A.Stops(n)) == AnthropicDeltas(frames)
  {
    if n == 0 {
      NothingAdded(frames);
    } else {
      AnthropicStops(frames, n - 1);
      Grouped(frames, A.Stops(n - 1), [A.BlockStop(n - 1)]);
      AnthropicNext(frames + A.Stops(n - 1), A.BlockStop(n - 1));
    }
  }

  lemma {:induction false} AnthropicEnds(s: A.Stream, failed: bool)
    ensures AnthropicDeltas(s.sent + A.Ending(s, failed)) == AnthropicDeltas(s.sent)
  {
    NothingAdded(AnthropicDeltas(s.sent));
    if failed {
      AnthropicNext(s.sent, A.ErrorFrame);
    } else {
      var stops, delta := A.Stops(s.next), A.MessageDelta(A.StopReasonOf(s));
      AnthropicStops(s.sent, s.next);
      AnthropicNext(s.sent + stops, delta);
      AnthropicNext(s.sent + stops + [delta], A.MessageStop);
      AllTogether(s.sent, stops, delta, A.MessageStop);
    }
  }

  lemma {:induction false} AllTogether<T>(a: seq<T>, b: seq<T>, x: T, y: T)
    ensures a + (b + [x, y]) == a + b + [x] + [y]
  {
  }

  /** Every piece of text and of arguments that arrives is sent on once, in order, and no other is, also before a
      failure. */
  lemma {:induction false} AnthropicPassesOn(chunks: seq<Chunk>, failed: bool)
    ensures AnthropicDeltas(A.Trace(chunks, failed)) == Arrived(chunks)
  {
    AnthropicFed(chunks);
    AnthropicEnds(A.FeedAll(chunks), failed);
  }

  lemma {:induction false} AnthropicPrefix(chunks: seq<Chunk>, n: nat, s: A.Stream, t: A.Stream)
    requires n <= |chunks| && s == A.FeedAll(chunks[..n]) && t == A.FeedAll(chunks)
    ensures s.sent <= t.sent
    decreases |chunks|
  {
    if n == |chunks| {
      assert chunks[..n] == chunks;
    } else {
      var m := |chunks| - 1;
      var before := A.FeedAll(chunks[..m]);
      assert chunks[..m][..n] == chunks[..n];
      AnthropicPrefix(chunks[..m], n, s, before);
      AnthropicStep(chunks, before, t);
    }
  }

  /** All that a stream has sent when it breaks off, but for the error, it would have sent whatever came next. */
  lemma {:induction false} AnthropicSendsAtOnce(chunks: seq<Chunk>, more: seq<Chunk>, failed: bool)
    ensures var broken := A.Trace(chunks, true);
      && broken != [] && broken[|broken| - 1] == A.ErrorFrame
      && broken[..|broken| - 1] <= A.Trace(chunks + more, failed)
  {
    assert (chunks + more)[..|chunks|] == chunks;
    AnthropicPrefix(chunks + more, |chunks|, A.FeedAll(chunks), A.FeedAll(chunks + more));
    assert A.Trace(chunks, true)[..|A.FeedAll(chunks).sent|] == A.FeedAll(chunks).sent;
  }

  // ---- The Responses stream ------------------------------------------------------------------------------

  function ResponsesDelta(frame: R.Frame): seq<Delta> {
    match frame
    case TextDelta(_, _, delta) => [TextPiece(delta)]
    case ArgumentsDelta(_, _, delta) => [ArgumentPiece(delta)]
    case _ => []
  }

  function ResponsesDeltas(frames: seq<R.Frame>): seq<Delta> {
    if frames == [] then []
    else ResponsesDeltas(frames[..|frames| - 1]) + ResponsesDelta(frames[|frames| - 1])
  }

  lemma {:induction false} ResponsesNext(frames: seq<R.Frame>, frame: R.Frame)
    ensures ResponsesDeltas(frames + [frame]) == ResponsesDeltas(frames) + ResponsesDelta(frame)
  {
    assert (frames + [frame])[..|frames|] == frames;
  }

  lemma {:induction false} ResponsesOpensText(s: R.Stream)
    ensures s.sent <= R.OpenText(s).sent && ResponsesDeltas(R.OpenText(s).sent) == ResponsesDeltas(s.sent)
  {
    if s.textOutput.None? {
      var added := R.ItemAdded(s.next, R.MessageItem(R.TextItem, ""));
      ResponsesNext(s.sent, added);
      ResponsesNext(s.sent + [added], R.PartAdded(R.TextItem, s.next));
      NothingAdded(ResponsesDeltas(s.sent));
    }
  }

  lemma {:induction false} ResponsesText(s: R.Stream, piece: string)
    ensures var t := R.TakeText(s, piece);
      && s.sent <= t.sent
      && ResponsesDeltas(t.sent) == ResponsesDeltas(s.sent) + if piece == "" then [] else [TextPiece(piece)]
  {
    NothingAdded(ResponsesDeltas(s.sent));
    if piece != "" {
      var o := R.OpenText(s);
      ResponsesOpensText(s);
      ResponsesNext(o.sent, R.TextDelta(R.TextItem, o.textOutput.GetOr(0), piece));
    }
  }

  lemma {:induction false} ResponsesFinds(s: R.Stream, f: Fragment)
    requires s.Valid()
    ensures var o := R.FindCall(s, f).0; s.sent <= o.sent && ResponsesDeltas(o.sent) == ResponsesDeltas(s.sent)
  {
    var o := R.FindCall(s, f).0;
    NothingAdded(ResponsesDeltas(s.sent));
    if s.AsLedger().Opens(f, true) { ResponsesNext(s.sent, o.sent[|s.sent|]); }
  }

  lemma {:induction false} ResponsesArguments(o: R.Stream, k: nat, delta: string)
    requires k < |o.tools|
    ensures var t := R.TakeArguments(o, k, delta);
      && o.sent <= t.sent
      && ResponsesDeltas(t.sent) == ResponsesDeltas(o.sent) + if delta == "" then [] else [ArgumentPiece(delta)]
  {
    NothingAdded(ResponsesDeltas(o.sent));
    ResponsesNext(o.sent, R.ArgumentsDelta(R.CallItem(k), o.tools[k].place, delta));
  }

  lemma {:induction false} ResponsesFragment(s: R.Stream, f: Fragment)
    requires s.Valid()
    ensures var t := R.TakeFragment(s, f);
      && s.sent <= t.sent
      && ResponsesDeltas(t.sent)
         == ResponsesDeltas(s.sent) + if f.arguments == "" then [] else [ArgumentPiece(f.arguments)]
  {
    var (o, k) := R.FindCall(s, f);
    ResponsesFinds(s, f);
    ResponsesArguments(o, k, f.arguments);
  }

  lemma {:induction false} ResponsesFragments(s: R.Stream, fragments: seq<Fragment>)
    requires s.Valid()
    ensures var t := R.TakeFragments(s, fragments);
      s.sent <= t.sent && ResponsesDeltas(t.sent) == ResponsesDeltas(s.sent) + ArgumentPieces(fragments)
  {
    NothingAdded(ResponsesDeltas(s.sent));
    if fragments != [] {
      var n := |fragments| - 1;
      ResponsesFragments(s, fragments[..n]);
      ResponsesFragment(R.TakeFragments(s, fragments[..n]), fragments[n]);
      Grouped(ResponsesDeltas(s.sent), ArgumentPieces(fragments[..n]),
              if fragments[n].arguments == "" then [] else [ArgumentPiece(fragments[n].arguments)]);
    }
  }

  lemma {:induction false} ResponsesFeeds(s: R.Stream, chunk: Chunk)
    requires s.Valid()
    ensures var t := R.Feed(s, chunk);
      s.sent <= t.sent && ResponsesDeltas(t.sent) == ResponsesDeltas(s.sent) + PiecesOf(chunk)
  {
    ResponsesText(s, chunk.Piece());
    ResponsesFragments(R.TakeText(s, chunk.Piece()), chunk.Fragments());
    Grouped(ResponsesDeltas(s.sent), if chunk.Piece() == "" then [] else [TextPiece(chunk.Piece())],
            ArgumentPieces(chunk.Fragments()));
  }

  lemma {:induction false} ResponsesStep(chunks: seq<Chunk>, s: R.Stream, t: R.Stream)
    requires chunks != [] && s == R.FeedAll(chunks[..|chunks| - 1]) && t == R.FeedAll(chunks)
    ensures s.sent <= t.sent
    ensures ResponsesDeltas(t.sent) == ResponsesDeltas(s.sent) + PiecesOf(chunks[|chunks| - 1])
  {
    ResponsesFeeds(s, chunks[|chunks| - 1]);
  }

  lemma {:induction false} ResponsesFed(chunks: seq<Chunk>)
    ensures ResponsesDeltas(R.FeedAll(chunks).sent) == Arrived(chunks)
  {
    if chunks == [] {
      ResponsesNext([], R.Created);
    } else {
      var n := |chunks| - 1;
      ResponsesFed(chunks[..n]);
      ResponsesStep(chunks, R.FeedAll(chunks[..n]), R.FeedAll(chunks));
    }
  }

  predicate NoDeltas(frames: seq<R.Frame>) {
    forall k :: 0 <= k < |frames| ==> ResponsesDelta(frames[k]) == []
  }

  lemma {:induction false} ResponsesQuiet(frames: seq<R.Frame>, tail: seq<R.Frame>)
    requires NoDeltas(tail)
    ensures ResponsesDeltas(frames + tail) == ResponsesDeltas(frames)
  {
    if tail == [] {
      NothingAdded(frames);
    } else {
      var n := |tail| - 1;
      ResponsesQuiet(frames, tail[..n]);
      SplitLast(frames, tail);
      ResponsesNext(frames + tail[..n], tail[n]);
    }
  }

  lemma {:induction false} ClosingsQuiet(tools: seq<ToolState>, n: nat)
    requires n <= |tools|
    ensures NoDeltas(R.CallClosings(tools, n))
  {
    if n > 0 { ClosingsQuiet(tools, n - 1); }
  }

  lemma {:induction false} QuietParts(
    sent: seq<R.Frame>, text: seq<R.Frame>, calls: seq<R.Frame>, item: seq<R.Frame>, last: R.Frame)
    requires NoDeltas(text) && NoDeltas(calls) && NoDeltas(item) && ResponsesDelta(last) == []
    ensures ResponsesDeltas(sent + text + calls + item + [last]) == ResponsesDeltas(sent)
  {
    ResponsesQuiet(sent, text);
    ResponsesQuiet(sent + text, calls);
    ResponsesQuiet(sent + text + calls, item);
    ResponsesNext(sent + text + calls + item, last);
    NothingAdded(ResponsesDeltas(sent));
  }

  lemma {:induction false} ResponsesCloses(s: R.Stream)
    ensures ResponsesDeltas(R.Closed(s).sent) == ResponsesDeltas(s.sent)
  {
    var calls := R.CallClosings(s.tools, |s.tools|);
    ClosingsQuiet(s.tools, |s.tools|);
    QuietParts(s.sent, R.TextClosing(s), calls, R.TextItemDone(s), R.Completed(R.FinalOutput(s)));
  }

  lemma {:induction false} ResponsesEnds(s: R.Stream)
    ensures ResponsesDeltas(s.sent + [R.ErrorFrame]) == ResponsesDeltas(R.Closed(s).sent) == ResponsesDeltas(s.sent)
  {
    ResponsesCloses(s);
    ResponsesNext(s.sent, R.ErrorFrame);
    NothingAdded(ResponsesDeltas(s.sent));
  }

  /** The same of the Responses stream: the closing events repeat whole texts and arguments but send no piece again. */
  lemma {:induction false} ResponsesPassesOn(chunks: seq<Chunk>, failed: bool)
    ensures ResponsesDeltas(R.Trace(chunks, failed)) == Arrived(chunks)
  {
    ResponsesFed(chunks);
    ResponsesEnds(R.FeedAll(chunks));
  }

  lemma {:induction false} ResponsesPrefix(chunks: seq<Chunk>, n: nat, s: R.Stream, t: R.Stream)
    requires n <= |chunks| && s == R.FeedAll(chunks[..n]) && t == R.FeedAll(chunks)
    ensures s.sent <= t.sent
    decreases |chunks|
  {
    if n == |chunks| {
      assert chunks[..n] == chunks;
    } else {
      var m := |chunks| - 1;
      var before := R.FeedAll(chunks[..m]);
      assert chunks[..m][..n] == chunks[..n];
      ResponsesPrefix(chunks[..m], n, s, before);
      ResponsesStep(chunks, before, t);
    }
  }

  lemma {:induction false} ClosedGrows(s: R.Stream)
    ensures s.sent <= R.Closed(s).sent
  {
  }

  lemma {:induction false} ResponsesSendsAtOnce(chunks: seq<Chunk>, more: seq<Chunk>, failed: bool)
    ensures var broken := R.Trace(chunks, true);
      && broken != [] && broken[|broken| - 1] == R.ErrorFrame
      && broken[..|broken| - 1] <= R.Trace(chunks + more, failed)
  {
    assert (chunks + more)[..|chunks|] == chunks;
    ResponsesPrefix(chunks + more, |chunks|, R.FeedAll(chunks), R.FeedAll(chunks + more));
    ClosedGrows(R.FeedAll(chunks + more));
    assert R.Trace(chunks, true)[..|R.FeedAll(chunks).sent|] == R.FeedAll(chunks).sent;
  }
}
