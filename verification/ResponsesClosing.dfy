/** The order in which a successful Responses stream closes what it has streamed. */
module ResponsesClosing {
  import opened Messages
  import opened StreamChunks
  import opened ResponsesStream
  import opened ResponsesLifecycle

  predicate Closes(frame: Frame) { frame.TextDone? || frame.PartDone? || frame.ArgumentsDone? || frame.ItemDone? }

  ghost predicate OnlyCloses(frames: seq<Frame>) {
    forall k :: 0 <= k < |frames| ==> Closes(frames[k])
  }

  /** The frames that spell items out or complete them. */
  function Closings(frames: seq<Frame>): seq<Frame> {
    if frames == [] then []
    else
      var n := |frames| - 1;
      Closings(frames[..n]) + if Closes(frames[n]) then [frames[n]] else []
  }

  lemma {:induction false} ClosingsNext(frames: seq<Frame>, frame: Frame)
    ensures Closings(frames + [frame]) == Closings(frames) + if Closes(frame) then [frame] else []
  {
    assert (frames + [frame])[..|frames|] == frames;
  }

  lemma {:induction false} NotClosing(c: Client, frame: Frame)
    requires c.Receive(frame).stage.Streaming?
    ensures !Closes(frame) && (c.stage.Begin? || c.stage.Streaming?)
  {
  }

  lemma {:induction false} NoneClosedYet(frames: seq<Frame>, c: Client)
    requires c == Watch(frames) && (c.stage.Begin? || c.stage.Streaming?)
    ensures Closings(frames) == []
  {
    if frames != [] {
      var n := |frames| - 1;
      var before := Watch(frames[..n]);
      assert c == before.Receive(frames[n]);
      NotClosing(before, frames[n]);
      NoneClosedYet(frames[..n], before);
    }
  }

  lemma {:induction false} AllClosings(frames: seq<Frame>, tail: seq<Frame>)
    requires Closings(frames) == [] && OnlyCloses(tail)
    ensures Closings(frames + tail) == tail
  {
    if tail == [] {
      assert frames + tail == frames;
    } else {
      var n := |tail| - 1;
      AllClosings(frames, tail[..n]);
      SplitLast(frames, tail);
      ClosingsNext(frames + tail[..n], tail[n]);
    }
  }

  // ---- The calls -------------------------------------------------------------------------------------------

  /** The two frames spell the call's arguments out and complete its item. */
  ghost predicate ClosesCall(spelled: Frame, done: Frame, call: OpenCall) {
    && spelled.ArgumentsDone? && spelled.arguments == call.arguments
    && done.ItemDone? && done.item.FunctionCallItem? && CallOf(done.item) == call
  }

  /** The frames close just these calls, one after the other. */
  ghost predicate CloseAll(frames: seq<Frame>, calls: seq<OpenCall>) {
    if calls == [] then frames == []
    else
      var n := |frames| - 2;
      && n >= 0 && ClosesCall(frames[n], frames[n + 1], calls[|calls| - 1])
      && CloseAll(frames[..n], calls[..|calls| - 1])
  }

  lemma {:induction false} CloseOneMore(
    before: seq<Frame>, calls: seq<OpenCall>, spelled: Frame, done: Frame, call: OpenCall)
    requires CloseAll(before, calls) && ClosesCall(spelled, done, call)
    ensures CloseAll(before + [spelled] + [done], calls + [call])
  {
    var frames := before + [spelled] + [done];
    assert frames[..|frames| - 2] == before && (calls + [call])[..|calls|] == calls;
  }

  lemma {:induction false} CloseAllCloses(frames: seq<Frame>, calls: seq<OpenCall>)
    requires CloseAll(frames, calls)
    ensures OnlyCloses(frames)
  {
    if calls != [] { CloseAllCloses(frames[..|frames| - 2], calls[..|calls| - 1]); }
  }

  /** The calls as the closing events give them. */
  ghost predicate AsClosed(tools: seq<ToolState>, closed: seq<OpenCall>) {
    |closed| == |tools| && forall k :: 0 <= k < |closed| ==> CallOf(DoneItem(tools, k)) == closed[k]
  }

  lemma {:induction false} ClosedAs(tools: seq<ToolState>)
    ensures AsClosed(tools, ClosedCalls(CallsIn(tools)))
  {
  }

  lemma {:induction false} CallCloses(tools: seq<ToolState>, k: nat, closed: seq<OpenCall>)
    requires k < |tools| && AsClosed(tools, closed)
    ensures var item, place := DoneItem(tools, k), tools[k].place;
      ClosesCall(ArgumentsDone(item.id, place, item.arguments), ItemDone(place, item), closed[k])
  {
    assert CallOf(DoneItem(tools, k)) == closed[k];
  }

  lemma {:induction false} CallsClose(
    tools: seq<ToolState>, n: nat, closed: seq<OpenCall>, frames: seq<Frame>, calls: seq<OpenCall>)
    requires n <= |tools| && AsClosed(tools, closed)
    requires frames == CallClosings(tools, n) && calls == closed[..n]
    ensures CloseAll(frames, calls)
  {
    if n == 0 {
      assert calls == [];
    } else {
      var before, fewer := CallClosings(tools, n - 1), closed[..n - 1];
      var item, place := DoneItem(tools, n - 1), tools[n - 1].place;
      CallsClose(tools, n - 1, closed, before, fewer);
      CallCloses(tools, n - 1, closed);
      CloseOneMore(before, fewer, ArgumentsDone(item.id, place, item.arguments), ItemDone(place, item), closed[n - 1]);
      assert calls == fewer + [closed[n - 1]];
    }
  }

  // ---- The whole -------------------------------------------------------------------------------------------

  /** The text, if any, is spelled out first, the calls are closed in their order, and the text item is completed
      last. */
  ghost predicate ClosedInOrder(frames: seq<Frame>, reply: Reply) {
    if reply.content.None? then CloseAll(frames, reply.calls)
    else
      var n := |frames| - 1;
      && n >= 2 && CloseAll(frames[2..n], reply.calls)
      && frames[0].TextDone? && frames[0].text == reply.content.value
      && frames[1].PartDone? && frames[1].text == reply.content.value
      && frames[n].ItemDone? && frames[n].item == MessageItem(TextItem, reply.content.value)
  }

  lemma {:induction false} AroundCalls(spelled: Frame, part: Frame, calls: seq<Frame>, done: Frame)
    ensures var frames := [spelled, part] + calls + [done];
      && |frames| == |calls| + 3 && frames[2..|frames| - 1] == calls
      && frames[0] == spelled && frames[1] == part && frames[|frames| - 1] == done
  {
  }

  lemma {:induction false} TailInOrder(s: Stream, calls: seq<Frame>, closed: seq<OpenCall>)
    requires (s.text == "" <==> s.textOutput.None?) && CloseAll(calls, closed)
    ensures var tail := TextClosing(s) + calls + TextItemDone(s);
      OnlyCloses(tail) && ClosedInOrder(tail, Reply(if s.text == "" then None else Some(s.text), closed))
  {
    CloseAllCloses(calls, closed);
    if s.textOutput.None? {
      assert [] + calls + [] == calls;
    } else {
      var output := s.textOutput.value;
      AroundCalls(TextDone(TextItem, output, s.text), PartDone(TextItem, output, s.text), calls,
                  ItemDone(output, MessageItem(TextItem, s.text)));
    }
  }

  lemma {:induction false} Regroup<T>(a: seq<T>, b: seq<T>, c: seq<T>, d: seq<T>)
    ensures a + b + c + d == a + (b + c + d)
  {
  }

  lemma {:induction false} ClosingsBetween(sent: seq<Frame>, tail: seq<Frame>, last: Frame)
    requires Closings(sent) == [] && OnlyCloses(tail) && !Closes(last)
    ensures Closings(sent + tail + [last]) == tail
  {
    AllClosings(sent, tail);
    ClosingsNext(sent + tail, last);
    assert tail + [] == tail;
  }

  lemma {:induction false} ClosesInOrder(s: Stream, calls: seq<Frame>, closed: seq<OpenCall>)
    requires Closings(s.sent) == [] && (s.text == "" <==> s.textOutput.None?)
    requires calls == CallClosings(s.tools, |s.tools|) && CloseAll(calls, closed)
    ensures ClosedInOrder(Closings(Closed(s).sent), Reply(if s.text == "" then None else Some(s.text), closed))
  {
    TailInOrder(s, calls, closed);
    Regroup(s.sent, TextClosing(s), calls, TextItemDone(s));
    ClosingsBetween(s.sent, TextClosing(s) + calls + TextItemDone(s), Completed(FinalOutput(s)));
  }

  /** A successful stream closes the persisted text and calls in this order. */
  lemma {:induction false} ItemsCloseInOrder(chunks: seq<Chunk>)
    ensures ClosedInOrder(Closings(Trace(chunks, false)), Persisted(chunks))
  {
    var s := FeedAll(chunks);
    var closed := ClosedCalls(CallsIn(s.tools));
    FeedAllHolds(chunks);
    NoneClosedYet(s.sent, Watch(s.sent));
    ClosedAs(s.tools);
    assert closed[..|s.tools|] == closed;
    CallsClose(s.tools, |s.tools|, closed, CallClosings(s.tools, |s.tools|), closed);
    ClosesInOrder(s, CallClosings(s.tools, |s.tools|), closed);
  }
}
