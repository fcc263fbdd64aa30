/** The life of every output item a Responses client sees, and its agreement with what is persisted. */
module ResponsesLifecycle {
  import opened Messages
  import opened StreamChunks
  import opened ResponsesStream
  import opened StreamNames

  datatype Done = Done(output: nat, item: Item)

  datatype Stage = Begin | Streaming | Closing | Finished | Failed | Broken

  function ItemsOf(done: seq<Done>): seq<Item> {
    if done == [] then [] else ItemsOf(done[..|done| - 1]) + [done[|done| - 1].item]
  }

  /** A strict client. It keeps the items added so far with the deltas heard for each, which of them have an open
      text part, which have been spelled out in full and which text parts are closed, and the items done; it breaks
      as soon as the stream breaks its promises: items are added with consecutive output indices and ids of their own;
      deltas name an added item of their kind by index and item id, text deltas one whose part is open; then every
      added item is spelled out once with exactly the text or arguments its deltas gave ("{}" for no arguments), a
      text part is closed, and only then is the item completed, exactly once under its own index, item id and call id;
      and the final response holds each completed item exactly once. */
  datatype Client = Client(
    stage: Stage,
    items: seq<Item>,
    heard: seq<string>,
    text: string,
    calls: seq<ToolStart>,
    parts: set<nat>,
    spelled: set<nat>,
    parted: set<nat>,
    done: seq<Done>)
  {
    function Break(): Client { this.(stage := Broken) }

    predicate Known(output: nat, id: ItemId, message: bool) {
      output < |items| && output < |heard| && items[output].id == id && items[output].MessageItem? == message
    }

    predicate NewId(id: ItemId) {
      forall k :: 0 <= k < |items| ==> items[k].id != id
    }

    predicate Undone(output: nat) {
      forall k :: 0 <= k < |done| ==> done[k].output != output
    }

    function Hear(output: nat, delta: string): Client
      requires output < |heard|
    {
      this.(heard := heard[output := heard[output] + delta])
    }

    function Add(output: nat, item: Item): Client {
      if output != |items| || !NewId(item.id) then Break()
      else this.(items := items + [item], heard := heard + [""],
                 calls := calls + if item.FunctionCallItem? then [ToolStart(output, item.callId, item.name)] else [])
    }

    predicate Completes(output: nat, item: Item) {
      && Known(output, item.id, item.MessageItem?) && Undone(output) && output in spelled
      && match item
         case MessageItem(_, full) => output in parted && full == heard[output]
         case FunctionCallItem(_, callId, _, full) => callId == items[output].callId && full == OrObject(heard[output])
    }

    function ReceiveClosing(frame: Frame): Client {
      var c := this.(stage := Closing);
      match frame
      case TextDone(id, output, full) =>
        if Known(output, id, true) && output !in spelled && full == heard[output]
        then c.(spelled := spelled + {output}) else Break()
      case PartDone(id, output, full) =>
        if Known(output, id, true) && output in spelled && output in parts && output !in parted && full == heard[output]
        then c.(parted := parted + {output}) else Break()
      case ArgumentsDone(id, output, full) =>
        if Known(output, id, false) && output !in spelled && full == OrObject(heard[output])
        then c.(spelled := spelled + {output}) else Break()
      case ItemDone(output, item) =>
        if Completes(output, item) then c.(done := done + [Done(output, item)]) else Break()
      case Completed(all) =>
        if |done| == |items| && multiset(all) == multiset(ItemsOf(done)) then c.(stage := Finished) else Break()
      case _ => Break()
    }

    function ReceiveStreaming(frame: Frame): Client {
      match frame
      case ItemAdded(output, item) => Add(output, item)
      case PartAdded(id, output) =>
        if Known(output, id, true) && output !in parts then this.(parts := parts + {output}) else Break()
      case TextDelta(id, output, delta) =>
        if Known(output, id, true) && output in parts then Hear(output, delta).(text := text + delta) else Break()
      case ArgumentsDelta(id, output, delta) => if Known(output, id, false) then Hear(output, delta) else Break()
      case ErrorFrame => this.(stage := Failed)
      case _ => ReceiveClosing(frame)
    }

    function Receive(frame: Frame): Client {
      match stage
      case Begin => if frame.Created? then this.(stage := Streaming) else Break()
      case Streaming => ReceiveStreaming(frame)
      case Closing => ReceiveClosing(frame)
      case _ => Break()
    }
  }

  const FRESH := Client(Begin, [], [], "", [], {}, {}, {}, [])

  function Watch(frames: seq<Frame>): Client {
    if frames == [] then FRESH else Watch(frames[..|frames| - 1]).Receive(frames[|frames| - 1])
  }

  lemma {:induction false} WatchNext(frames: seq<Frame>, frame: Frame)
    ensures Watch(frames + [frame]) == Watch(frames).Receive(frame)
  {
  }

  lemma {:induction false} WatchTwo(frames: seq<Frame>, first: Frame, second: Frame)
    ensures Watch(frames + [first] + [second]) == Watch(frames).Receive(first).Receive(second)
  {
    WatchNext(frames, first);
    WatchNext(frames + [first], second);
  }

  // ---- The invariant of the stream, seen from the client ----------------------------------------

  ghost predicate ToolSeen(c: Client, tool: ToolState, k: nat) {
    && k < |c.calls| && c.calls[k].index == tool.place && c.calls[k].id == tool.call.id
    && c.calls[k].name in ["", tool.call.name]
    && c.Known(tool.place, CallItem(k), false) && c.items[tool.place].callId == tool.call.id
    && c.heard[tool.place] == tool.call.arguments
  }

  ghost predicate TextSeen(c: Client, textOutput: Option<nat>, text: string) {
    && c.text == text && (text == "" <==> textOutput.None?)
    && (textOutput.Some? ==> c.Known(textOutput.value, TextItem, true) && c.heard[textOutput.value] == text)
  }

  /** The item ids used so far. */
  ghost predicate IdsUsed(items: seq<Item>, calls: nat, text: bool) {
    forall i :: 0 <= i < |items| ==> if items[i].id.CallItem? then items[i].id.serial < calls else text
  }

  ghost predicate NothingClosed(c: Client, textOutput: Option<nat>) {
    c.done == [] && c.spelled == {} == c.parted && c.parts == if textOutput.Some? then {textOutput.value} else {}
  }

  ghost predicate InStep(c: Client, s: Stream) {
    && s.Valid() && c.stage == Streaming && NothingClosed(c, s.textOutput)
    && |c.items| == |c.heard| == s.next == |s.tools| + (if s.textOutput.Some? then 1 else 0)
    && |c.calls| == |s.tools| && IdsUsed(c.items, |s.tools|, s.textOutput.Some?)
    && (forall k :: 0 <= k < |s.tools| ==> ToolSeen(c, s.tools[k], k))
    && (forall j, k :: 0 <= j < k < |s.tools| ==> s.tools[j].place < s.tools[k].place)
  }

  ghost predicate Holds(s: Stream) {
    InStep(Watch(s.sent), s) && TextSeen(Watch(s.sent), s.textOutput, s.text)
  }

  lemma {:induction false} StartHolds()
    ensures Holds(START)
  {
  }

  /** The client once the text item and its part are added. */
  function WithText(c: Client): Client {
    c.(items := c.items + [MessageItem(TextItem, "")], heard := c.heard + [""], parts := c.parts + {|c.items|})
  }

  lemma {:induction false} TextAdded(c: Client, output: nat)
    requires c.stage == Streaming && output == |c.items| == |c.heard| && c.NewId(TextItem) && output !in c.parts
    ensures c.Receive(ItemAdded(output, MessageItem(TextItem, ""))).Receive(PartAdded(TextItem, output)) == WithText(c)
  {
  }

  lemma {:induction false} OpenTextInStep(c: Client, s: Stream)
    requires InStep(c, s) && TextSeen(c, s.textOutput, s.text) && s.textOutput.None?
    ensures var d := WithText(c);
      InStep(d, OpenText(s)) && d.Known(s.next, TextItem, true) && d.heard[s.next] == "" == d.text
  {
    var d, o := WithText(c), OpenText(s);
    forall k | 0 <= k < |o.tools| ensures ToolSeen(d, o.tools[k], k) { assert ToolSeen(c, s.tools[k], k); }
  }

  lemma {:induction false} OpenTextHolds(s: Stream)
    requires Holds(s) && s.textOutput.None?
    ensures var o := OpenText(s);
      && InStep(Watch(o.sent), o)
      && Watch(o.sent).Known(s.next, TextItem, true) && Watch(o.sent).heard[s.next] == "" == Watch(o.sent).text
  {
    OpenTextInStep(Watch(s.sent), s);
    TextAdded(Watch(s.sent), s.next);
    WatchTwo(s.sent, ItemAdded(s.next, MessageItem(TextItem, "")), PartAdded(TextItem, s.next));
  }

  lemma {:induction false} TextInStep(c: Client, s: Stream, output: nat, piece: string)
    requires InStep(c, s) && s.textOutput == Some(output) && piece != ""
    requires c.Known(output, TextItem, true) && c.heard[output] == s.text == c.text
    ensures var d, t := c.Receive(TextDelta(TextItem, output, piece)), s.(text := s.text + piece);
      InStep(d, t) && TextSeen(d, t.textOutput, t.text)
  {
  }

  lemma {:induction false} TakeTextHolds(s: Stream, piece: string)
    requires Holds(s)
    ensures Holds(TakeText(s, piece))
  {
    if piece != "" {
      if s.textOutput.None? { OpenTextHolds(s); }
      var o := OpenText(s);
      TextInStep(Watch(o.sent), o, o.textOutput.value, piece);
      WatchNext(o.sent, TextDelta(TextItem, o.textOutput.value, piece));
    }
  }

  /** The client once a call's item is added. */
  function With(c: Client, item: Item): Client
    requires item.FunctionCallItem?
  {
    c.(items := c.items + [item], heard := c.heard + [""],
       calls := c.calls + [ToolStart(|c.items|, item.callId, item.name)])
  }

  lemma {:induction false} CallAdded(c: Client, output: nat, item: Item)
    requires c.stage == Streaming && output == |c.items| && item.FunctionCallItem? && c.NewId(item.id)
    ensures c.Receive(ItemAdded(output, item)) == With(c, item)
  {
  }

  lemma {:induction false} ToolStillSeen(c: Client, item: Item, tool: ToolState, k: nat)
    requires item.FunctionCallItem? && ToolSeen(c, tool, k) && |c.items| == |c.heard|
    ensures ToolSeen(With(c, item), tool, k)
  {
  }

  lemma {:induction false} TextStillSeen(c: Client, item: Item, textOutput: Option<nat>, text: string)
    requires item.FunctionCallItem? && TextSeen(c, textOutput, text) && |c.items| == |c.heard|
    ensures TextSeen(With(c, item), textOutput, text)
  {
  }

  lemma {:induction false} AllToolsSeen(c: Client, s: Stream, call: OpenCall)
    requires InStep(c, s) && call.arguments == ""
    ensures var n := |s.tools|;
      var d := With(c, FunctionCallItem(CallItem(n), call.id, call.name, ""));
      var tools := s.tools + [ToolState(s.next, call)];
      && (forall k :: 0 <= k <= n ==> ToolSeen(d, tools[k], k))
      && (forall j :: 0 <= j < n ==> tools[j].place < s.next)
  {
    var item := FunctionCallItem(CallItem(|s.tools|), call.id, call.name, "");
    forall j | 0 <= j < |s.tools|
      ensures ToolSeen(With(c, item), s.tools[j], j) && s.tools[j].place < s.next {
      assert ToolSeen(c, s.tools[j], j);
      ToolStillSeen(c, item, s.tools[j], j);
    }
  }

  lemma {:induction false} AddedInStep(c: Client, s: Stream, t: Stream, call: OpenCall)
    requires InStep(c, s) && TextSeen(c, s.textOutput, s.text) && call.arguments == ""
    requires t.Valid() && t.tools == s.tools + [ToolState(s.next, call)] && t.next == s.next + 1
    requires t.textOutput == s.textOutput && t.text == s.text
    ensures var d := With(c, FunctionCallItem(CallItem(|s.tools|), call.id, call.name, ""));
      InStep(d, t) && TextSeen(d, t.textOutput, t.text)
  {
    AllToolsSeen(c, s, call);
    TextStillSeen(c, FunctionCallItem(CallItem(|s.tools|), call.id, call.name, ""), s.textOutput, s.text);
  }

  lemma {:induction false} OpenCallHolds(s: Stream, f: Fragment)
    requires Holds(s) && s.AsLedger().Opens(f, true)
    ensures Holds(FindCall(s, f).0)
  {
    var (t, n) := FindCall(s, f);
    AddedInStep(Watch(s.sent), s, t, t.tools[n].call);
    CallAdded(Watch(s.sent), s.next, FunctionCallItem(CallItem(n), t.tools[n].call.id, f.name, ""));
    WatchNext(s.sent, ItemAdded(s.next, FunctionCallItem(CallItem(n), t.tools[n].call.id, f.name, "")));
  }

  lemma {:induction false} ContinueCallHolds(s: Stream, f: Fragment)
    requires Holds(s) && !s.AsLedger().Opens(f, true)
    ensures Holds(FindCall(s, f).0)
  {
    assert forall k :: 0 <= k < |s.tools| ==> ToolSeen(Watch(s.sent), s.tools[k], k);
  }

  lemma {:induction false} ArgumentsHeard(c: Client, output: nat, id: ItemId, delta: string)
    requires c.stage == Streaming && c.Known(output, id, false)
    ensures c.Receive(ArgumentsDelta(id, output, delta)) == c.Hear(output, delta)
  {
  }

  lemma {:induction false} ToolHeard(c: Client, tool: ToolState, k: nat, output: nat, delta: string)
    requires ToolSeen(c, tool, k) && output < |c.heard|
    ensures tool.place != output ==> ToolSeen(c.Hear(output, delta), tool, k)
    ensures tool.place == output ==>
      ToolSeen(c.Hear(output, delta), tool.(call := tool.call.(arguments := tool.call.arguments + delta)), k)
  {
  }

  lemma {:induction false} TextUnheard(
    c: Client, textOutput: Option<nat>, text: string, output: nat, id: ItemId, delta: string)
    requires TextSeen(c, textOutput, text) && c.Known(output, id, false)
    ensures TextSeen(c.Hear(output, delta), textOutput, text)
  {
  }

  lemma {:induction false} ArgumentsInStep(c: Client, s: Stream, n: nat, delta: string)
    requires InStep(c, s) && TextSeen(c, s.textOutput, s.text) && n < |s.tools| && delta != ""
    ensures var d, t := c.Receive(ArgumentsDelta(CallItem(n), s.tools[n].place, delta)), TakeArguments(s, n, delta);
      InStep(d, t) && TextSeen(d, t.textOutput, t.text)
  {
    var t, place := TakeArguments(s, n, delta), s.tools[n].place;
    assert ToolSeen(c, s.tools[n], n);
    ArgumentsHeard(c, place, CallItem(n), delta);
    TextUnheard(c, s.textOutput, s.text, place, CallItem(n), delta);
    forall k | 0 <= k < |t.tools| ensures ToolSeen(c.Hear(place, delta), t.tools[k], k) {
      ToolHeard(c, s.tools[k], k, place, delta);
      assert k != n ==> s.tools[k].place != place;
    }
  }

  lemma {:induction false} ArgumentsHold(s: Stream, n: nat, delta: string)
    requires Holds(s) && n < |s.tools|
    ensures Holds(TakeArguments(s, n, delta))
  {
    if delta != "" {
      ArgumentsInStep(Watch(s.sent), s, n, delta);
      WatchNext(s.sent, ArgumentsDelta(CallItem(n), s.tools[n].place, delta));
    }
  }

  lemma {:induction false} TakeFragmentHolds(s: Stream, f: Fragment)
    requires Holds(s)
    ensures Holds(TakeFragment(s, f))
  {
    if s.AsLedger().Opens(f, true) { OpenCallHolds(s, f); } else { ContinueCallHolds(s, f); }
    var (o, k) := FindCall(s, f);
    ArgumentsHold(o, k, f.arguments);
  }

  lemma {:induction false} TakeFragmentsHold(s: Stream, fragments: seq<Fragment>)
    requires Holds(s)
    ensures Holds(TakeFragments(s, fragments))
  {
    if fragments != [] {
      var n := |fragments| - 1;
      TakeFragmentsHold(s, fragments[..n]);
      TakeFragmentHolds(TakeFragments(s, fragments[..n]), fragments[n]);
    }
  }

  lemma {:induction false} FeedAllHolds(chunks: seq<Chunk>)
    ensures Holds(FeedAll(chunks))
  {
    if chunks == [] {
      StartHolds();
    } else {
      var n := |chunks| - 1;
      var s := FeedAll(chunks[..n]);
      FeedAllHolds(chunks[..n]);
      TakeTextHolds(s, chunks[n].Piece());
      TakeFragmentsHold(TakeText(s, chunks[n].Piece()), chunks[n].Fragments());
    }
  }

  // ---- The end of the stream -----------------------------------------------------------------------

  function Dones(tools: seq<ToolState>, n: nat): (done: seq<Done>)
    requires n <= |tools|
    ensures |done| == n && forall k :: 0 <= k < n ==> done[k] == Done(tools[k].place, DoneItem(tools, k))
  {
    if n == 0 then [] else Dones(tools, n - 1) + [Done(tools[n - 1].place, DoneItem(tools, n - 1))]
  }

  lemma {:induction false} ItemsOfDones(tools: seq<ToolState>, n: nat)
    requires n <= |tools|
    ensures ItemsOf(Dones(tools, n)) == DoneItems(tools, n)
  {
    if n > 0 {
      ItemsOfDones(tools, n - 1);
      ItemsOfNext(Dones(tools, n - 1), Done(tools[n - 1].place, DoneItem(tools, n - 1)));
    }
  }

  lemma {:induction false} ItemsOfNext(done: seq<Done>, next: Done)
    ensures ItemsOf(done + [next]) == ItemsOf(done) + [next.item]
  {
  }

  /** A client that has heard all that was said and is ready for (or in) the closing frames. */
  ghost predicate Ready(c: Client, s: Stream) {
    && InStep(c.(stage := Streaming, spelled := {}, parted := {}), s) && TextSeen(c, s.textOutput, s.text)
    && c.stage in {Streaming, Closing} && c.spelled == c.parted <= c.parts
  }

  function Places(tools: seq<ToolState>, n: nat): set<nat>
    requires n <= |tools|
  {
    set k | 0 <= k < n :: tools[k].place
  }

  /** That client once the first n calls are done. */
  function After(c: Client, tools: seq<ToolState>, n: nat): Client
    requires n <= |tools|
  {
    if n == 0 then c
    else c.(stage := Closing, spelled := c.spelled + Places(tools, n), done := Dones(tools, n))
  }

  lemma {:induction false} ItemClosed(a: Client, output: nat, item: Item)
    requires a.stage in {Streaming, Closing} && a.Completes(output, item)
    ensures a.Receive(ItemDone(output, item)) == a.(stage := Closing, done := a.done + [Done(output, item)])
  {
  }

  /** Call n is known to the client, not yet done, and its deltas spelled what it is completed with. */
  lemma {:induction false} CallReady(c: Client, s: Stream, n: nat)
    requires n < |s.tools| && Ready(c, s)
    ensures var a, item, place := After(c, s.tools, n), DoneItem(s.tools, n), s.tools[n].place;
      && a.stage in {Streaming, Closing} && a.done == Dones(s.tools, n) && a.Undone(place) && place !in a.spelled
      && a.Known(place, item.id, false) && item.callId == a.items[place].callId
      && item.arguments == OrObject(a.heard[place])
  {
    assert ToolSeen(c.(stage := Streaming, spelled := {}, parted := {}), s.tools[n], n);
  }

  lemma {:induction false} CallClosed(a: Client, output: nat, item: Item)
    requires a.stage in {Streaming, Closing} && item.FunctionCallItem? && a.Known(output, item.id, false)
    requires a.Undone(output) && item.callId == a.items[output].callId && item.arguments == OrObject(a.heard[output])
    requires output !in a.spelled
    ensures a.Receive(ArgumentsDone(item.id, output, item.arguments)).Receive(ItemDone(output, item))
      == a.(stage := Closing, spelled := a.spelled + {output}, done := a.done + [Done(output, item)])
  {
  }

  lemma {:induction false} PlacesNext(tools: seq<ToolState>, n: nat)
    requires n < |tools|
    ensures Places(tools, n + 1) == Places(tools, n) + {tools[n].place}
  {
  }

  lemma {:induction false} CallDone(c: Client, s: Stream, n: nat)
    requires n < |s.tools| && Ready(c, s)
    ensures var item, place := DoneItem(s.tools, n), s.tools[n].place;
      After(c, s.tools, n).Receive(ArgumentsDone(item.id, place, item.arguments)).Receive(ItemDone(place, item))
      == After(c, s.tools, n + 1)
  {
    CallReady(c, s, n);
    CallClosed(After(c, s.tools, n), s.tools[n].place, DoneItem(s.tools, n));
    PlacesNext(s.tools, n);
    assert After(c, s.tools, n).spelled == c.spelled + Places(s.tools, n);
  }

  lemma {:induction false} AppendTwo<T>(a: seq<T>, b: seq<T>, x: T, y: T)
    ensures a + (b + [x] + [y]) == a + b + [x] + [y]
  {
  }

  lemma {:induction false} CallsDone(c: Client, frames: seq<Frame>, s: Stream, n: nat)
    requires n <= |s.tools| && c == Watch(frames) && Ready(c, s)
    ensures Watch(frames + CallClosings(s.tools, n)) == After(c, s.tools, n)
    decreases n
  {
    if n == 0 {
      assert frames + CallClosings(s.tools, 0) == frames;
    } else {
      var before := frames + CallClosings(s.tools, n - 1);
      var item, place := DoneItem(s.tools, n - 1), s.tools[n - 1].place;
      var arguments, done := ArgumentsDone(item.id, place, item.arguments), ItemDone(place, item);
      CallsDone(c, frames, s, n - 1);
      CallDone(c, s, n - 1);
      WatchTwo(before, arguments, done);
      AppendTwo(frames, CallClosings(s.tools, n - 1), arguments, done);
    }
  }

  /** The client once the text item, if any, is spelled out and its part closed. */
  function WithTextClosed(c: Client, textOutput: Option<nat>): Client {
    if textOutput.None? then c
    else c.(stage := Closing, spelled := c.spelled + {textOutput.value}, parted := c.parted + {textOutput.value})
  }

  lemma {:induction false} TextClosed(c: Client, s: Stream, output: nat)
    requires InStep(c, s) && TextSeen(c, s.textOutput, s.text) && s.textOutput == Some(output)
    ensures c.Receive(TextDone(TextItem, output, s.text)).Receive(PartDone(TextItem, output, s.text))
      == WithTextClosed(c, s.textOutput)
  {
  }

  lemma {:induction false} TextClosedReady(c: Client, s: Stream)
    requires InStep(c, s) && TextSeen(c, s.textOutput, s.text)
    ensures Ready(WithTextClosed(c, s.textOutput), s)
  {
    assert WithTextClosed(c, s.textOutput).(stage := Streaming, spelled := {}, parted := {}) == c;
  }

  lemma {:induction false} TextClosingHeard(c: Client, s: Stream)
    requires c == Watch(s.sent) && InStep(c, s) && TextSeen(c, s.textOutput, s.text)
    ensures Watch(s.sent + TextClosing(s)) == WithTextClosed(c, s.textOutput)
  {
    if s.textOutput.None? {
      assert s.sent + TextClosing(s) == s.sent;
    } else {
      var output := s.textOutput.value;
      var first, second := TextDone(TextItem, output, s.text), PartDone(TextItem, output, s.text);
      TextClosed(c, s, output);
      WatchTwo(s.sent, first, second);
      assert s.sent + TextClosing(s) == s.sent + [first] + [second];
    }
  }

  /** The text item and the calls, done in one order and listed in another, are the same items. */
  lemma {:induction false} Reordered(text: seq<Item>, calls: seq<Item>)
    ensures multiset(text + calls) == multiset(calls + text)
  {
  }

  lemma {:induction false} TextReady(c: Client, s: Stream, output: nat)
    requires Ready(c, s) && s.textOutput == Some(output) && output in c.parted
    ensures After(c, s.tools, |s.tools|).Completes(output, MessageItem(TextItem, s.text))
  {
  }

  lemma {:induction false} ResponseCompleted(b: Client, all: seq<Item>)
    requires b.stage in {Streaming, Closing} && |b.done| == |b.items| && multiset(all) == multiset(ItemsOf(b.done))
    ensures b.Receive(Completed(all)) == b.(stage := Finished)
  {
  }

  /** The client when only the final response is missing. */
  function AllDone(c: Client, s: Stream): Client {
    var a := After(c, s.tools, |s.tools|);
    if s.textOutput.None? then a
    else a.(stage := Closing, done := a.done + [Done(s.textOutput.value, MessageItem(TextItem, s.text))])
  }

  lemma {:induction false} TextItemHeard(c: Client, frames: seq<Frame>, s: Stream)
    requires Ready(c, s) && (s.textOutput.Some? ==> s.textOutput.value in c.parted)
    requires Watch(frames) == After(c, s.tools, |s.tools|)
    ensures Watch(frames + TextItemDone(s)) == AllDone(c, s)
  {
    if s.textOutput.Some? {
      var output := s.textOutput.value;
      TextReady(c, s, output);
      ItemClosed(After(c, s.tools, |s.tools|), output, MessageItem(TextItem, s.text));
      WatchNext(frames, ItemDone(output, MessageItem(TextItem, s.text)));
    } else {
      assert frames + TextItemDone(s) == frames;
    }
  }

  lemma {:induction false} AllCounted(c: Client, s: Stream)
    requires Ready(c, s)
    ensures |AllDone(c, s).done| == |c.items|
  {
  }

  lemma {:induction false} ItemsThenText(c: Client, s: Stream)
    requires c.done == []
    ensures AllDone(c, s).done == if s.textOutput.None? then Dones(s.tools, |s.tools|)
      else Dones(s.tools, |s.tools|) + [Done(s.textOutput.value, MessageItem(TextItem, s.text))]
  {
  }

  lemma {:induction false} AllItemsDone(c: Client, s: Stream)
    requires c.done == []
    ensures multiset(FinalOutput(s)) == multiset(ItemsOf(AllDone(c, s).done))
  {
    var done, calls := Dones(s.tools, |s.tools|), DoneItems(s.tools, |s.tools|);
    ItemsOfDones(s.tools, |s.tools|);
    ItemsThenText(c, s);
    if s.textOutput.Some? {
      var item := MessageItem(TextItem, s.text);
      ItemsOfNext(done, Done(s.textOutput.value, item));
      Reordered([item], calls);
      assert FinalOutput(s) == [item] + calls;
    } else {
      assert [] + calls == calls;
      assert FinalOutput(s) == calls;
    }
  }

  /** A client that has finished, having heard what it had heard before, with these items done. */
  ghost predicate FinishedAs(f: Client, c: Client, done: seq<Done>) {
    f.stage == Finished && f.text == c.text && f.calls == c.calls && f.heard == c.heard && f.done == done
  }

  lemma {:induction false} CloseFinishes(c: Client, s: Stream)
    requires c == Watch(s.sent) && InStep(c, s) && TextSeen(c, s.textOutput, s.text)
    ensures FinishedAs(Watch(Closed(s).sent), c, AllDone(c, s).done)
  {
    var texted := s.sent + TextClosing(s);
    var called := texted + CallClosings(s.tools, |s.tools|);
    var d := WithTextClosed(c, s.textOutput);
    TextClosingHeard(c, s);
    TextClosedReady(c, s);
    CallsDone(d, texted, s, |s.tools|);
    TextItemHeard(d, called, s);
    AllCounted(d, s);
    AllItemsDone(d, s);
    ResponseCompleted(AllDone(d, s), FinalOutput(s));
    WatchNext(called + TextItemDone(s), Completed(FinalOutput(s)));
  }

  function CallOf(item: Item): OpenCall
    requires item.FunctionCallItem?
  {
    OpenCall(item.callId, item.name, item.arguments)
  }

  /** The function calls among the items done, in the order they were done. */
  function DoneCalls(done: seq<Done>): seq<OpenCall> {
    if done == [] then []
    else
      var n := |done| - 1;
      DoneCalls(done[..n]) + if done[n].item.FunctionCallItem? then [CallOf(done[n].item)] else []
  }

  lemma {:induction false} AllCallsDone(done: seq<Done>)
    requires forall k :: 0 <= k < |done| ==> done[k].item.FunctionCallItem?
    ensures |DoneCalls(done)| == |done| && forall k :: 0 <= k < |done| ==> DoneCalls(done)[k] == CallOf(done[k].item)
  {
    if done != [] { AllCallsDone(done[..|done| - 1]); }
  }

  lemma {:induction false} DonesAreClosed(tools: seq<ToolState>)
    ensures DoneCalls(Dones(tools, |tools|)) == ClosedCalls(CallsIn(tools))
  {
    var done, all := Dones(tools, |tools|), ClosedCalls(CallsIn(tools));
    AllCallsDone(done);
    forall k | 0 <= k < |tools| ensures CallOf(done[k].item) == all[k] {
      assert CallsIn(tools)[k] == tools[k].call;
    }
  }

  lemma {:induction false} AllDoneCalls(c: Client, s: Stream)
    requires c.done == []
    ensures DoneCalls(AllDone(c, s).done) == ClosedCalls(CallsIn(s.tools))
  {
    ItemsThenText(c, s);
    DonesAreClosed(s.tools);
  }

  ghost predicate SeenAsPersisted(c: Client, reply: Reply) {
    && c.text == reply.content.GetOr("")
    && |c.calls| == |reply.calls|
    && forall k :: 0 <= k < |reply.calls| ==>
         && c.calls[k].id == reply.calls[k].id && c.calls[k].index < |c.heard|
         && reply.calls[k].arguments == OrObject(c.heard[c.calls[k].index])
  }

  lemma {:induction false} HeldIsSeen(c: Client, s: Stream)
    requires InStep(c, s) && TextSeen(c, s.textOutput, s.text)
    ensures SeenAsPersisted(c, MakeReply(s.text, CallsIn(s.tools)))
  {
  }

  lemma {:induction false} EndSeen(s: Stream, failed: bool)
    requires Holds(s)
    ensures var c, reply :=
      Watch(if failed then s.sent + [ErrorFrame] else Closed(s).sent), MakeReply(s.text, CallsIn(s.tools));
      && c.stage == (if failed then Failed else Finished) && SeenAsPersisted(c, reply)
      && (!failed ==> DoneCalls(c.done) == reply.calls) && c.calls == Watch(s.sent).calls
  {
    var c := Watch(s.sent);
    HeldIsSeen(c, s);
    if failed {
      WatchNext(s.sent, ErrorFrame);
    } else {
      CloseFinishes(c, s);
      AllDoneCalls(c, s);
    }
  }

  /** A strict client watches every stream to its end: a successful one finishes, a failed one stops with its
      error. Either way it has heard exactly the text, the call ids in order, and the arguments ("{}" where
      there were none) that are persisted; and the calls a successful one completes are the persisted ones, names
      included. */
  lemma {:induction false} StrictClientIsServed(chunks: seq<Chunk>, failed: bool)
    ensures Watch(Trace(chunks, failed)).stage == if failed then Failed else Finished
    ensures SeenAsPersisted(Watch(Trace(chunks, failed)), Persisted(chunks))
    ensures !failed ==> DoneCalls(Watch(Trace(chunks, failed)).done) == Persisted(chunks).calls
  {
    FeedAllHolds(chunks);
    EndSeen(FeedAll(chunks), failed);
  }

  // ---- What is persisted ---------------------------------------------------------------------------

  lemma {:induction false} FragmentIsTaken(s: Stream, f: Fragment)
    requires s.Valid()
    ensures TakeFragment(s, f).AsLedger() == s.AsLedger().Take(f, true)
    ensures TakeFragment(s, f).text == s.text
  {
    var (o, k) := FindCall(s, f);
    ToolsTaken(s.tools, s.current, f, true, o.tools, k);
    ExtendedByNothing(o.tools, k);
  }

  lemma {:induction false} FragmentsAreTaken(s: Stream, before: seq<Fragment>, fragments: seq<Fragment>)
    requires s.Valid() && s.AsLedger() == Accumulate(before, true)
    ensures TakeFragments(s, fragments).AsLedger() == Accumulate(before + fragments, true)
    ensures TakeFragments(s, fragments).text == s.text
    decreases |fragments|
  {
    if fragments == [] {
      assert before + fragments == before;
    } else {
      var n := |fragments| - 1;
      FragmentsAreTaken(s, before, fragments[..n]);
      FragmentIsTaken(TakeFragments(s, fragments[..n]), fragments[n]);
      AccumulateSnoc(before + fragments[..n], fragments[n], true);
      SplitLast(before, fragments);
    }
  }

  lemma {:induction false} FedChunk(s: Stream, before: seq<Fragment>, chunk: Chunk)
    requires s.Valid() && s.AsLedger() == Accumulate(before, true)
    ensures Feed(s, chunk).AsLedger() == Accumulate(before + chunk.Fragments(), true)
    ensures Feed(s, chunk).text == s.text + chunk.Piece()
  {
    var o := TakeText(s, chunk.Piece());
    assert o.text == s.text + chunk.Piece() && o.AsLedger() == s.AsLedger();
    FragmentsAreTaken(o, before, chunk.Fragments());
  }

  lemma {:induction false} FedSoFar(chunks: seq<Chunk>)
    ensures FeedAll(chunks).text == JoinPieces(chunks)
    ensures FeedAll(chunks).AsLedger() == Accumulate(AllFragments(chunks), true)
  {
    if chunks != [] {
      var n := |chunks| - 1;
      FedSoFar(chunks[..n]);
      FedChunk(FeedAll(chunks[..n]), AllFragments(chunks[..n]), chunks[n]);
    }
  }

  /** What is persisted is all the text, and the calls the upstream fragments add up to. */
  lemma {:induction false} PersistedReply(chunks: seq<Chunk>)
    ensures Persisted(chunks) == MakeReply(JoinPieces(chunks), Accumulate(AllFragments(chunks), true).calls)
  {
    FedSoFar(chunks);
  }

  // ---- The final response --------------------------------------------------------------------------

  lemma {:induction false} DoneItemsAre(tools: seq<ToolState>, n: nat)
    requires n <= |tools|
    ensures |DoneItems(tools, n)| == n && forall k :: 0 <= k < n ==> DoneItems(tools, n)[k] == DoneItem(tools, k)
  {
    if n > 0 { DoneItemsAre(tools, n - 1); }
  }

  ghost predicate ItemsOfCalls(items: seq<Item>, calls: seq<OpenCall>) {
    && |items| == |calls|
    && forall p :: 0 <= p < |calls| ==> items[p].FunctionCallItem? && CallOf(items[p]) == calls[p]
  }

  /** The items of a response: the persisted text first, if there is any, then the persisted calls in their order. */
  ghost predicate ItemsOfReply(items: seq<Item>, reply: Reply) {
    if reply.content.None? then ItemsOfCalls(items, reply.calls)
    else items != [] && items[0] == MessageItem(TextItem, reply.content.value) && ItemsOfCalls(items[1..], reply.calls)
  }

  lemma {:induction false} FinalCalls(tools: seq<ToolState>)
    ensures ItemsOfCalls(DoneItems(tools, |tools|), ClosedCalls(CallsIn(tools)))
  {
    DoneItemsAre(tools, |tools|);
    var closed := ClosedCalls(CallsIn(tools));
    forall p | 0 <= p < |tools| ensures CallOf(DoneItem(tools, p)) == closed[p] {
      assert CallsIn(tools)[p] == tools[p].call;
    }
  }

  lemma {:induction false} FinalItems(s: Stream)
    requires s.text == "" <==> s.textOutput.None?
    ensures ItemsOfReply(FinalOutput(s), MakeReply(s.text, CallsIn(s.tools)))
  {
    var calls := DoneItems(s.tools, |s.tools|);
    FinalCalls(s.tools);
    assert [] + calls == calls && ([MessageItem(TextItem, s.text)] + calls)[1..] == calls;
  }

  /** A successful stream ends with the completed response: the text item first, then the calls, as persisted. */
  lemma {:induction false} FinalResponse(chunks: seq<Chunk>)
    ensures var frames := Trace(chunks, false);
      && frames != [] && frames[|frames| - 1].Completed?
      && ItemsOfReply(frames[|frames| - 1].items, Persisted(chunks))
  {
    FeedAllHolds(chunks);
    FinalItems(FeedAll(chunks));
  }

  // ---- Names that arrive late ----------------------------------------------------------------------

  ghost predicate NamesHold(s: Stream) { SameNames(Watch(s.sent).calls, s.tools) }

  lemma {:induction false} OpenedNames(s: Stream, f: Fragment)
    requires Holds(s) && s.AsLedger().Opens(f, true)
    ensures NamesHold(FindCall(s, f).0) <==> NamesHold(s)
  {
    var (t, n) := FindCall(s, f);
    var call := t.tools[n].call;
    var item := FunctionCallItem(CallItem(n), call.id, f.name, "");
    CallAdded(Watch(s.sent), s.next, item);
    WatchNext(s.sent, ItemAdded(s.next, item));
    OneStarted(Watch(s.sent).calls, s.tools, ToolStart(s.next, call.id, f.name), t.tools[n]);
  }

  lemma {:induction false} ContinuedNames(s: Stream, f: Fragment)
    requires Holds(s) && !s.AsLedger().Opens(f, true)
    ensures NamesHold(FindCall(s, f).0) <==> NamesHold(s) && !BringsLateName(s.AsLedger(), f, true)
  {
    var (o, k) := FindCall(s, f);
    assert ToolSeen(Watch(s.sent), s.tools[k], k);
    OneNamed(Watch(s.sent).calls, s.tools, k, o.tools[k]);
  }

  lemma {:induction false} ArgumentsNames(o: Stream, k: nat, delta: string)
    requires Holds(o) && k < |o.tools|
    ensures NamesHold(TakeArguments(o, k, delta)) <==> NamesHold(o)
  {
    if delta != "" {
      var t := TakeArguments(o, k, delta);
      assert ToolSeen(Watch(o.sent), o.tools[k], k);
      ArgumentsHeard(Watch(o.sent), o.tools[k].place, CallItem(k), delta);
      WatchNext(o.sent, ArgumentsDelta(CallItem(k), o.tools[k].place, delta));
      assert |t.tools| == |o.tools| && forall j :: 0 <= j < |o.tools| ==> t.tools[j].call.name == o.tools[j].call.name;
    }
  }

  lemma {:induction false} FragmentNames(s: Stream, f: Fragment)
    requires Holds(s)
    ensures NamesHold(TakeFragment(s, f)) <==> NamesHold(s) && !BringsLateName(s.AsLedger(), f, true)
  {
    if s.AsLedger().Opens(f, true) {
      OpenedNames(s, f);
      OpenCallHolds(s, f);
    } else {
      ContinuedNames(s, f);
      ContinueCallHolds(s, f);
    }
    ArgumentsNames(FindCall(s, f).0, FindCall(s, f).1, f.arguments);
  }

  lemma {:induction false} FragmentsNames(s: Stream, before: seq<Fragment>, fragments: seq<Fragment>)
    requires Holds(s) && s.AsLedger() == Accumulate(before, true) && (NamesHold(s) <==> NamedInTime(before, true))
    ensures NamesHold(TakeFragments(s, fragments)) <==> NamedInTime(before + fragments, true)
    decreases |fragments|
  {
    if fragments == [] {
      assert before + fragments == before;
    } else {
      var n := |fragments| - 1;
      FragmentsNames(s, before, fragments[..n]);
      FragmentsAreTaken(s, before, fragments[..n]);
      TakeFragmentsHold(s, fragments[..n]);
      FragmentNames(TakeFragments(s, fragments[..n]), fragments[n]);
      InTimeSnoc(before + fragments[..n], fragments[n], true);
      SplitLast(before, fragments);
    }
  }

  lemma {:induction false} OpenedTextCalls(s: Stream)
    requires Holds(s)
    ensures Watch(OpenText(s).sent).calls == Watch(s.sent).calls
  {
    if s.textOutput.None? {
      TextAdded(Watch(s.sent), s.next);
      WatchTwo(s.sent, ItemAdded(s.next, MessageItem(TextItem, "")), PartAdded(TextItem, s.next));
    }
  }

  lemma {:induction false} SameCallsHeard(frames: seq<Frame>, id: ItemId, output: nat, delta: string)
    ensures Watch(frames + [TextDelta(id, output, delta)]).calls == Watch(frames).calls
  {
    WatchNext(frames, TextDelta(id, output, delta));
  }

  lemma {:induction false} TextNames(s: Stream, piece: string)
    requires Holds(s)
    ensures NamesHold(TakeText(s, piece)) <==> NamesHold(s)
  {
    if piece != "" {
      OpenedTextCalls(s);
      SameCallsHeard(OpenText(s).sent, TextItem, OpenText(s).textOutput.value, piece);
    }
  }

  lemma {:induction false} FeedAllNames(chunks: seq<Chunk>)
    ensures NamesHold(FeedAll(chunks)) <==> NamedInTime(AllFragments(chunks), true)
  {
    if chunks == [] {
      StartHolds();
    } else {
      var n := |chunks| - 1;
      var s, chunk := FeedAll(chunks[..n]), chunks[n];
      FeedAllNames(chunks[..n]);
      FeedAllHolds(chunks[..n]);
      FedSoFar(chunks[..n]);
      TextNames(s, chunk.Piece());
      TakeTextHolds(s, chunk.Piece());
      FragmentsNames(TakeText(s, chunk.Piece()), AllFragments(chunks[..n]), chunk.Fragments());
    }
  }

  /** The names the items were added with are the persisted ones if and only if no call gets its name late. */
  lemma {:induction false} NamesAgreeExactly(chunks: seq<Chunk>, failed: bool)
    ensures NamesAsPersisted(Watch(Trace(chunks, failed)).calls, Persisted(chunks).calls)
      <==> NamedInTime(AllFragments(chunks), true)
  {
    var s := FeedAll(chunks);
    FeedAllHolds(chunks);
    FeedAllNames(chunks);
    EndSeen(s, failed);
    ClosedNames(Watch(s.sent).calls, s.tools);
  }

  // ---- Only the first choice counts ----------------------------------------------------------------

  lemma {:induction false} FedAlike(chunks: seq<Chunk>)
    ensures FeedAll(FirstChoices(chunks)) == FeedAll(chunks)
  {
    if chunks != [] {
      var n := |chunks| - 1;
      FedAlike(chunks[..n]);
      assert FirstChoices(chunks)[..n] == FirstChoices(chunks[..n]);
      assert FirstChoices(chunks)[n] == FirstChoice(chunks[n]);
    }
  }

  /** What other choices a chunk holds makes no difference to what is sent and what is persisted. */
  lemma {:induction false} OtherChoicesIgnored(chunks: seq<Chunk>, failed: bool)
    ensures Trace(FirstChoices(chunks), failed) == Trace(chunks, failed)
    ensures Persisted(FirstChoices(chunks)) == Persisted(chunks)
  {
    FedAlike(chunks);
  }
}
