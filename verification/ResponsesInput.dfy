/** Reading a Responses request: input items fold, left to right, into internal messages, which are then
    repaired. The inverse direction writes a conversation as items. */
module ResponsesInput {
  import opened Messages
  import opened ToolPairing
  import opened ToolPairingValidity
  import opened ToolPairingRepair

  /** A message item's content: a string, a list of parts ("" for a part without text), or neither. */
  datatype Content = Text(text: string) | Parts(texts: seq<string>) | Unreadable

  datatype Item =
    | MessageItem(role: string, content: Content)
    | FunctionCall(callId: string, name: string, arguments: string)
    | FunctionCallOutput(callId: string, output: string)
    | OtherItem
    | NoObject

  datatype Input = PlainText(text: string) | Items(items: seq<Item>) | Unsupported

  datatype InputError = BadItem | BadInput | NoUsableContent | Unrepairable(cause: PairingError)

  /** The messages so far, and the assistant turn still being put together. */
  datatype Draft = Draft(done: seq<Message>, content: Option<string>, calls: seq<Call>) {
    function Pending(): seq<Message> {
      if calls == [] && content.None? then [] else [Spoken(Turn("assistant", content, calls))]
    }

    function Flush(): Draft { Draft(done + Pending(), None, []) }

    function Add(message: Message): Draft { Flush().(done := Flush().done + [message]) }
  }

  function Join(texts: seq<string>): string {
    if texts == [] then "" else texts[0] + Join(texts[1..])
  }

  function ContentText(content: Content): string {
    match content
    case Text(text) => text
    case Parts(texts) => Join(texts)
    case Unreadable => ""
  }

  function NonEmpty(text: string): Option<string> { if text == "" then None else Some(text) }

  function ReadMessage(d: Draft, role: string, text: string): Draft {
    var known := if role == "developer" then "system" else role;
    if known == "assistant" then d.Flush().(content := NonEmpty(text))
    else if known in ["user", "system"] && text != "" then d.Add(Spoken(Turn(known, Some(text), [])))
    else d.Flush()
  }

  function ReadItem(d: Draft, index: nat, item: Item): Draft {
    match item
    case MessageItem(role, content) => ReadMessage(d, role, ContentText(content))
    case FunctionCall(callId, name, arguments) =>
      if name == "" then d
      else
        var id := if callId != "" then callId else "call_missing_" + Decimal(index);
        d.(calls := d.calls + [Call(id, name, arguments)])
    case FunctionCallOutput(callId, output) => d.Add(Tool(Answer(callId, output)))
    case OtherItem => d
    case NoObject => d
  }

  function ReadItems(d: Draft, index: nat, items: seq<Item>): Draft
    decreases |items|
  {
    if items == [] then d else ReadItems(ReadItem(d, index, items[0]), index + 1, items[1..])
  }

  function Instructed(instructions: string): seq<Message> {
    if instructions == "" then [] else [Spoken(Turn("system", Some(instructions), []))]
  }

  function Finish(internal: seq<Message>): Result<seq<Message>, InputError> {
    if internal == [] then Err(NoUsableContent)
    else match Repair(internal)
      case Ok(messages) => Ok(messages)
      case Err(cause) => Err(Unrepairable(cause))
  }

  function Decode(input: Input, instructions: string): Result<seq<Message>, InputError> {
    var start := Instructed(instructions);
    match input
    case PlainText(text) => Finish(start + if text == "" then [] else [Spoken(Turn("user", Some(text), []))])
    case Items(items) =>
      if NoObject in items then Err(BadItem)
      else Finish(ReadItems(Draft(start, None, []), 0, items).Flush().done)
    case Unsupported => Err(BadInput)
  }

  /** Whatever a request holds, what is forwarded upstream passes the strict validator. */
  lemma {:induction false} DecodedIsStrict(input: Input, instructions: string)
    requires Decode(input, instructions).Ok?
    ensures StrictlyPaired(Decode(input, instructions).value) && Identified(Decode(input, instructions).value)
  {
    var start := Instructed(instructions);
    var internal := match input
      case PlainText(text) => start + if text == "" then [] else [Spoken(Turn("user", Some(text), []))]
      case Items(items) => ReadItems(Draft(start, None, []), 0, items).Flush().done
      case Unsupported => [];
    assert Decode(input, instructions) == Finish(internal);
    RepairIsStrict(internal);
  }

  // ---- The translation as it runs --------------------------------------------------------------

  function Entries(messages: seq<Message>): (entries: seq<Option<Message>>)
    ensures |entries| == |messages| && forall i :: 0 <= i < |messages| ==> entries[i] == Some(messages[i])
  {
    if messages == [] then [] else [Some(messages[0])] + Entries(messages[1..])
  }

  lemma {:induction false} RepairOfEntries(messages: seq<Message>)
    ensures RepairEntries(Entries(messages)) == Repair(messages)
  {
    assert FirstJunk(Entries(messages)) == |messages|;
    assert Objects(Entries(messages)) == messages;
  }

  class Fold {
    var internal: seq<Message>
    var pendingContent: Option<string>
    var pendingCalls: seq<Call>

    function View(): Draft
      reads this
    {
      Draft(internal, pendingContent, pendingCalls)
    }

    constructor (start: seq<Message>)
      ensures View() == Draft(start, None, [])
    {
      internal, pendingContent, pendingCalls := start, None, [];
    }

    method FlushPending()
      modifies this
      ensures View() == old(View()).Flush()
    {
      if pendingCalls != [] {
        internal := internal + [Spoken(Turn("assistant", pendingContent, pendingCalls))];
      } else if pendingContent.Some? {
        internal := internal + [Spoken(Turn("assistant", pendingContent, []))];
      }
      pendingCalls, pendingContent := [], None;
    }

    method TakeMessage(role: string, text: string)
      modifies this
      ensures View() == ReadMessage(old(View()), role, text)
    {
      var known := role;
      if known == "developer" {
        known := "system";
      }
      FlushPending();
      if known == "assistant" {
        pendingContent := NonEmpty(text);
      } else if known in ["user", "system"] && text != "" {
        internal := internal + [Spoken(Turn(known, Some(text), []))];
      }
    }

    method Take(index: nat, item: Item)
      modifies this
      ensures View() == ReadItem(old(View()), index, item)
    {
      match item
      case MessageItem(role, content) => TakeMessage(role, ContentText(content));
      case FunctionCall(callId, name, arguments) =>
        if name != "" {
          var id := callId;
          if id == "" {
            id := "call_missing_" + Decimal(index);
          }
          pendingCalls := pendingCalls + [Call(id, name, arguments)];
        }
      case FunctionCallOutput(callId, output) =>
        FlushPending();
        internal := internal + [Tool(Answer(callId, output))];
      case OtherItem =>
      case NoObject =>
    }
  }

  lemma {:induction false} ReadNext(d: Draft, n: nat, items: seq<Item>)
    requires n < |items|
    ensures ReadItems(d, n, items[n..]) == ReadItems(ReadItem(d, n, items[n]), n + 1, items[n + 1..])
  {
    assert items[n..][1..] == items[n + 1..];
  }

  /** The loop over the items; it ends early at one that is no object. */
  method TakeItems(fold: Fold, items: seq<Item>) returns (objects: bool)
    modifies fold
    ensures objects <==> NoObject !in items
    ensures objects ==> fold.View() == ReadItems(old(fold.View()), 0, items)
  {
    ghost var start := fold.View();
    for index := 0 to |items|
      invariant NoObject !in items[..index]
      invariant ReadItems(start, 0, items) == ReadItems(fold.View(), index, items[index..])
    {
      if items[index].NoObject? { return false; }
      assert items[..index + 1] == items[..index] + [items[index]];
      ReadNext(fold.View(), index, items);
      fold.Take(index, items[index]);
    }
    assert items[..|items|] == items;
    objects := true;
  }

  /** The last step: nothing usable is refused, anything else repaired. */
  method Forward(internal: seq<Message>) returns (r: Result<seq<Message>, InputError>)
    ensures r == Finish(internal)
  {
    if internal == [] { return Err(NoUsableContent); }
    RepairOfEntries(internal);
    var repaired := RepairToolPairing(Entries(internal));
    match repaired {
      case Ok(messages) => r := Ok(messages);
      case Err(cause) => r := Err(Unrepairable(cause));
    }
  }

  method ResponsesToInternal(input: Input, instructions: string) returns (r: Result<seq<Message>, InputError>)
    ensures r == Decode(input, instructions)
  {
    var fold := new Fold(Instructed(instructions));
    match input {
      case PlainText(text) =>
        if text != "" {
          fold.internal := fold.internal + [Spoken(Turn("user", Some(text), []))];
        }
        assert fold.internal + [] == fold.internal;
      case Items(items) =>
        var objects := TakeItems(fold, items);
        if !objects { return Err(BadItem); }
        fold.FlushPending();
      case Unsupported =>
        return Err(BadInput);
    }
    r := Forward(fold.internal);
  }
}
