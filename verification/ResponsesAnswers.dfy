/** What a Responses request is answered with, case by case and message by message. */
module ResponsesAnswers {
  import opened Messages
  import opened ToolPairing
  import opened ToolPairingValidity
  import opened ToolPairingAccounting
  import opened ToolPairingNames
  import opened ResponsesInput
  import opened ResponsesRoundTrip

  // ---- A plain text --------------------------------------------------------------------------------------

  lemma {:induction false} UncalledStays(messages: seq<Message>)
    requires Uncalled(messages)
    ensures Repair(messages) == Ok(messages)
  {
    ReadUncalled(messages);
    TrimFilled(Alone(messages));
  }

  /** A text is forwarded as one user message, behind the instructions, if any, as a system message; an empty text
      adds nothing, and a request with neither is refused. */
  lemma {:induction false} PlainTextAnswer(text: string, instructions: string)
    ensures text != "" && instructions == "" ==>
      Decode(PlainText(text), instructions) == Ok([Spoken(Turn("user", Some(text), []))])
    ensures text != "" && instructions != "" ==>
      Decode(PlainText(text), instructions)
      == Ok([Spoken(Turn("system", Some(instructions), [])), Spoken(Turn("user", Some(text), []))])
    ensures text == "" && instructions != "" ==>
      Decode(PlainText(text), instructions) == Ok([Spoken(Turn("system", Some(instructions), []))])
    ensures text == "" && instructions == "" ==> Decode(PlainText(text), instructions) == Err(NoUsableContent)
  {
    var user, system := Spoken(Turn("user", Some(text), [])), Spoken(Turn("system", Some(instructions), []));
    UncalledStays([user]);
    UncalledStays([system]);
    UncalledStays([system, user]);
    assert [] + [user] == [user] && [system] + [] == [system] && [system] + [user] == [system, user];
  }

  // ---- Refusals ------------------------------------------------------------------------------------------

  predicate NoText(content: Content) {
    match content
    case Text(text) => text == ""
    case Parts(texts) => forall k :: 0 <= k < |texts| ==> texts[k] == ""
    case Unreadable => true
  }

  /** The item contributes no message and no part of one. */
  predicate SaysNothing(item: Item) {
    match item
    case MessageItem(role, content) => role !in ["user", "assistant", "system", "developer"] || NoText(content)
    case FunctionCall(_, name, _) => name == ""
    case FunctionCallOutput(_, _) => false
    case OtherItem => true
    case NoObject => true
  }

  lemma {:induction false} JoinedEmpty(texts: seq<string>)
    ensures Join(texts) == "" <==> forall k :: 0 <= k < |texts| ==> texts[k] == ""
  {
    if texts != [] {
      JoinedEmpty(texts[1..]);
      assert forall k :: 1 <= k < |texts| ==> texts[k] == texts[1..][k - 1];
    }
  }

  lemma {:induction false} TextEmpty(content: Content)
    ensures ContentText(content) == "" <==> NoText(content)
  {
    if content.Parts? { JoinedEmpty(content.texts); }
  }

  lemma {:induction false} ItemSays(d: Draft, index: nat, item: Item)
    ensures var e := ReadItem(d, index, item); e.Flush().done == [] <==> d.Flush().done == [] && SaysNothing(item)
  {
    if item.MessageItem? { TextEmpty(item.content); }
  }

  lemma {:induction false} ItemsSay(d: Draft, index: nat, items: seq<Item>)
    ensures ReadItems(d, index, items).Flush().done == []
      <==> d.Flush().done == [] && forall k :: 0 <= k < |items| ==> SaysNothing(items[k])
    decreases |items|
  {
    if items != [] {
      ItemSays(d, index, items[0]);
      ItemsSay(ReadItem(d, index, items[0]), index + 1, items[1..]);
      assert forall k :: 1 <= k < |items| ==> items[k] == items[1..][k - 1];
    }
  }

  /** Which requests are refused without a look at the pairing, and with which error. */
  lemma {:induction false} RefusedExactly(input: Input, instructions: string)
    ensures Decode(input, instructions) == Err(BadInput) <==> input.Unsupported?
    ensures Decode(input, instructions) == Err(BadItem) <==> input.Items? && NoObject in input.items
    ensures Decode(input, instructions) == Err(NoUsableContent) <==>
      instructions == "" &&
      match input
      case PlainText(text) => text == ""
      case Items(items) => NoObject !in items && forall k :: 0 <= k < |items| ==> SaysNothing(items[k])
      case Unsupported => false
  {
    if input.Items? { ItemsSay(Draft(Instructed(instructions), None, []), 0, input.items); }
  }

  // ---- What an item makes of the turn being put together -------------------------------------------------

  lemma {:induction false} JoinOfOne(text: string)
    ensures Join([]) == "" && Join([text]) == text
  {
    assert [text][1..] == [] && text + "" == text;
  }

  /** The parts of a message are joined in order. */
  lemma {:induction false} JoinInOrder(left: seq<string>, right: seq<string>)
    ensures Join(left + right) == Join(left) + Join(right)
  {
    if left == [] {
      assert left + right == right && "" + Join(right) == Join(right);
    } else {
      JoinInOrder(left[1..], right);
      assert (left + right)[1..] == left[1..] + right && (left + right)[0] == left[0];
    }
  }

  /** A message in parts is read as one with all of them joined in order, and one whose content is neither a text nor
      parts as one without text. */
  lemma {:induction false} PartsAreJoined(d: Draft, index: nat, role: string, left: seq<string>, right: seq<string>)
    ensures ReadItem(d, index, MessageItem(role, Parts(left + right)))
      == ReadItem(d, index, MessageItem(role, Text(ContentText(Parts(left)) + ContentText(Parts(right)))))
    ensures ReadItem(d, index, MessageItem(role, Parts([]))) == ReadItem(d, index, MessageItem(role, Text("")))
    ensures forall text :: ContentText(Parts([text])) == text
    ensures ReadItem(d, index, MessageItem(role, Unreadable)) == ReadItem(d, index, MessageItem(role, Text("")))
  {
    JoinInOrder(left, right);
    forall text ensures Join([text]) == text { JoinOfOne(text); }
  }

  /** The messages once the assistant's turn being put together, if any, is closed. */
  ghost predicate TurnClosed(d: Draft, done: seq<Message>) {
    if d.content == None && d.calls == [] then done == d.done
    else done == d.done + [Spoken(Turn("assistant", d.content, d.calls))]
  }

  /** A message closes the turn before it, whether or not it can be used: one of a user, of the system or of a developer
      is added behind it if it has text, an assistant's opens a turn with its text, and anything else adds nothing. */
  lemma {:induction false} MessageEndsTurn(d: Draft, index: nat, role: string, text: string)
    ensures var e := ReadItem(d, index, MessageItem(role, Text(text)));
      && e.calls == [] && (e.content == if role == "assistant" && text != "" then Some(text) else None)
      && exists closed :: TurnClosed(d, closed) &&
           e.done == if role in ["user", "system", "developer"] && text != ""
                     then closed + [Spoken(Turn(if role == "user" then "user" else "system", Some(text), []))]
                     else closed
  {
    assert TurnClosed(d, d.Flush().done);
  }

  /** An output closes the turn too and is added behind it. */
  lemma {:induction false} OutputEndsTurn(d: Draft, index: nat, callId: string, output: string)
    ensures var e := ReadItem(d, index, FunctionCallOutput(callId, output));
      && e.calls == [] && e.content == None
      && exists closed :: TurnClosed(d, closed) && e.done == closed + [Tool(Answer(callId, output))]
  {
    assert TurnClosed(d, d.Flush().done);
  }

  /** A call joins the turn, and what is neither message, call with a name nor output leaves it open. */
  lemma {:induction false} CallJoinsTurn(d: Draft, index: nat, callId: string, name: string, arguments: string)
    ensures var e := ReadItem(d, index, FunctionCall(callId, name, arguments));
      && e.done == d.done && e.content == d.content
      && (name == "" ==> e.calls == d.calls)
      && (name != "" ==> |e.calls| == |d.calls| + 1 && e.calls[..|d.calls|] == d.calls
                         && e.calls[|d.calls|].name == name && e.calls[|d.calls|].arguments == arguments
                         && (callId != "" ==> e.calls[|d.calls|].id == callId))
    ensures ReadItem(d, index, OtherItem) == d
  {
  }

  // ---- Instructions --------------------------------------------------------------------------------------

  lemma {:induction false} DoneGrows(d: Draft, index: nat, items: seq<Item>)
    ensures d.done <= ReadItems(d, index, items).Flush().done
    decreases |items|
  {
    if items != [] {
      assert d.done <= ReadItem(d, index, items[0]).done;
      DoneGrows(ReadItem(d, index, items[0]), index + 1, items[1..]);
    }
  }

  lemma {:induction false} FirstStays(messages: seq<Message>)
    requires messages != [] && Repair(messages).Ok? && messages[0].Spoken? && messages[0].turn.calls == []
    ensures Repair(messages).value != [] && Repair(messages).value[0] == messages[0]
  {
    RepairIsStrict(messages);
    RepairConserves(messages);
    TurnsComeBack(messages);
    assert Turns(messages)[0] == messages[0].turn;
    assert Turns(Repair(messages).value)[0] == Repair(messages).value[0].turn;
  }

  /** Instructions always come first, as a system message. */
  lemma {:induction false} InstructionsLead(input: Input, instructions: string)
    requires Decode(input, instructions).Ok? && instructions != ""
    ensures var messages := Decode(input, instructions).value;
      messages != [] && messages[0] == Spoken(Turn("system", Some(instructions), []))
  {
    if input.Items? {
      var d := Draft(Instructed(instructions), None, []);
      DoneGrows(d, 0, input.items);
      FirstStays(ReadItems(d, 0, input.items).Flush().done);
    } else {
      PlainTextAnswer(input.text, instructions);
    }
  }

  /** A developer's message is a system message. */
  lemma {:induction false} DeveloperIsSystem(d: Draft, index: nat, content: Content)
    ensures ReadItem(d, index, MessageItem("developer", content)) == ReadItem(d, index, MessageItem("system", content))
  {
  }

  // ---- Calls without ids ---------------------------------------------------------------------------------

  function CallItemsOf(calls: seq<Call>): seq<Item> {
    seq(|calls|, p requires 0 <= p < |calls| => FunctionCall("", calls[p].name, calls[p].arguments))
  }

  function OutputItemsOf(contents: seq<string>): seq<Item> {
    seq(|contents|, p requires 0 <= p < |contents| => FunctionCallOutput("", contents[p]))
  }

  /** The calls with the ids made up for them at their positions. */
  function NamedAt(calls: seq<Call>, index: nat): seq<Call> {
    seq(|calls|, p requires 0 <= p < |calls| => calls[p].(id := "call_missing_" + Decimal(index + p)))
  }

  lemma {:induction false} NamedAtDistinct(calls: seq<Call>, index: nat)
    ensures Distinct(CallIds(NamedAt(calls, index))) && "" !in CallIds(NamedAt(calls, index))
  {
    var ids, prefix := CallIds(NamedAt(calls, index)), "call_missing_";
    forall p, q | 0 <= p < q < |ids| ensures ids[p] != ids[q] {
      assert ids[p][|prefix|..] == Decimal(index + p) && ids[q][|prefix|..] == Decimal(index + q);
      if ids[p] == ids[q] { DecimalInjective(index + p, index + q); }
    }
  }

  lemma {:induction false} NamedFirst(calls: seq<Call>, index: nat)
    requires calls != []
    ensures NamedAt(calls, index)
      == [calls[0].(id := "call_missing_" + Decimal(index))] + NamedAt(calls[1..], index + 1)
  {
  }

  lemma {:induction false} Regrouped<T>(left: seq<T>, x: T, right: seq<T>)
    ensures left + [x] + right == left + ([x] + right)
  {
  }

  lemma {:induction false} ReadCallItems(d: Draft, index: nat, calls: seq<Call>)
    requires forall p :: 0 <= p < |calls| ==> calls[p].name != ""
    ensures ReadItems(d, index, CallItemsOf(calls)) == d.(calls := d.calls + NamedAt(calls, index))
    decreases |calls|
  {
    if calls == [] {
      assert d.calls + NamedAt(calls, index) == d.calls;
    } else {
      var items, first, rest := CallItemsOf(calls), calls[0].(id := "call_missing_" + Decimal(index)), calls[1..];
      var e := d.(calls := d.calls + [first]);
      assert items[1..] == CallItemsOf(rest) && ReadItem(d, index, items[0]) == e;
      ReadCallItems(e, index + 1, rest);
      NamedFirst(calls, index);
      Regrouped(d.calls, first, NamedAt(rest, index + 1));
    }
  }

  lemma {:induction false} ReadOutputItems(d: Draft, index: nat, contents: seq<string>)
    ensures ReadItems(d, index, OutputItemsOf(contents)).Flush().done == d.Flush().done + Nameless(contents)
    decreases |contents|
  {
    if contents != [] {
      var items, rest := OutputItemsOf(contents), contents[1..];
      assert items[1..] == OutputItemsOf(rest);
      ReadOutputItems(ReadItem(d, index, items[0]), index + 1, rest);
      assert Nameless(contents) == [Tool(Answer("", contents[0]))] + Nameless(rest);
    }
  }

  lemma {:induction false} CallsPending(start: seq<Message>, calls: seq<Call>)
    requires calls != []
    ensures Draft(start, None, [] + calls).Flush().done == start + [Spoken(Turn("assistant", None, calls))]
  {
    assert [] + calls == calls;
  }

  lemma {:induction false} ReadCallsAndOutputs(start: seq<Message>, calls: seq<Call>, contents: seq<string>)
    requires calls != [] && forall p :: 0 <= p < |calls| ==> calls[p].name != ""
    ensures ReadItems(Draft(start, None, []), 0, CallItemsOf(calls) + OutputItemsOf(contents)).Flush().done
      == start + [Spoken(Turn("assistant", None, NamedAt(calls, 0)))] + Nameless(contents)
  {
    var d := Draft(start, None, []);
    ReadCallItems(d, 0, calls);
    ReadConcat(d, 0, CallItemsOf(calls), OutputItemsOf(contents));
    ReadOutputItems(Draft(start, None, [] + NamedAt(calls, 0)), |calls|, contents);
    CallsPending(start, NamedAt(calls, 0));
  }

  lemma {:induction false} PairedUnderNew(calls: seq<Call>, contents: seq<string>, lines: seq<Message>)
    requires forall p :: 0 <= p < |calls| ==> calls[p].id == ""
    requires PairedInOrder(Turn("assistant", None, NamedAt(calls, 0)), contents, lines)
    ensures PairedInOrder(Turn("assistant", None, calls), contents, lines)
  {
  }

  lemma {:induction false} AllObjects(calls: seq<Call>, contents: seq<string>)
    ensures NoObject !in CallItemsOf(calls) + OutputItemsOf(contents)
  {
  }

  lemma {:induction false} DecodedAs(items: seq<Item>, instructions: string, internal: seq<Message>)
    requires NoObject !in items && internal != [] && Repair(internal).Ok?
    requires ReadItems(Draft(Instructed(instructions), None, []), 0, items).Flush().done == internal
    ensures Decode(Items(items), instructions) == Ok(Repair(internal).value)
  {
  }

  /** Any number of calls without ids and their outputs, which have none either, are forwarded as one turn, each call
      with an id of its own, and the outputs paired with the calls in the order they come. */
  lemma {:induction false} NamelessCallsPaired(calls: seq<Call>, contents: seq<string>, instructions: string)
    requires |calls| == |contents| > 0
    requires forall p :: 0 <= p < |calls| ==> calls[p].name != "" && calls[p].id == ""
    ensures var r, k :=
      Decode(Items(CallItemsOf(calls) + OutputItemsOf(contents)), instructions), if instructions == "" then 0 else 1;
      && r.Ok? && |r.value| >= k && PairedInOrder(Turn("assistant", None, calls), contents, r.value[k..])
  {
    var start, turn := Instructed(instructions), Turn("assistant", None, NamedAt(calls, 0));
    var internal := start + [Spoken(turn)] + Nameless(contents);
    ReadCallsAndOutputs(start, calls, contents);
    NamedAtDistinct(calls, 0);
    NamelessPairedInOrder(start, turn, contents);
    PairedUnderNew(calls, contents, Repair(internal).value[|start|..]);
    AllObjects(calls, contents);
    DecodedAs(CallItemsOf(calls) + OutputItemsOf(contents), instructions, internal);
  }
}
