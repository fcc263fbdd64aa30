/** Writing a conversation as Responses items and reading it back. */
module ResponsesRoundTrip {
  import opened Messages
  import opened ToolPairing
  import opened ToolPairingValidity
  import opened ResponsesInput

  function CallItems(calls: seq<Call>, mint: nat -> string): seq<Item> {
    if calls == [] then []
    else
      var n := |calls| - 1;
      var call := calls[n];
      CallItems(calls[..n], mint) + [FunctionCall(
        if call.id != "" then call.id else mint(n),
        if call.name != "" then call.name else "function",
        if call.arguments != "" then call.arguments else "{}")]
  }

  /** The output items of an assistant message; `mint` supplies a call id where one is missing. */
  function OutputItems(turn: Turn, mint: nat -> string): seq<Item> {
    (match turn.content
     case Some(text) => if text == "" then [] else [MessageItem("assistant", Parts([text]))]
     case None => [])
    + CallItems(turn.calls, mint)
  }

  /** An item for a call: with what the call has, or else the minted id, the name "function", the arguments "{}". */
  ghost predicate IsItemOf(item: Item, call: Call, minted: string) {
    && item.FunctionCall?
    && item.callId == (if call.id == "" then minted else call.id)
    && item.name == (if call.name == "" then "function" else call.name)
    && item.arguments == (if call.arguments == "" then "{}" else call.arguments)
  }

  /** One item per call, in order. */
  lemma {:induction false} CallItemsAre(calls: seq<Call>, mint: nat -> string)
    ensures |CallItems(calls, mint)| == |calls|
    ensures forall p :: 0 <= p < |calls| ==> IsItemOf(CallItems(calls, mint)[p], calls[p], mint(p))
  {
    if calls != [] { CallItemsAre(calls[..|calls| - 1], mint); }
  }

  predicate HasText(turn: Turn) { turn.content.Some? && turn.content.value != "" }

  /** The items of any assistant message: its text, if it has any, as one part; then the items of its calls. */
  lemma {:induction false} TextFirst(turn: Turn, mint: nat -> string)
    ensures HasText(turn) ==>
      OutputItems(turn, mint) == [MessageItem("assistant", Parts([turn.content.value]))] + CallItems(turn.calls, mint)
    ensures !HasText(turn) ==> OutputItems(turn, mint) == CallItems(turn.calls, mint)
  {
    assert [] + CallItems(turn.calls, mint) == CallItems(turn.calls, mint);
  }

  method OutputItemsFromMessage(turn: Turn, mint: nat -> string) returns (items: seq<Item>)
    ensures items == OutputItems(turn, mint)
  {
    items := [];
    var content := turn.content.GetOr("");
    if content != "" {
      items := items + [MessageItem("assistant", Parts([content]))];
    }
    ghost var texts := items;
    assert turn.calls[..0] == [];
    for n := 0 to |turn.calls|
      invariant items == texts + CallItems(turn.calls[..n], mint)
    {
      var call := turn.calls[n];
      assert turn.calls[..n + 1][..n] == turn.calls[..n];
      items := items + [FunctionCall(
        if call.id != "" then call.id else mint(n),
        if call.name != "" then call.name else "function",
        if call.arguments != "" then call.arguments else "{}")];
    }
    assert turn.calls[..|turn.calls|] == turn.calls;
  }

  /** One message as Responses items: an assistant's as `OutputItems`, any other as a client sends it. */
  function ItemsOf(message: Message, mint: nat -> string): seq<Item> {
    match message
    case Spoken(turn) =>
      if turn.role == "assistant" then OutputItems(turn, mint)
      else [MessageItem(turn.role, Text(turn.content.GetOr("")))]
    case Tool(answer) => [FunctionCallOutput(answer.id, answer.content)]
  }

  function Encode(conversation: seq<Message>, mint: nat -> string): seq<Item> {
    if conversation == [] then [] else ItemsOf(conversation[0], mint) + Encode(conversation[1..], mint)
  }

  /** Texts, names and arguments are non-empty; only assistants call tools, and they say or call something. */
  predicate Encodable(message: Message) {
    message.Spoken? ==>
      var turn := message.turn;
      && (turn.content.Some? ==> turn.content.value != "")
      && (forall c :: c in turn.calls ==> c.id != "" && c.name != "" && c.arguments != "")
      && if turn.role == "assistant" then turn.content.Some? || turn.calls != []
         else turn.role in ["user", "system"] && turn.content.Some? && turn.calls == []
  }

  predicate TextOnly(message: Message) {
    message.Spoken? && message.turn.role == "assistant" && message.turn.content.Some? && message.turn.calls == []
  }

  predicate CallsOnly(message: Message) {
    message.Spoken? && message.turn.role == "assistant" && message.turn.content.None?
  }

  /** Joins every text-only assistant message with a content-less one directly behind it. */
  function Joined(conversation: seq<Message>): seq<Message> {
    if conversation == [] then []
    else if |conversation| > 1 && TextOnly(conversation[0]) && CallsOnly(conversation[1]) then
      [Spoken(Turn("assistant", conversation[0].turn.content, conversation[1].turn.calls))] + Joined(conversation[2..])
    else [conversation[0]] + Joined(conversation[1..])
  }

  ghost predicate Separated(conversation: seq<Message>) {
    forall i :: 0 <= i < |conversation| - 1 ==> !(TextOnly(conversation[i]) && CallsOnly(conversation[i + 1]))
  }

  lemma {:induction false} ReadConcat(d: Draft, index: nat, left: seq<Item>, right: seq<Item>)
    ensures ReadItems(d, index, left + right) == ReadItems(ReadItems(d, index, left), index + |left|, right)
    decreases |left|
  {
    if left == [] {
      assert left + right == right;
    } else {
      assert (left + right)[0] == left[0] && (left + right)[1..] == left[1..] + right;
      ReadConcat(ReadItem(d, index, left[0]), index + 1, left[1..], right);
    }
  }

  lemma {:induction false} ReadCalls(d: Draft, index: nat, calls: seq<Call>, mint: nat -> string)
    requires forall c :: c in calls ==> c.id != "" && c.name != "" && c.arguments != ""
    ensures ReadItems(d, index, CallItems(calls, mint)) == d.(calls := d.calls + calls)
    decreases |calls|
  {
    if calls == [] {
      assert d.calls + calls == d.calls;
    } else {
      var n := |calls| - 1;
      var front, last := CallItems(calls[..n], mint), [FunctionCall(calls[n].id, calls[n].name, calls[n].arguments)];
      assert calls[n] in calls;
      ReadCalls(d, index, calls[..n], mint);
      ReadConcat(d, index, front, last);
      assert ReadItems(ReadItems(d, index, front), index + |front|, last)
          == ReadItem(ReadItems(d, index, front), index + |front|, last[0]);
      assert calls[..n] + [calls[n]] == calls;
    }
  }

  // ---- Reading back one message at a time ------------------------------------------------------

  /** A turn with calls is never followed by a content-less one: its answers come in between. */
  ghost predicate AnsweredBetween(conversation: seq<Message>) {
    forall i :: 0 <= i < |conversation| - 1 && conversation[i].Spoken? && conversation[i].turn.calls != [] ==>
      conversation[i + 1].Tool?
  }

  ghost predicate AllEncodable(conversation: seq<Message>) {
    forall i :: 0 <= i < |conversation| ==> Encodable(conversation[i])
  }

  /** What reading the items of one message does to the draft. */
  function Heard(d: Draft, message: Message): Draft {
    if message.Tool? || message.turn.role != "assistant" then d.Add(message)
    else if message.turn.content.Some? then Draft(d.Flush().done, message.turn.content, message.turn.calls)
    else d.(calls := d.calls + message.turn.calls)
  }

  lemma {:induction false} ReadOne(d: Draft, index: nat, item: Item)
    ensures ReadItems(d, index, [item]) == ReadItem(d, index, item)
  {
  }

  lemma {:induction false} ReadMessageItems(d: Draft, index: nat, message: Message, mint: nat -> string)
    requires Encodable(message)
    ensures ReadItems(d, index, ItemsOf(message, mint)) == Heard(d, message)
  {
    match message
    case Tool(answer) => ReadOne(d, index, FunctionCallOutput(answer.id, answer.content));
    case Spoken(turn) =>
      if turn.role != "assistant" {
        ReadOne(d, index, MessageItem(turn.role, Text(turn.content.value)));
      } else {
        var calls := CallItems(turn.calls, mint);
        match turn.content {
          case None =>
            assert OutputItems(turn, mint) == calls;
            ReadCalls(d, index, turn.calls, mint);
          case Some(text) =>
            var item := MessageItem("assistant", Parts([text]));
            assert Join([text]) == text by { assert [text][1..] == []; }
            assert OutputItems(turn, mint) == [item] + calls;
            ReadConcat(d, index, [item], calls);
            ReadOne(d, index, item);
            ReadCalls(ReadItem(d, index, item), index + 1, turn.calls, mint);
            assert [] + turn.calls == turn.calls;
        }
      }
  }

  predicate Voiced(message: Message) {
    message.Spoken? && message.turn.role == "assistant" && message.turn.content.Some?
  }

  /** A message that is not content-less leaves what stands before it alone. */
  lemma {:induction false} JoinedBefore(pending: seq<Message>, message: Message, rest: seq<Message>)
    requires |pending| <= 1 && !CallsOnly(message)
    ensures Joined(pending + ([message] + rest)) == pending + Joined([message] + rest)
  {
    var all := pending + ([message] + rest);
    if pending == [] {
      assert all == [message] + rest;
    } else {
      assert all[1..] == [message] + rest && all[1] == message;
    }
  }

  lemma {:induction false} HeardCallsOnly(d: Draft, message: Message, rest: seq<Message>)
    requires CallsOnly(message) && message.turn.calls != [] && d.calls == []
    ensures Heard(d, message).done + Joined(Heard(d, message).Pending() + rest)
         == d.done + Joined(d.Pending() + ([message] + rest))
  {
    var heard, all := Heard(d, message), d.Pending() + ([message] + rest);
    assert d.calls + message.turn.calls == message.turn.calls;
    if d.content.Some? {
      assert all[0] == d.Pending()[0] && all[1] == message && all[2..] == rest;
      assert (heard.Pending() + rest)[1..] == rest;
    } else {
      assert all == [message] + rest;
    }
  }

  lemma {:induction false} Grouped<T>(a: seq<T>, b: seq<T>, c: seq<T>, d: seq<T>)
    ensures a + b + c + d == a + (b + (c + d))
  {
  }

  lemma {:induction false} HeardAside(d: Draft, message: Message, rest: seq<Message>)
    requires !CallsOnly(message) && !Voiced(message)
    ensures Heard(d, message).done + Joined(Heard(d, message).Pending() + rest)
         == d.done + Joined(d.Pending() + ([message] + rest))
  {
    JoinedBefore(d.Pending(), message, rest);
    assert [] + rest == rest;
    assert ([message] + rest)[1..] == rest;
    Grouped(d.done, d.Pending(), [message], Joined(rest));
  }

  /** Where the draft holds an unfinished turn, the next message either joins it or ends it. */
  lemma {:induction false} HeardJoins(d: Draft, message: Message, rest: seq<Message>)
    requires Encodable(message) && (d.calls != [] ==> message.Tool?)
    ensures Heard(d, message).done + Joined(Heard(d, message).Pending() + rest)
         == d.done + Joined(d.Pending() + ([message] + rest))
  {
    if CallsOnly(message) {
      HeardCallsOnly(d, message, rest);
    } else if Voiced(message) {
      JoinedBefore(d.Pending(), message, rest);
      assert Heard(d, message).Pending() == [message];
    } else {
      HeardAside(d, message, rest);
    }
  }

  lemma {:induction false} RestIsReadable(d: Draft, conversation: seq<Message>)
    requires conversation != [] && AllEncodable(conversation) && AnsweredBetween(conversation)
    requires d.calls != [] ==> conversation[0].Tool?
    ensures var heard, rest := Heard(d, conversation[0]), conversation[1..];
      && AllEncodable(rest) && AnsweredBetween(rest)
      && (heard.calls != [] && rest != [] ==> rest[0].Tool?)
  {
    var rest := conversation[1..];
    assert forall i :: 0 <= i < |rest| ==> rest[i] == conversation[i + 1];
  }

  lemma {:induction false} EncodeFirst(message: Message, rest: seq<Message>, mint: nat -> string)
    ensures Encode([message] + rest, mint) == ItemsOf(message, mint) + Encode(rest, mint)
  {
    assert ([message] + rest)[1..] == rest;
  }

  /** Reading back what a conversation is written as adds the conversation to the draft, joined. */
  ghost predicate ReadsBack(d: Draft, index: nat, conversation: seq<Message>, mint: nat -> string) {
    ReadItems(d, index, Encode(conversation, mint)).Flush().done == d.done + Joined(d.Pending() + conversation)
  }

  /** `heard` is the draft that the items of the first message leave. */
  lemma {:induction false} ReadsBackFrom(
    d: Draft, heard: Draft, index: nat, whole: seq<Message>, rest: seq<Message>, items: seq<Item>, mint: nat -> string)
    requires Encode(whole, mint) == items + Encode(rest, mint) && ReadItems(d, index, items) == heard
    requires ReadsBack(heard, index + |items|, rest, mint)
    requires heard.done + Joined(heard.Pending() + rest) == d.done + Joined(d.Pending() + whole)
    ensures ReadsBack(d, index, whole, mint)
  {
    ReadConcat(d, index, items, Encode(rest, mint));
  }

  lemma {:induction false} ReadFirst(
    d: Draft, heard: Draft, index: nat, message: Message, rest: seq<Message>, mint: nat -> string)
    requires ReadItems(d, index, ItemsOf(message, mint)) == heard
    requires heard.done + Joined(heard.Pending() + rest) == d.done + Joined(d.Pending() + ([message] + rest))
    requires ReadsBack(heard, index + |ItemsOf(message, mint)|, rest, mint)
    ensures ReadsBack(d, index, [message] + rest, mint)
  {
    EncodeFirst(message, rest, mint);
    ReadsBackFrom(d, heard, index, [message] + rest, rest, ItemsOf(message, mint), mint);
  }

  /** The draft that reading the first message leaves. */
  lemma {:induction false} HearFirst(d: Draft, index: nat, conversation: seq<Message>, mint: nat -> string)
    returns (heard: Draft)
    requires conversation != [] && Encodable(conversation[0]) && (d.calls != [] ==> conversation[0].Tool?)
    ensures heard == Heard(d, conversation[0]) && ReadItems(d, index, ItemsOf(conversation[0], mint)) == heard
    ensures heard.done + Joined(heard.Pending() + conversation[1..]) == d.done + Joined(d.Pending() + conversation)
  {
    heard := Heard(d, conversation[0]);
    ReadMessageItems(d, index, conversation[0], mint);
    HeardJoins(d, conversation[0], conversation[1..]);
    assert [conversation[0]] + conversation[1..] == conversation;
  }

  lemma {:induction false} ReadConversation(d: Draft, index: nat, conversation: seq<Message>, mint: nat -> string)
    requires AllEncodable(conversation) && AnsweredBetween(conversation)
    requires d.calls != [] && conversation != [] ==> conversation[0].Tool?
    ensures ReadsBack(d, index, conversation, mint)
    decreases |conversation|
  {
    if conversation == [] {
      assert d.Pending() + conversation == d.Pending();
      assert Joined(d.Pending()) == d.Pending();
    } else {
      var message, rest := conversation[0], conversation[1..];
      assert [message] + rest == conversation && Encodable(message);
      var heard := HearFirst(d, index, conversation, mint);
      RestIsReadable(d, conversation);
      ReadConversation(heard, index + |ItemsOf(message, mint)|, rest, mint);
      ReadFirst(d, heard, index, message, rest, mint);
    }
  }

  // ---- Joining keeps a conversation strictly paired -----------------------------------------------

  lemma {:induction false} AnswersInBetween(conversation: seq<Message>, pending: set<string>)
    requires Accepts(conversation, pending)
    ensures AnsweredBetween(conversation)
    ensures pending != {} && conversation != [] ==> conversation[0].Tool?
  {
    if conversation != [] {
      var rest := conversation[1..];
      match conversation[0]
      case Tool(answer) => AnswersInBetween(rest, pending - {answer.id});
      case Spoken(turn) =>
        AnswersInBetween(rest, AsSet(CallIds(turn.calls)));
        if turn.calls != [] { SetOfSome(CallIds(turn.calls)); }
      assert forall i :: 0 < i < |conversation| ==> conversation[i] == rest[i - 1];
    }
  }

  lemma {:induction false} JoinedAccepted(conversation: seq<Message>, pending: set<string>)
    requires Accepts(conversation, pending)
    ensures Accepts(Joined(conversation), pending)
    decreases |conversation|
  {
    if conversation == [] {
    } else if |conversation| > 1 && TextOnly(conversation[0]) && CallsOnly(conversation[1]) {
      assert CallIds(conversation[0].turn.calls) == [] && AsSet([]) == {};
      assert conversation[1..][0] == conversation[1] && conversation[1..][1..] == conversation[2..];
      JoinedAccepted(conversation[2..], AsSet(CallIds(conversation[1].turn.calls)));
      var joined := Spoken(Turn("assistant", conversation[0].turn.content, conversation[1].turn.calls));
      assert ([joined] + Joined(conversation[2..]))[1..] == Joined(conversation[2..]);
    } else {
      assert ([conversation[0]] + Joined(conversation[1..]))[1..] == Joined(conversation[1..]);
      match conversation[0]
      case Tool(answer) => JoinedAccepted(conversation[1..], pending - {answer.id});
      case Spoken(turn) => JoinedAccepted(conversation[1..], AsSet(CallIds(turn.calls)));
    }
  }

  lemma {:induction false} JoinedIdentified(conversation: seq<Message>)
    requires Identified(conversation)
    ensures Identified(Joined(conversation))
    decreases |conversation|
  {
    if conversation == [] {
    } else if |conversation| > 1 && TextOnly(conversation[0]) && CallsOnly(conversation[1]) {
      assert forall i :: 0 <= i < |conversation[2..]| ==> conversation[2..][i] == conversation[i + 2];
      JoinedIdentified(conversation[2..]);
    } else {
      assert forall i :: 0 <= i < |conversation[1..]| ==> conversation[1..][i] == conversation[i + 1];
      JoinedIdentified(conversation[1..]);
    }
  }

  lemma {:induction false} JoinedLength(conversation: seq<Message>)
    ensures |Joined(conversation)| <= |conversation|
    ensures Joined(conversation) == conversation <==> Separated(conversation)
    decreases |conversation|
  {
    if conversation == [] {
    } else if |conversation| > 1 && TextOnly(conversation[0]) && CallsOnly(conversation[1]) {
      JoinedLength(conversation[2..]);
      assert !Separated(conversation);
    } else {
      var rest := conversation[1..];
      JoinedLength(rest);
      assert forall i :: 0 <= i < |rest| ==> rest[i] == conversation[i + 1];
      assert ([conversation[0]] + Joined(rest))[1..] == Joined(rest);
      if Separated(rest) {
        forall i | 0 <= i < |conversation| - 1 ensures !(TextOnly(conversation[i]) && CallsOnly(conversation[i + 1])) {
          if i > 0 { assert conversation[i] == rest[i - 1] && conversation[i + 1] == rest[i]; }
        }
        assert [conversation[0]] + rest == conversation;
      }
    }
  }

  // ---- The round trip --------------------------------------------------------------------------

  lemma {:induction false} EncodableIdentified(conversation: seq<Message>)
    requires AllEncodable(conversation)
    ensures Identified(conversation)
  {
  }

  lemma {:induction false} EncodeHasNoJunk(conversation: seq<Message>, mint: nat -> string)
    ensures NoObject !in Encode(conversation, mint)
  {
    if conversation != [] {
      EncodeHasNoJunk(conversation[1..], mint);
      if conversation[0].Spoken? { CallItemsAreCalls(conversation[0].turn.calls, mint); }
    }
  }

  lemma {:induction false} CallItemsAreCalls(calls: seq<Call>, mint: nat -> string)
    ensures forall item :: item in CallItems(calls, mint) ==> item.FunctionCall?
  {
    if calls != [] { CallItemsAreCalls(calls[..|calls| - 1], mint); }
  }

  lemma {:induction false} StrictAfterInstructions(messages: seq<Message>, instructions: string)
    requires StrictlyPaired(messages) && Identified(messages)
    ensures StrictlyPaired(Instructed(instructions) + messages) && Identified(Instructed(instructions) + messages)
  {
    if instructions == "" {
      assert Instructed(instructions) + messages == messages;
    } else {
      var system := Spoken(Turn("system", Some(instructions), []));
      assert Instructed(instructions) == [system];
      assert ([system] + messages)[1..] == messages;
      assert CallIds([]) == [] && AsSet([]) == {};
    }
  }

  /** Any strictly paired, encodable conversation reads back as itself, except that a text-only assistant
      message is joined with a content-less one directly behind it. */
  lemma {:induction false} ReadsBackJoined(conversation: seq<Message>, instructions: string, mint: nat -> string)
    requires StrictlyPaired(conversation) && AllEncodable(conversation)
    requires conversation != [] || instructions != ""
    ensures Decode(Items(Encode(conversation, mint)), instructions)
      == Ok(Instructed(instructions) + Joined(conversation))
  {
    var start := Draft(Instructed(instructions), None, []);
    AnswersInBetween(conversation, {});
    ReadConversation(start, 0, conversation, mint);
    assert start.Pending() + conversation == conversation;
    EncodeHasNoJunk(conversation, mint);
    JoinedAccepted(conversation, {});
    EncodableIdentified(conversation);
    JoinedIdentified(conversation);
    StrictAfterInstructions(Joined(conversation), instructions);
    RepairFixesStrict(Instructed(instructions) + Joined(conversation));
    assert conversation != [] ==> Joined(conversation) != [];
  }

  /** The round trip is exact if and only if no text-only assistant message stands directly before a
      content-less one. */
  lemma {:induction false} RoundTripExactly(conversation: seq<Message>, mint: nat -> string)
    requires StrictlyPaired(conversation) && AllEncodable(conversation) && conversation != []
    ensures Decode(Items(Encode(conversation, mint)), "") == Ok(conversation) <==> Separated(conversation)
  {
    ReadsBackJoined(conversation, "", mint);
    assert Instructed("") + Joined(conversation) == Joined(conversation);
    JoinedLength(conversation);
  }
}
