/** Shared vocabulary: the internal (chat-completions shaped) message model. */
module Messages {

  datatype Option<+T> = None | Some(value: T) {
    function GetOr(default: T): T { if Some? then value else default }
  }

  datatype Result<+T, +E> = Ok(value: T) | Err(error: E)

  /** One entry of an assistant message's `tool_calls`; a missing id is "". */
  datatype Call = Call(id: string, name: string, arguments: string)

  /** A message whose role is not `tool`. No `tool_calls` key and an empty list are the same value. */
  datatype Turn = Turn(role: string, content: Option<string>, calls: seq<Call>)

  /** A message whose role is `tool`; a missing `tool_call_id` is "". */
  datatype Answer = Answer(id: string, content: string)

  datatype Message = Spoken(turn: Turn) | Tool(answer: Answer)

  function CallIds(calls: seq<Call>): seq<string> {
    seq(|calls|, i requires 0 <= i < |calls| => calls[i].id)
  }

  function AnswerIds(answers: seq<Answer>): seq<string> {
    seq(|answers|, i requires 0 <= i < |answers| => answers[i].id)
  }

  function AsSet(ids: seq<string>): set<string> {
    set x | x in ids
  }

  ghost predicate Distinct(ids: seq<string>) {
    forall i, j :: 0 <= i < j < |ids| ==> ids[i] != ids[j]
  }

  /** What a strict chat-completions validator accepts, read left to right: `pending` holds the call ids
      still to be answered, and a tool message is welcome exactly when it answers one of them. */
  predicate Accepts(messages: seq<Message>, pending: set<string>) {
    if messages == [] then pending == {}
    else match messages[0]
      case Spoken(turn) => pending == {} && Accepts(messages[1..], AsSet(CallIds(turn.calls)))
      case Tool(answer) => answer.id in pending && Accepts(messages[1..], pending - {answer.id})
  }

  predicate StrictlyPaired(messages: seq<Message>) {
    Accepts(messages, {})
  }

  /** Every call of every turn carries an id. */
  predicate Identified(messages: seq<Message>) {
    forall i :: 0 <= i < |messages| && messages[i].Spoken? ==> "" !in CallIds(messages[i].turn.calls)
  }

  /** The decimal digits of n. */
  function Decimal(n: nat): (digits: string)
    ensures digits != ""
  {
    if n < 10 then ["0123456789"[n]] else Decimal(n / 10) + ["0123456789"[n % 10]]
  }
}
