# Verification of the Invincible gateway's hard cores

A Dafny model of the parts of the gateway where state, order and interleaving matter, with proofs of what they
promise. Check the whole project with `dafny verify dfyconfig.toml`.

- **Tool-call pairing.** `ToolPairing` gives the meaning of `repair_tool_pairing` on blocks (a turn with the results
  behind it); `ToolPairingValidity`, `ToolPairingAccounting`, `ToolPairingIds`, `ToolPairingNames`,
  `ToolPairingContents` and `ToolPairingPromises` prove what it guarantees; `ToolPairingRepair` is the imperative
  algorithm, with hand-maintained list positions, proved equal to it.
- **Responses translation.** `ResponsesInput` reads a request's items into internal messages with a mutable fold;
  `ResponsesAnswers` says what each request is answered with, refusals included; `ResponsesRoundTrip` writes a
  conversation as items and says exactly when it reads back as itself.
- **Streams.** `StreamChunks` has the three tool-call accumulators; `Accumulators` says exactly on which streams they
  agree with each other and with the calls grouped by index. `AnthropicStream` and `ResponsesStream` are the event
  generators as objects with counters; `AnthropicAgreement` and `ResponsesLifecycle` check every frame sequence against
  a protocol automaton and a strict client written independently, and against what is persisted. `StreamDeltas`
  proves that every piece is passed on as it arrives, `ResponsesClosing` in which order items are closed. `ChatStream`
  is the chat completions stream; `StreamNames` is about names that arrive late.
- **Job dispatch.** `AgentDispatch` is the protocol as atomic steps between awaits, with deques as heap objects;
  `AgentDispatchSafety` proves safety over every run. `AgentDispatchLines` says which jobs the deques of a state can
  still hand out; from it `AgentDispatchOver` derives exactly when a job is handed out after its dispatch is over, and
  `AgentDispatchOnce` exactly when it is handed out at most once; `AgentDispatchUsers` has a condition per user.
  `AgentTables` says who is attached, which push is due and who may answer, `AgentOrder` that queues keep the order of
  dispatch. `AgentDispatchHazards` shows the shortest ways in which jobs are handed out twice or too late, and
  `AgentRegistry` is the object, each of whose methods is one of those steps.
- **Similar memories.** `SimilarEdges` computes the edges; `SimilarEdgesQuality` proves the caps and that the greedy
  pick is within a factor of two of any other.
- **Tunnels.** `TunnelSpend` and `TunnelRate` are the byte and rate caps of `spend`; `TunnelTables` proves the tables
  consistent and the byte cap kept in every reachable state, `TunnelAnswers` what each operation answers and leaves,
  and `TunnelRegistry` is the object, whose tunnels are records that it shares with the calls of `spend` asleep on
  them.
- **Device flow.** `DeviceFlow` is every transaction of the device-code store as interleaved steps, `DeviceFlowSafety`
  what every run of them keeps, and `DeviceCodeStore` the object with its statements and rollbacks.

How the source is read:

- A missing or empty `tool_calls` list is the same value, a missing id is `""`, and tool arguments, contents and ids
  are opaque strings. Equality is by value: `repair_tool_pairing` rebuilds a turn's dict where its documentation says
  the same objects come back.
- A made-up call id (`uuid4`, `secrets`) is a fresh abstract value that equals no other.
- In the streams, the branches in which a late id fills a gap (`invincible/compat/anthropic.py:601`,
  `invincible/compat/responses.py:675`) cannot be taken, because every call has an id from the start; an id that
  arrives late opens a second call. Likewise the branch `invincible/compat/common.py:209-212` that binds a folded
  result to another id cannot be taken.
- Dispatch: a send that raises has not delivered. A held poll may wake at any time, which covers every behaviour
  of the wake-up event. Clock readings are arbitrary. The object's sweep has the age test and is told whether other
  tables still know the user; the protocol lets it forget any idle user, which covers both.
- Device flow: transactions run at read-committed isolation, so a poll is split between its SELECT and its first
  write; from there the row lock keeps other writers out until it commits.

Where code and documentation disagree, the code is modelled, and a lemma says what it does instead:
`ToolPairingPromises.LateCallCannotAdoptNameless`, `ToolPairingIds.UnknownResultDisplacesAnother`,
`Accumulators.ChatMirrorsExactly`, `AnthropicAgreement.NamesAgreeExactly`, `ResponsesLifecycle.NamesAgreeExactly`,
`AgentDispatchHazards.CancelledPushStillRuns`, `AgentDispatchHazards.LeftJobStillHanded`,
`AgentDispatchHazards.StaleDequeHandsTwice`, `AgentDispatchHazards.PushRaceHandsTwice`,
`AgentDispatchHazards.PushToHeldPollHandsTwice`,
`TunnelSpend.OvershootReached`, `DeviceFlowSafety.HastyPollsLeaveNoTrace`. Each has its exact condition, or the property
that does hold, beside it: `RepairSucceedsExactly`, `IdsKeptWhateverSaid`, `AllQuiet`, `NamedInTime`,
`HandedAfterLeavingExactly` with `HandedAfterCancelExactly`, `NextOnceExactly` with `NotCalmHandsTwice`,
`OvershootBounded`, `PollClaimsExactly`.

## Model

| member | source | states |
|---|---|---|
| `ToolPairingRepair.RepairToolPairing` | invincible/compat/common.py:89-237 | The imperative repair - one pass inserting into the middle of the output list while keeping every turn's recorded position right, a fold of the buffered results, a drop of dangling calls - returns for every request body exactly what the block-level meaning `RepairEntries` says, error index included |
| `ToolPairingRepair.ReadEntries` | invincible/compat/common.py:143-195 | The first pass over the request stops at the first entry that is not an object, and otherwise leaves the list and the records the blocks stand for |
| `ToolPairingRepair.Repairer.Insert` | invincible/compat/common.py:128-138 | A result goes directly behind its turn and the results already there; every recorded position stays right |
| `ToolPairingRepair.Repairer.ShiftBehind` | invincible/compat/common.py:134-136 | Exactly the turns at or behind the insertion point move by one; their records are otherwise unchanged |
| `ToolPairingRepair.Repairer.Target` | invincible/compat/common.py:170-187 | Finds the turn and the call a result is bound to: the latest turn naming its id if that call is unanswered, else the first unanswered call of the latest turn that has one, else none |
| `ToolPairingRepair.Repairer.AddTurn` | invincible/compat/common.py:147-168 | A turn is appended with missing call ids filled in, as the latest block |
| `ToolPairingRepair.Repairer.Receive` | invincible/compat/common.py:143-195 | One message of the pass takes the state of the blocks one step further |
| `ToolPairingRepair.Repairer.FoldOne` | invincible/compat/common.py:199-214 | A buffered result is folded into the latest turn waiting for its id, or stays buffered |
| `ToolPairingRepair.Repairer.FoldBuffered` | invincible/compat/common.py:197-214 | All buffered results, although removed from the list being gone through |
| `ToolPairingRepair.Repairer.DropDangling` | invincible/compat/common.py:216-228 | In every turn exactly the unanswered calls go, in place, and nothing else moves |
| `ToolPairingRepair.LeastIndex` | invincible/compat/common.py:231-231 | The error names the least buffered index |
| `ToolPairingValidity.RepairIsStrict` | invincible/compat/common.py:90-97 | Whatever comes in, what is returned passes an independently written strict validator: each turn is followed at once by one result for each of its call ids, no result sits elsewhere, and every call has an id |
| `ToolPairingValidity.RepairFixesStrict` | invincible/compat/common.py:121-122 | A list the validator accepts with all calls identified comes back equal, even when turns reuse an id |
| `ToolPairingValidity.RepairIsIdempotent` | invincible/compat/common.py:121-122 | Repairing what was repaired changes nothing |
| `ToolPairingValidity.MainPassSound` | invincible/compat/common.py:143-195 | At every point of the pass a turn's results answer distinct calls of that turn |
| `ToolPairingAccounting.RepairConserves` | invincible/compat/common.py:143-228 | On success: same length, the results are a permutation of the input's with their content, and the turns are the input's in order, changed only by filled-in ids and removed calls |
| `ToolPairingAccounting.RoomIsSlack` | invincible/compat/common.py:170-195 | Unanswered calls always number the buffered results minus the balance of results over distinct calls |
| `ToolPairingAccounting.BufferedIsPeak` | invincible/compat/common.py:170-191 | The number of buffered results is the highest balance of results over distinct calls that any prefix reaches, whatever the ids are |
| `ToolPairingAccounting.BufferedIffRecord` | invincible/compat/common.py:170-191 | A result is buffered if and only if the balance after it exceeds every balance before it |
| `ToolPairingAccounting.OrphansInOrder` | invincible/compat/common.py:189-191 | Buffered results are kept in arrival order under their own index |
| `ToolPairingAccounting.FoldPrefix` | invincible/compat/common.py:197-214 | After any number of folds exactly the unfoldable results are left, and each id waits in as many turns as before less the results that claimed it |
| `ToolPairingAccounting.RepairSucceedsExactly` | invincible/compat/common.py:116-119 | The repair succeeds if and only if every buffered result finds a turn still waiting for its id |
| `ToolPairingAccounting.RepairNamesLeast` | invincible/compat/common.py:230-236 | Otherwise the error names the least index among the results that find none |
| `ToolPairingPromises.RemovesOnlyTheMissing` | invincible/compat/common.py:112-114 | On success the repair removes exactly as many distinct calls as there are results missing |
| `ToolPairingIds.ArrivalKeepsIdExactly` | invincible/compat/common.py:170-187 | An arriving result keeps its id if and only if the last turn naming it still waits for it, or it names the next open call, or no call is open |
| `ToolPairingIds.UnknownResultDisplacesAnother` | invincible/compat/common.py:105-109 | Whenever a result is bound to a call it does not name, the result that does name it no longer gets that call, and keeps its id only by chance or unbound - for any turns and ids |
| `ToolPairingIds.UnreboundKeepsIds` | invincible/compat/common.py:105-113 | If no arriving result is rebound, a successful repair returns every result under its id with its content, also where turns reuse ids or results come before their call |
| `ToolPairingContents.IdsKeptWhateverSaid` | invincible/compat/common.py:105-113 | For every list that can be repaired: its results keep their ids, whatever they say, if and only if no arriving result is rebound |
| `ToolPairingIds.WellAnsweredKeepsIds` | invincible/compat/common.py:105-107 | In particular, results that each name a different call of an earlier turn are never refused and keep id and content, however late or interleaved |
| `ToolPairingPromises.LateCallCannotAdoptNameless` | invincible/compat/common.py:108-111 | A result without an id that arrives when every earlier call is answered is always refused, although the documentation has such results bound and early ones folded in later |
| `ToolPairingNames.MissingIdsDiffer` | invincible/compat/common.py:157-157 | Made-up call ids are equal only for the same message and the same position |
| `ToolPairingNames.NamelessPairedInOrder` | invincible/compat/common.py:147-187 | Any number of calls, none with an id or all with different ones, and as many results without ids behind them: the repair gives the turn back with an id of its own for each call and binds the results in the order they come |
| `ToolPairingNames.BoundTo` | invincible/compat/common.py:170-191 | An arriving result goes to the call of its id in the last turn naming it, if that still waits; otherwise to the first unanswered call of the last turn that has any; and is buffered exactly if every call is answered |
| `ToolPairingNames.FoldedInto` | invincible/compat/common.py:199-214 | A buffered result joins the last turn that still waits for its id, or stays buffered if it has none or none waits |
| `ToolPairingNames.TurnsComeBack` | invincible/compat/common.py:147-168 | Each turn comes back in its place with its role and content and, in order, some of its calls, each with its name, arguments and - if it had one - id |
| `ToolPairingRepair.JunkIsNamed` | invincible/compat/common.py:143-145 | An entry that is not an object is refused under the index of the first such entry |
| `ResponsesInput.ResponsesToInternal` | invincible/compat/responses.py:166-259 | The loop over items with its pending assistant turn returns exactly the meaning `Decode`, errors included |
| `ResponsesInput.Fold.FlushPending` | invincible/compat/responses.py:199-213 | The pending turn is closed as one assistant message, or nothing happens if there is none |
| `ResponsesInput.Fold.Take` | invincible/compat/responses.py:215-245 | One item takes the draft one step further |
| `ResponsesInput.TakeItems` | invincible/compat/responses.py:215-245 | The loop reads every item into the draft, or stops because one of them is not an object |
| `ResponsesInput.DecodedIsStrict` | invincible/compat/responses.py:254-259 | Whatever a request holds, what is forwarded passes the strict validator |
| `ResponsesAnswers.PlainTextAnswer` | invincible/compat/responses.py:178-183 | A text is forwarded as one user message behind the instructions, if any; an empty text adds nothing; with neither the request is refused |
| `ResponsesAnswers.RefusedExactly` | invincible/compat/responses.py:216-252 | Which requests are refused as bad input, as a bad item, and as empty: exactly those whose items all contribute nothing |
| `ResponsesAnswers.InstructionsLead` | invincible/compat/responses.py:178-179 | Instructions always come first, as a system message |
| `ResponsesAnswers.PartsAreJoined` | invincible/compat/responses.py:79-97 | Parts are joined in order; content that is neither text nor parts says nothing |
| `ResponsesAnswers.DeveloperIsSystem` | invincible/compat/responses.py:103-104 | A developer message is read as a system message |
| `ResponsesAnswers.MessageEndsTurn` | invincible/compat/responses.py:219-232 | A message ends the turn being put together even if it is unusable; an assistant message opens the next with its text |
| `ResponsesAnswers.OutputEndsTurn` | invincible/compat/responses.py:237-241 | An output ends the turn and stands behind it |
| `ResponsesAnswers.CallJoinsTurn` | invincible/compat/responses.py:233-245 | A call with a name joins the turn being put together; one without, and every other item, changes nothing |
| `ResponsesAnswers.NamelessCallsPaired` | invincible/compat/responses.py:199-259 | Any number of calls without ids and their outputs without ids are forwarded as one turn with different ids, paired in order |
| `ResponsesRoundTrip.OutputItemsFromMessage` | invincible/compat/responses.py:318-353 | The output items of an assistant message, text before calls, defaults filled in |
| `ResponsesRoundTrip.CallItemsAre` | invincible/compat/responses.py:341-352 | One item per call, in order, with its id, name and arguments, or a made-up id, "function" and "{}" where they are missing |
| `ResponsesRoundTrip.TextFirst` | invincible/compat/responses.py:327-340 | The text item comes first, and only if there is text |
| `ResponsesRoundTrip.ReadsBackJoined` | invincible/compat/responses.py:166-259 | Every strictly paired conversation with non-empty parts, written as items, reads back as itself with each text-only assistant message joined to a content-less one right behind it |
| `ResponsesRoundTrip.RoundTripExactly` | invincible/compat/responses.py:199-259 | The round trip is exact if and only if there is no such pair of messages |
| `Accumulators.GroupArguments` | invincible/core/chat_service.py:94-114 | In any stream the arguments grouped under an index are all its pieces, in order |
| `Accumulators.ReferenceExactly` | invincible/compat/anthropic.py:559-619 | For every stream the Anthropic and the Responses accumulator put together one call per index, in order of first appearance, if and only if the stream is quiet: a later fragment of an index omits or repeats the first id and brings no late name (nor, where names are compared, another name) |
| `Accumulators.ChatMirrorsExactly` | invincible/core/chat_service.py:94-138 | For every stream the chat accumulator persists the same calls as the other two, order and made-up ids apart, if and only if the stream is quiet - it is documented to mirror them always |
| `Accumulators.ChatMirrorsInOrder` | invincible/core/chat_service.py:117-138 | Where indices first appear in increasing order the persisted calls then also agree in order and in made-up ids, and only then |
| `Accumulators.KeyedIsReference` | invincible/core/chat_service.py:94-138 | Where indices first appear in increasing order the chat accumulator persists one call per index, whatever the ids and names |
| `Accumulators.AccumulatorsAgree` | invincible/core/chat_service.py:94-138 | On well-formed streams all three accumulators put together the same calls |
| `Accumulators.QuietContinues` | invincible/compat/anthropic.py:563-605 | A quiet later fragment feeds the call its index opened, by either rule of opening calls |
| `Accumulators.QuietOpens` | invincible/compat/responses.py:626-655 | The first fragment of an index opens a call behind all earlier ones, by either rule |
| `Accumulators.OpensExactly` | invincible/compat/anthropic.py:563-570 | When a fragment opens a call, said of the index, id and name it carries |
| `Accumulators.OpenedCallCollects` | invincible/compat/anthropic.py:563-608 | In every stream a call gets all the pieces its index brings from then on, in order, as long as they go on with it |
| `Accumulators.MintedIdsDiffer` | invincible/compat/anthropic.py:578-578 | Two calls of a stream never have the same made-up id |
| `ChatStream.Body.StreamBody` | invincible/core/chat_service.py:193-232 | Every chunk is echoed, then a failure is marked by one error frame and no end mark, and exactly one message is persisted either way |
| `ChatStream.Body.AccumulateToolCall` | invincible/core/chat_service.py:94-114 | A fragment is merged under its index |
| `ChatStream.Body.AppendContent` | invincible/core/chat_service.py:68-73 | The text of every choice is appended, in order |
| `ChatStream.PiecesInOrder` | invincible/core/chat_service.py:68-73 | Every choice's text is kept, in order, and nothing else |
| `ChatStream.ContentInOrder` | invincible/core/chat_service.py:68-73 | And so is every chunk's |
| `ChatStream.Body.AssistantTurn` | invincible/core/chat_service.py:117-138 | The calls are assembled by increasing index, with made-up ids and empty arguments filled in |
| `ChatStream.SortKeys` | invincible/core/chat_service.py:135-135 | Every key once, in increasing order |
| `ChatStream.SameMessagePersisted` | invincible/core/chat_service.py:117-138 | On well-formed streams all three protocols persist the same assistant message |
| `Accumulators.ReusedIndexDiffers` | invincible/core/chat_service.py:94-101 | Once a fragment reuses an index with another id than its first, the chat accumulator persists other calls than the Anthropic one, whatever came before and comes after |
| `AnthropicStream.BuildStreamEvents` | invincible/compat/anthropic.py:484-680 | The generator with its nonlocal counters emits exactly the meaning `Trace`, and completes exactly once with the meaning `Persisted`, on success and on failure |
| `AnthropicStream.Writer.WriteText` | invincible/compat/anthropic.py:526-558 | Text opens the one text block on its first piece |
| `AnthropicStream.Writer.WriteFragment` | invincible/compat/anthropic.py:559-619 | A fragment opens or continues a call and streams its arguments |
| `AnthropicStream.Writer.End` | invincible/compat/anthropic.py:636-677 | A failure ends with one error; success stops every block and closes the message |
| `AnthropicAgreement.StreamFollowsGrammar` | invincible/compat/anthropic.py:526-677 | Every frame sequence is accepted by an independent automaton of the protocol: the message starts, blocks are numbered 0, 1, 2, ..., with at most one text block, deltas fit a started block of their kind; success stops each block once and closes the message, failure ends with a single error and no stops |
| `AnthropicAgreement.StreamAgreesWithPersisted` | invincible/compat/anthropic.py:451-481 | On success and failure alike the text deltas join to the persisted content, the tool blocks carry the ids of the persisted calls in order, and each one's argument deltas join to the persisted arguments |
| `AnthropicAgreement.PersistedReply` | invincible/compat/anthropic.py:451-481 | What is persisted is all the text and the calls the fragments add up to |
| `StreamChunks.MadeReply` | invincible/compat/anthropic.py:465-481 | The persisted message has no content where there is no text, and "{}" for a call without arguments |
| `AnthropicAgreement.NamesAgreeExactly` | invincible/compat/anthropic.py:576-605 | The names told when the tool blocks started are the persisted ones if and only if no fragment brings a name to a call opened without one |
| `AnthropicAgreement.StopReasonExactly` | invincible/compat/anthropic.py:659-666 | A successful message closes with exactly one stop reason: a tool is used iff a tool block was started or the last finish reason says so; otherwise the tokens ran out iff that says so; else the turn ended |
| `AnthropicAgreement.OtherChoicesIgnored` | invincible/compat/anthropic.py:420-441 | Only the first choice of a chunk counts |
| `StreamDeltas.AnthropicPassesOn` | invincible/compat/anthropic.py:526-619 | Every piece of text and arguments that arrives is sent on exactly once and in the order of arrival, text before arguments within a chunk, and no other piece is sent, after a failure too |
| `StreamDeltas.AnthropicSendsAtOnce` | invincible/compat/anthropic.py:629-656 | What a stream has sent when it breaks off it would have sent whatever came next: nothing is held back |
| `ResponsesStream.BuildStreamEvents` | invincible/compat/responses.py:512-803 | The generator emits exactly the meaning `Trace` and completes exactly once with the meaning `Persisted` |
| `ResponsesStream.Writer.WriteText` | invincible/compat/responses.py:579-621 | Text adds the one message item on its first piece |
| `ResponsesStream.Writer.WriteFragment` | invincible/compat/responses.py:622-691 | A fragment adds or continues a function-call item, comparing names as well as ids |
| `ResponsesStream.Writer.Close` | invincible/compat/responses.py:723-800 | Every item is completed, then the response |
| `ResponsesLifecycle.StrictClientIsServed` | invincible/compat/responses.py:572-803 | An independent strict client is never let down: output indices are 0, 1, 2, ... as items are added, each under an id of its own; deltas name an added item of their kind by index and item id, text deltas one whose part is open; every item is spelled out once with exactly what its deltas gave, a text part is closed, and then the item is completed exactly once under the same index, item id and call id; the completed response holds each item once (in whatever order). What was heard is what is persisted, after a failure too, and the calls completed are the persisted ones, names included |
| `ResponsesLifecycle.PersistedReply` | invincible/compat/responses.py:455-483 | What is persisted is all the text and the calls the fragments add up to |
| `ResponsesLifecycle.NamesAgreeExactly` | invincible/compat/responses.py:644-681 | The names the items were added with are the persisted ones if and only if no fragment brings a name to a call opened without one |
| `ResponsesLifecycle.FinalResponse` | invincible/compat/responses.py:723-800 | The completed response lists exactly the persisted text, if any, and then the persisted calls |
| `ResponsesClosing.ItemsCloseInOrder` | invincible/compat/responses.py:723-784 | A successful stream spells the persisted text out first, then closes the persisted calls in their order, and completes the text item last |
| `ResponsesLifecycle.OtherChoicesIgnored` | invincible/compat/responses.py:423-445 | Only the first choice of a chunk counts |
| `StreamDeltas.ResponsesPassesOn` | invincible/compat/responses.py:572-691 | Every piece is sent on exactly once and in order; the closing events send none again |
| `StreamDeltas.ResponsesSendsAtOnce` | invincible/compat/responses.py:695-722 | What a stream has sent when it breaks off it would have sent whatever came next |
| `AgentRegistry.Registry.ListSockets` | invincible/core/agent_registry.py:288-288 | Every attached socket once, in whatever order |
| `AgentRegistry.Registry.BeginDispatch` | invincible/core/agent_registry.py:488-512 | Up to its first await a dispatch is the protocol's step `Dispatch`, with a snapshot that lists exactly the attached sockets |
| `AgentRegistry.Registry.DropJob` | invincible/core/agent_registry.py:562-570 | The user's queue is rebound to a new deque object without the job; the old object is untouched |
| `AgentRegistry.Registry.SendSucceeded` | invincible/core/agent_registry.py:510-511 | A delivered push with the drop of the queued copy is the protocol's one step `SendSucceeds` |
| `AgentRegistry.Registry.SendFailed` | invincible/core/agent_registry.py:293-301 | A failed send is the step `SendFails`: that socket is detached and the next of the snapshot is due |
| `AgentRegistry.Registry.Finish` | invincible/core/agent_registry.py:526-536 | The cleanup is the step `Leave`: queued copy, future and ticket are dropped |
| `AgentRegistry.Registry.SubmitResult` | invincible/core/agent_registry.py:538-560 | The step `Submit`; true exactly for the owner of a known job, not past its deadline, whose future is unresolved |
| `AgentRegistry.Registry.BeginPoll` | invincible/core/agent_registry.py:419-447 | A poll is refused exactly at the cap and then changes nothing; otherwise it is the step `BeginPoll` and takes the oldest job or is held |
| `AgentRegistry.Registry.Look` | invincible/core/agent_registry.py:446-463 | A held poll looks at its own deque object: the step `Wake`, or `TimeOut` when its time is up |
| `AgentRegistry.Registry.ReleaseSlot` | invincible/core/agent_registry.py:435-441 | The slot of a poll is released however it ends |
| `AgentRegistry.Registry.AttachWs` | invincible/core/agent_registry.py:209-218 | Attached, by the step `Attach`, exactly below the cap; otherwise nothing changes |
| `AgentRegistry.Registry.DetachWs` | invincible/core/agent_registry.py:220-227 | The step `Detach`: exactly that socket goes |
| `AgentRegistry.Registry.Forget` | invincible/core/agent_registry.py:177-195 | The step `Forget`, taken exactly if the user was last seen an hour ago or more and has nothing in flight here or in the other tables |
| `AgentDispatchSafety.NextGood` | invincible/core/agent_registry.py:467-570 | Every atomic step keeps the invariant over queues, deque objects, tickets, futures and history |
| `AgentDispatchSafety.RunIsGood` | invincible/core/agent_registry.py:467-570 | Every reachable state satisfies it |
| `AgentDispatchSafety.StepsAreRun` | invincible/core/agent_registry.py:467-570 | States that follow each other by steps from the empty registry on are those of a run, so what is proved of runs holds of the object |
| `AgentDispatchSafety.EverWasDispatched` | invincible/core/agent_registry.py:488-495 | The history holds only what was dispatched, for whom and until when |
| `AgentDispatchSafety.ResultsAreSafe` | invincible/core/agent_registry.py:538-560 | In every run a result is accepted at most once per job, from its owner only, not past its deadline and before its dispatch leaves; a dispatch answers only with an accepted result |
| `AgentDispatchSafety.HandOutsAreSafe` | invincible/core/agent_registry.py:443-463 | In every run a job is handed only to the user it was dispatched for, and never to a poll that began after its dispatch left through the cleanup |
| `AgentDispatchSafety.TablesAreCleared` | invincible/core/agent_registry.py:526-536 | In every run a job is in the tables until its dispatch leaves through the cleanup and no longer; jobs left behind are exactly those whose dispatch was cancelled during the push |
| `AgentDispatchOnce.HandedAtMostOnce` | invincible/core/agent_registry.py:475-478 | In every run that is calm for a job - no step gives it a second way out - the job is handed out at most once over all sockets and polls |
| `AgentDispatchOnce.NotCalmHandsTwice` | invincible/core/agent_registry.py:475-478 | And only then: from the first step that is not calm for the job on, the run can be continued so that the job is handed out twice |
| `AgentDispatchUsers.HandedAtMostOnceTo` | invincible/core/agent_registry.py:475-478 | For every user: in every run in which no dispatch of that user leaves and no push for that user is in flight while that user holds a poll, each job of theirs is handed out at most once, whatever other users do |
| `AgentTables.DetachedExactly` | invincible/core/agent_registry.py:220-227 | After a detach exactly that socket of that user is gone; every other attachment stands |
| `AgentTables.FailedSockets` | invincible/core/agent_registry.py:291-294 | A failed send takes exactly the socket it was tried on from exactly that user |
| `AgentTables.AttachedExactly` | invincible/core/agent_registry.py:209-227 | A socket is attached after a step iff the step attaches it, or it was attached and is neither the one that disconnects nor the one whose send failed |
| `AgentTables.PushDue` | invincible/core/agent_registry.py:285-298 | A push goes through the sockets attached when it began, each once; after a failed send it is due at the rest, or the result is awaited |
| `AgentTables.OthersStay` | invincible/core/agent_registry.py:510-536 | No other dispatch moves |
| `AgentTables.AcceptedExactly` | invincible/core/agent_registry.py:538-560 | In every reachable state a result is accepted iff the job was dispatched for that user, its deadline has not passed, no result of it has been accepted and its dispatch has not left |
| `AgentTables.AlwaysCapped` | invincible/core/agent_registry.py:429-434 | In every reachable state nobody has more than five sockets or five held polls |
| `AgentOrder.LinesInOrder` | invincible/core/agent_registry.py:443-570 | In every reachable state every queue, one that was replaced too, holds its jobs in the order they were dispatched |
| `AgentOrder.OldestFirst` | invincible/core/agent_registry.py:443-463 | In every reachable state a poll that is handed a job is handed the one dispatched first of all in the queue it looks at |
| `AgentOrder.PollAnswer` | invincible/core/agent_registry.py:443-463 | A poll that finds its queue empty is held on unless its time is up; one that finds jobs gets the first and is over; nobody else's poll changes |
| `AgentOrder.HeldExactly` | invincible/core/agent_registry.py:429-463 | A poll is held after a step iff it began on an empty queue, or was held and did not go away, run out of time or get a job |
| `AgentOrder.RestStays` | invincible/core/agent_registry.py:447-448 | All other jobs stay where they are |
| `AgentOrder.JoinsTheLine` | invincible/core/agent_registry.py:502-502 | A new job joins its user's queue at the end |
| `AgentOrder.ForgottenExactly` | invincible/core/agent_registry.py:178-192 | In every reachable state a user may be forgotten iff they hold no poll, have no job queued and no socket attached, and every job ever dispatched to them has left |
| `AgentDispatchLines.StaysOut` | invincible/core/agent_registry.py:443-463 | A job that no deque can hand out and that is not being pushed is not handed out by any step, and stays so |
| `AgentDispatchOver.HandedLaterExactly` | invincible/core/agent_registry.py:443-463 | In every good state a job is handed out in some continuation if and only if it is being pushed, or its user's queue has it, or a rebound deque has it no further back than polls still hold that deque |
| `AgentDispatchOver.HandedAfterLeavingExactly` | invincible/core/agent_registry.py:480-486 | When a dispatch leaves through its cleanup, its job is handed out afterwards in some continuation if and only if a poll held at that moment is about to be handed it - although the documentation says never |
| `AgentDispatchOver.HandedAfterCancelExactly` | invincible/core/agent_registry.py:480-486 | When a dispatch is cancelled in its push, its job is handed out afterwards in some continuation if and only if a deque can still hand it out |
| `AgentDispatchOver.NoneHandedAfterwards` | invincible/core/agent_registry.py:480-486 | In every run in which the dispatches of a user end only when nothing can hand their jobs out any more, no job of that user is handed out after its dispatch is over |
| `AgentDispatchOver.NoneHandedAfterwardsUnheld` | invincible/core/agent_registry.py:480-486 | In particular where no dispatch of the user leaves while the user holds a poll and none is cancelled in its push |
| `AgentDispatchOnce.NextOnceExactly` | invincible/core/agent_registry.py:443-570 | A step from a state with one way out at most for a job leads to such a state if and only if it is calm for the job |
| `AgentDispatchHazards.StaleDequeHandsTwice` | invincible/core/agent_registry.py:562-570 | From any state in which a held poll and the queue share a deque with a job waiting, the end of another dispatch of that user leads to that job being handed out twice |
| `AgentDispatchHazards.PushRaceHandsTwice` | invincible/core/agent_registry.py:506-511 | From any state in which the oldest waiting job is being pushed, a poll that begins now and the push both deliver it |
| `AgentDispatchHazards.PushToHeldPollHandsTwice` | invincible/core/agent_registry.py:501-511 | From any state in which a user with a socket holds a poll on their empty queue, a dispatch wakes the poll and pushes, and both deliver the job |
| `AgentDispatchHazards.CancelledPushStillRuns` | invincible/core/agent_registry.py:480-486 | From any state in which such a push is in flight, cancelling its dispatch - which changes no other table - leaves a job that a later poll runs and whose result is accepted with nobody waiting, which the documentation rules out |
| `AgentDispatchHazards.LeftJobStillHanded` | invincible/core/agent_registry.py:526-536 | From any state in which a held poll and the queue share a deque whose oldest job is the leaving dispatch's own, that poll is handed the job after the dispatch has left |
| `AgentDispatchHazards.StaleDequeTrace` | invincible/core/agent_registry.py:562-570 | A run from the empty registry that hands a job out twice through a stale deque |
| `AgentDispatchHazards.PushRaceTrace` | invincible/core/agent_registry.py:506-511 | A run that hands a job out twice through a push and a poll that began during it |
| `AgentDispatchHazards.PushToHeldPollTrace` | invincible/core/agent_registry.py:501-511 | A run that hands a job out twice through a push and a poll held before |
| `AgentDispatchHazards.CancelledPushTrace` | invincible/core/agent_registry.py:480-486 | A run in which a job is answered after its dispatch was cancelled |
| `AgentDispatchHazards.LeftJobTrace` | invincible/core/agent_registry.py:526-536 | A run in which a job is handed out after its dispatch has left |
| `SimilarEdges.ComputeSimilarEdges` | invincible/core/memory_projection.py:97-133 | For every payload the edges are the greedy pick from the one ranking of all candidate pairs |
| `SimilarEdges.FindCandidates` | invincible/core/memory_projection.py:106-120 | The nested loops find each candidate pair exactly once and nothing else |
| `SimilarEdges.CompareWithLater` | invincible/core/memory_projection.py:110-120 | One source against every later id |
| `SimilarEdges.CandidateExactly` | invincible/core/memory_projection.py:112-120 | A pair is a candidate iff its token sets share two tokens, or one where neither has more than three; its weight is how many they share |
| `SimilarEdges.RankedByKeys` | invincible/core/memory_projection.py:121-122 | Heavier edges come first, then smaller sources, then smaller targets |
| `SimilarEdges.LessExactly` | invincible/core/memory_projection.py:106-106 | Names are ordered by their first difference |
| `SimilarEdges.SelectEdges` | invincible/core/memory_projection.py:123-133 | The loop with degree counters computes the greedy pick |
| `SimilarEdges.RankingUnique` | invincible/core/memory_projection.py:101-104 | The payload determines the ranking, whatever order the dictionary is listed in |
| `SimilarEdges.SortSorts` | invincible/core/memory_projection.py:106-122 | Sorting yields the same elements in strict order |
| `SimilarEdgesQuality.EdgesAreCapped` | invincible/core/memory_projection.py:33-34 | No node exceeds four edges and there are at most two hundred |
| `SimilarEdgesQuality.RejectedIsSaturated` | invincible/core/memory_projection.py:126-130 | Every candidate considered before the total cap is hit is picked, or an endpoint was saturated by earlier edges, none of them lighter |
| `SimilarEdgesQuality.HalfAsMany` | invincible/core/memory_projection.py:123-133 | Below the total cap the pick has at least half as many edges as any degree-capped choice of the candidates |
| `SimilarEdgesQuality.HalfTheWeight` | invincible/core/memory_projection.py:31-34 | The pick weighs at least half as much as any degree-capped choice of candidates (of at most two hundred edges, if the pick reached that cap) |
| `TunnelSpend.OvershootBounded` | invincible/core/harness_tunnel.py:474-503 | With at most k calls in flight of at most m bytes, the total exceeds the lifetime cap by at most (k - 1) * m under any interleaving at the sleep; one at a time it is exact |
| `TunnelSpend.OvershootReached` | invincible/core/harness_tunnel.py:483-499 | No smaller bound holds: for every k and m some run reaches it |
| `TunnelSpend.StepBounded` | invincible/core/harness_tunnel.py:483-499 | Bytes charged plus bytes past the check stay below that bound at every step, cancellations included |
| `TunnelRate.WindowsSpaced` | invincible/core/harness_tunnel.py:488-496 | For calls one after another under a monotone clock, windows start at least a second apart |
| `TunnelRate.RateBounded` | invincible/core/harness_tunnel.py:474-482 | Any interval of length L lets through at most (floor(L) + 2) times the larger of the limit and the largest frame |
| `TunnelRate.SpentIsSpend` | invincible/core/harness_tunnel.py:483-501 | The history kept for the bound goes with exactly the record `spend` leaves |
| `TunnelTables.AlwaysConsistent` | invincible/core/harness_tunnel.py:296-330 | In every reachable state the owner table and the tunnel table agree both ways, tunnels per owner and streams per tunnel are within their caps, only live tunnels' acks are awaited, and every frame went to a socket whose ack for that token was accepted |
| `TunnelTables.SpentAsCalled` | invincible/core/harness_tunnel.py:483-503 | In every reachable state a live tunnel has been charged exactly as its own begun, woken and cancelled calls of `spend` say, whatever else happened |
| `TunnelTables.TunnelWithinCap` | invincible/core/harness_tunnel.py:474-503 | So in every reachable state no live tunnel exceeds the lifetime cap by more than (k - 1) * m, for at most k calls in flight of at most m bytes |
| `TunnelTables.StepConsistent` | invincible/core/harness_tunnel.py:334-600 | Every operation keeps that |
| `TunnelTables.SweepIsExact` | invincible/core/harness_tunnel.py:419-426 | A sweep drops exactly the expired tunnels it lists and touches no other |
| `TunnelTables.DetachIsExact` | invincible/core/harness_tunnel.py:590-600 | When a socket goes, exactly the tunnels pinned to it go |
| `TunnelRegistry.Registry.OpenTunnel` | invincible/core/harness_tunnel.py:334-372 | A blocked port changes nothing; otherwise expired tunnels are swept, and a tunnel is registered exactly below the owner's cap |
| `TunnelRegistry.Registry.LookupTunnel` | invincible/core/harness_tunnel.py:374-387 | What is found is live and not expired |
| `TunnelRegistry.Registry.CloseTunnel` | invincible/core/harness_tunnel.py:389-402 | Only the owner closes a live tunnel |
| `TunnelRegistry.Registry.DropTunnel` | invincible/core/harness_tunnel.py:404-417 | The tunnel leaves all three tables; its record lives on for whoever holds it |
| `TunnelRegistry.Registry.EndAwaitAck` | invincible/core/harness_tunnel.py:447-452 | A tunnel whose ack does not come is dropped, and its ack forgotten either way |
| `TunnelRegistry.Registry.Resolve` | invincible/core/harness_tunnel.py:454-470 | An ack is taken exactly when one is awaited and unresolved, and pins the tunnel to its socket |
| `TunnelRegistry.Registry.BindWs` | invincible/core/harness_tunnel.py:554-562 | Bound exactly if the tunnel is live: then frames can be sent on this socket, and nothing else of it nor any other tunnel has changed |
| `TunnelRegistry.Tunnel.BeginSpend` | invincible/core/harness_tunnel.py:483-494 | A call of `spend` up to its sleep, on the shared record |
| `TunnelRegistry.Tunnel.FinishSpend` | invincible/core/harness_tunnel.py:495-503 | A sleeping call wakes: the record it kept opens a new window and is charged, unchecked |
| `TunnelRegistry.Registry.BeginSpend` | invincible/core/harness_tunnel.py:483-494 | The call is refused for a dead tunnel; otherwise the record it found is charged or kept asleep with it |
| `TunnelRegistry.Registry.FinishSpend` | invincible/core/harness_tunnel.py:495-503 | The record kept over the sleep is charged: if its tunnel is live, that is that tunnel's charge; if it was dropped meanwhile, no table changes |
| `TunnelRegistry.Registry.StreamQueue` | invincible/core/harness_tunnel.py:505-520 | A stream is opened within the cap of a live tunnel |
| `TunnelRegistry.Registry.SendOn` | invincible/core/harness_tunnel.py:571-588 | A frame is sent only on the pinned socket of an acked tunnel |
| `TunnelRegistry.Registry.DetachSocket` | invincible/core/harness_tunnel.py:590-600 | The hard close of a dead socket's tunnels |
| `TunnelAnswers.CloseAnswer` | invincible/core/harness_tunnel.py:389-402 | A close succeeds iff the token names a live tunnel and the requester is its owner or not given; then that tunnel goes, and in any case every other live tunnel stays exactly as it was |
| `TunnelAnswers.OthersStayOpen` | invincible/core/harness_tunnel.py:399-400 | A close by somebody leaves every live tunnel of anybody else as it was |
| `TunnelAnswers.OpenAnswer` | invincible/core/harness_tunnel.py:342-372 | An open is granted iff its owner has fewer live tunnels than the cap; the new tunnel has spent nothing and may send at once only if no socket has to ack it |
| `TunnelAnswers.LookupAnswer` | invincible/core/harness_tunnel.py:374-387 | A tunnel is found iff it is no older than its time at both readings of the clock |
| `TunnelAnswers.ResolveAnswer` | invincible/core/harness_tunnel.py:454-470 | An ack is taken iff one is awaited and unresolved and, for a yes, the tunnel is there; a yes pins the tunnel to the socket it came from |
| `TunnelAnswers.AwaitBegins` | invincible/core/harness_tunnel.py:438-445 | An ack is awaited exactly for a tunnel that is there |
| `TunnelAnswers.AwaitAnswer` | invincible/core/harness_tunnel.py:446-452 | When the wait ends the ack is forgotten, and the tunnel goes iff the wait was given up |
| `TunnelAnswers.StreamAnswer` | invincible/core/harness_tunnel.py:505-520 | A stream is opened iff its tunnel is live and has it already or fewer than sixteen |
| `TunnelAnswers.DropAnswer` | invincible/core/harness_tunnel.py:542-550 | Dropping a stream takes that stream from that tunnel only |
| `TunnelAnswers.SendAnswer` | invincible/core/harness_tunnel.py:564-588 | A frame goes out iff the tunnel is there, acked and pinned, and then on that socket |
| `TunnelAnswers.SpendAnswer` | invincible/core/harness_tunnel.py:486-499 | A call of `spend` is refused iff it would exceed the lifetime cap; otherwise it passes at once iff it fits what is left of a window less than a second old, or a new one, and else it sleeps |
| `TunnelAnswers.WakeAnswer` | invincible/core/harness_tunnel.py:495-499 | A call that wakes is charged in full in a window that starts then |
| `DeviceFlowSafety.ClaimedOnce` | invincible/core/accounts.py:590-661 | Over every interleaving a device code is claimed at most once, by a poll that read the clock before its expiry, for the user of its one approval, and was never denied |
| `DeviceFlowSafety.MintedOnce` | invincible/core/accounts.py:590-664 | At most one key is minted for a code, for the user of its claim |
| `DeviceFlowSafety.RunIsGood` | invincible/core/accounts.py:516-664 | Every reachable state: a row's status says what has happened to its code, user codes are unique, unminted claims are claims |
| `DeviceFlowSafety.PollClaimsExactly` | invincible/core/accounts.py:608-661 | A poll claims its code if and only if the code is approved, unexpired and not polled too soon; the claim is for the approver and leaves the row complete |
| `DeviceFlowSafety.PollAnswer` | invincible/core/accounts.py:609-661 | What each poll is answered with, case by case: expired, too soon, denied, claimed already, pending or the claim |
| `DeviceFlowSafety.PollLeaves` | invincible/core/accounts.py:616-661 | And what it leaves in the table |
| `DeviceFlowSafety.TableAfter` | invincible/core/accounts.py:516-588 | What every other transaction makes of the table |
| `DeviceFlowSafety.HastyPollsLeaveNoTrace` | invincible/core/accounts.py:616-628 | However often a client polls too soon the table is as it was: the exception undoes the noting of its time and the interval is not raised, unlike section 3.5 of RFC 8628 |
| `DeviceCodeStore.Store.Approve` | invincible/core/accounts.py:568-578 | True exactly if a pending row has the user code; exactly that row becomes approved for that user |
| `DeviceCodeStore.Store.Deny` | invincible/core/accounts.py:580-588 | True exactly if a pending row has the user code; exactly that row becomes denied |
| `DeviceCodeStore.Store.SweepExpired` | invincible/core/accounts.py:516-519 | A row stays, unchanged, if and only if its time has not passed |
| `DeviceCodeStore.Store.Create` | invincible/core/accounts.py:521-551 | User codes are drawn until one is free of the unexpired rows; the first free draw becomes a pending row |
| `DeviceCodeStore.Store.SettlePoll` | invincible/core/accounts.py:609-661 | The statements of a poll and what its rollback undoes give exactly the meaning `Settled` |

## Left out

- FastAPI wiring, HTTP clients, SSE text rendering, JSON, hashing, random ids, the user interface and the tunnel's
  own subprocess: input and output.
- `core/router.py`, `core/tool_executor.py` and `core/trimming.py` are not part of this model; neither is the
  conversation relay that rests on them.
- The Anthropic request and response translation (`anthropic_to_internal`, `internal_to_anthropic`): the repair it
  ends in is modelled, its block-by-block mapping is not.
- Chunks, calls and items that are not objects where the source would raise on them: only an input entry that is
  not an object is modelled.
- The consumer of a stream closing the generator early, token estimates and usage records.
- A failure of the store that persists a stream's message: it is logged and swallowed by the source.
- Liveness of held polls, the wake-up event and the hold time: only safety is stated.
- Machines, handoffs and voice slots of the registry: latest-wins tables with single-branch checks.
- `last_activity` of a tunnel and the contents of its stream queues: nothing modelled here reads them.
- The port and host policy of tunnels: a parameter of `OpenTunnel`.
- Text tokenisation, layout and colours of the memory graph: tokens are given.
- AgentDispatchOver.NoneHandedAfterwards: one direction for a given run, because what can be handed out need not be in
  that very run; over all continuations `HandedAfterLeavingExactly` and `HandedAfterCancelExactly` go both ways.
- AgentDispatchUsers.HandedAtMostOnceTo: sufficient only; the exact condition per job is `CalmFor`.
- TunnelRate.RateBounded: for calls one after another; calls that sleep at the same time each reopen the window and
  are covered by the total cap only.
- TunnelTables.AlwaysConsistent: for settings that stay fixed; lowering the cap leaves earlier tunnels open.
- The cancellation of a sleeping `spend` on the tunnel object: it touches no field; in `TunnelSpend` and
  `TunnelTables` it is a step.
- DeviceFlowSafety.MintedOnce: at most one key, not at least one, because the key is minted after the claim is
  committed and a failure in between loses it.
