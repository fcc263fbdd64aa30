/** The chat completions stream: chunks are echoed as they come, and one assistant message is persisted; on
    well-formed streams it is the message the other two protocols persist. */
module ChatStream {
  import opened Messages
  import opened StreamChunks
  import opened Accumulators
  import AnthropicStream
  import AnthropicAgreement
  import ResponsesStream
  import ResponsesLifecycle

  datatype Frame = Echo(chunk: Chunk) | StreamError | DoneMark

  /** Unlike the other streams, this one takes the text of every choice of a chunk. */
  function Pieces(choices: seq<Choice>): string {
    if choices == [] then "" else Pieces(choices[..|choices| - 1]) + choices[|choices| - 1].content
  }

  function Content(chunks: seq<Chunk>): string {
    if chunks == [] then "" else Content(chunks[..|chunks| - 1]) + Pieces(chunks[|chunks| - 1].choices)
  }

  function Echoes(chunks: seq<Chunk>): (frames: seq<Frame>)
    ensures |frames| == |chunks| && forall k :: 0 <= k < |chunks| ==> frames[k] == Echo(chunks[k])
  {
    if chunks == [] then [] else Echoes(chunks[..|chunks| - 1]) + [Echo(chunks[|chunks| - 1])]
  }

  ghost function Persisted(chunks: seq<Chunk>): Reply {
    MakeReply(Content(chunks), KeyedCalls(AllFragments(chunks)))
  }

  // ---- The stream as it runs ---------------------------------------------------------------------------

  class Body {
    var content: string
    var toolStates: map<int, OpenCall>
    var sent: seq<Frame>
    var persisted: seq<Reply>

    constructor ()
      ensures content == "" && toolStates == map[] && sent == [] && persisted == []
    {
      content, toolStates, sent, persisted := "", map[], [], [];
    }

    method AppendContent(chunk: Chunk)
      modifies `content
      ensures content == old(content) + Pieces(chunk.choices)
    {
      assert chunk.choices[..0] == [];
      for n := 0 to |chunk.choices|
        invariant content == old(content) + Pieces(chunk.choices[..n])
      {
        assert chunk.choices[..n + 1][..n] == chunk.choices[..n];
        var piece := chunk.choices[n].content;
        if piece != "" {
          content := content + piece;
        } else {
          assert content + piece == content;
        }
      }
      assert chunk.choices[..|chunk.choices|] == chunk.choices;
    }

    method AccumulateToolCall(f: Fragment)
      modifies `toolStates
      ensures toolStates == TakeKeyed(old(toolStates), f)
    {
      if f.index !in toolStates { toolStates := toolStates[f.index := OpenCall(Given(f.id), f.name, "")]; }
      if f.arguments != "" {
        var state := toolStates[f.index];
        toolStates := toolStates[f.index := state.(arguments := state.arguments + f.arguments)];
      } else {
        assert toolStates[f.index].arguments + f.arguments == toolStates[f.index].arguments;
        assert toolStates[f.index := toolStates[f.index]] == toolStates;
      }
      assert "" + f.arguments == f.arguments;
    }

    method TakeChunk(chunk: Chunk, ghost before: seq<Fragment>)
      requires toolStates == AccumulateKeyed(before)
      modifies this
      ensures content == old(content) + Pieces(chunk.choices) && persisted == old(persisted)
      ensures toolStates == AccumulateKeyed(before + chunk.Fragments())
      ensures sent == old(sent) + [Echo(chunk)]
    {
      AppendContent(chunk);
      var fragments := chunk.Fragments();
      assert before + fragments[..0] == before;
      for n := 0 to |fragments|
        invariant toolStates == AccumulateKeyed(before + fragments[..n])
        invariant content == old(content) + Pieces(chunk.choices) && persisted == old(persisted) && sent == old(sent)
      {
        AccumulateKeyedSnoc(before, fragments, n);
        AccumulateToolCall(fragments[n]);
      }
      assert fragments[..|fragments|] == fragments;
      sent := sent + [Echo(chunk)];
    }

    ghost predicate Listed(indices: seq<int>)
      reads this
    {
      forall k :: 0 <= k < |indices| ==> indices[k] in toolStates
    }

    method CallsInOrder(indices: seq<int>) returns (calls: seq<OpenCall>)
      requires Listed(indices)
      ensures calls == InIndexOrder(toolStates, indices)
    {
      calls := [];
      for n := 0 to |indices|
        invariant calls == InIndexOrder(toolStates, indices[..n])
      {
        InOrderNext(toolStates, indices, n);
        var call := toolStates[indices[n]];
        calls := calls + [if call.id == Given("") then call.(id := Minted(n)) else call];
      }
      assert indices[..|indices|] == indices;
    }

    /** `_stream_assistant_message`: the calls in the order of their indices. */
    method AssistantTurn() returns (reply: Reply)
      ensures reply == MakeReply(content, InIndexOrder(toolStates, Sorted(toolStates.Keys)))
    {
      var indices := SortKeys(toolStates.Keys);
      assert forall k :: 0 <= k < |indices| ==> indices[k] in indices;
      var calls := CallsInOrder(indices);
      reply := MakeReply(content, calls);
    }

    ghost predicate Took(chunks: seq<Chunk>)
      reads this
    {
      && content == Content(chunks) && toolStates == AccumulateKeyed(AllFragments(chunks))
      && sent == Echoes(chunks) && persisted == []
    }

    method TakeNext(chunk: Chunk, ghost done: seq<Chunk>)
      requires Took(done)
      modifies this
      ensures Took(done + [chunk])
    {
      Snoc(done, chunk);
      TakeChunk(chunk, AllFragments(done));
    }

    method TakeTail(tail: seq<Chunk>, ghost done: seq<Chunk>)
      requires Took(done)
      modifies this
      ensures Took(done + tail)
    {
      assert done + tail[..0] == done;
      for n := 0 to |tail|
        invariant Took(done + tail[..n])
      {
        TakeNext(tail[n], done + tail[..n]);
        Grown(done, tail, n);
      }
      assert tail[..|tail|] == tail;
    }

    /** The whole stream: `tail` is what arrives before the upstream ends or, if `failed`, breaks off. */
    method StreamBody(first: Option<Chunk>, tail: seq<Chunk>, failed: bool)
      requires content == "" && toolStates == map[] && sent == [] && persisted == []
      modifies this
      ensures var chunks := Upstream(first, tail);
        && sent == Echoes(chunks) + [if failed then StreamError else DoneMark]
        && persisted == [Persisted(chunks)]
    {
      if first.Some? {
        assert [first.value] == [] + [first.value];
        TakeTail([first.value], []);
      }
      TakeTail(tail, Upstream(first, []));
      assert Upstream(first, tail) == Upstream(first, []) + tail;
      if failed { sent := sent + [StreamError]; }
      var reply := AssistantTurn();
      persisted := persisted + [reply];
      if !failed { sent := sent + [DoneMark]; }
    }
  }

  lemma {:induction false} PiecesOfOne(choice: Choice)
    ensures Pieces([]) == "" && Pieces([choice]) == choice.content
  {
    assert [choice][..0] == [] && "" + choice.content == choice.content;
  }

  lemma {:induction false} PiecesSnoc(choices: seq<Choice>, choice: Choice)
    ensures Pieces(choices + [choice]) == Pieces(choices) + choice.content
  {
  }

  /** Every choice's text is kept, in order, and nothing else. */
  lemma {:induction false} PiecesInOrder(left: seq<Choice>, right: seq<Choice>)
    ensures Pieces(left + right) == Pieces(left) + Pieces(right)
    ensures |right| == 1 ==> Pieces(right) == right[0].content
    decreases |right|
  {
    if |right| == 1 { PiecesOfOne(right[0]); }
    if right == [] {
      assert left + right == left && Pieces(left) + "" == Pieces(left);
    } else {
      var n := |right| - 1;
      PiecesInOrder(left, right[..n]);
      PiecesSnoc(left + right[..n], right[n]);
      PiecesSnoc(right[..n], right[n]);
      SplitLast(left, right);
      assert right == right[..n] + [right[n]];
      Joined(Pieces(left), Pieces(right[..n]), right[n].content);
    }
  }

  lemma {:induction false} Joined(a: string, b: string, c: string)
    ensures a + b + c == a + (b + c)
  {
  }

  lemma {:induction false} ContentOfOne(chunk: Chunk)
    ensures Content([]) == "" && Content([chunk]) == Pieces(chunk.choices)
  {
    assert [chunk][..0] == [] && "" + Pieces(chunk.choices) == Pieces(chunk.choices);
  }

  lemma {:induction false} ContentSnoc(chunks: seq<Chunk>, chunk: Chunk)
    ensures Content(chunks + [chunk]) == Content(chunks) + Pieces(chunk.choices)
  {
  }

  /** And so is every chunk's. */
  lemma {:induction false} ContentInOrder(left: seq<Chunk>, right: seq<Chunk>)
    ensures Content(left + right) == Content(left) + Content(right)
    ensures |right| == 1 ==> Content(right) == Pieces(right[0].choices)
    decreases |right|
  {
    if |right| == 1 { ContentOfOne(right[0]); }
    if right == [] {
      assert left + right == left && Content(left) + "" == Content(left);
    } else {
      var n := |right| - 1;
      ContentInOrder(left, right[..n]);
      ContentSnoc(left + right[..n], right[n]);
      ContentSnoc(right[..n], right[n]);
      SplitLast(left, right);
      assert right == right[..n] + [right[n]];
      Joined(Content(left), Content(right[..n]), Pieces(right[n].choices));
    }
  }

  lemma {:induction false} Grown(done: seq<Chunk>, tail: seq<Chunk>, n: nat)
    requires n < |tail|
    ensures done + tail[..n] + [tail[n]] == done + tail[..n + 1]
  {
  }

  lemma {:induction false} Snoc(chunks: seq<Chunk>, chunk: Chunk)
    ensures Content(chunks + [chunk]) == Content(chunks) + Pieces(chunk.choices)
    ensures AllFragments(chunks + [chunk]) == AllFragments(chunks) + chunk.Fragments()
    ensures Echoes(chunks + [chunk]) == Echoes(chunks) + [Echo(chunk)]
  {
  }

  lemma {:induction false} AccumulateKeyedSnoc(before: seq<Fragment>, fragments: seq<Fragment>, n: nat)
    requires n < |fragments|
    ensures AccumulateKeyed(before + fragments[..n + 1])
      == TakeKeyed(AccumulateKeyed(before + fragments[..n]), fragments[n])
  {
    var more := before + fragments[..n + 1];
    assert more == before + fragments[..n] + [fragments[n]];
    assert more[..|more| - 1] == before + fragments[..n];
  }

  lemma {:induction false} InOrderNext(states: map<int, OpenCall>, indices: seq<int>, n: nat)
    requires n < |indices| && forall k :: 0 <= k < |indices| ==> indices[k] in states
    ensures var call := states[indices[n]];
      InIndexOrder(states, indices[..n + 1])
      == InIndexOrder(states, indices[..n]) + [if call.id == Given("") then call.(id := Minted(n)) else call]
  {
    assert indices[..n + 1][..n] == indices[..n];
  }

  lemma {:induction false} LastIsMax(all: seq<int>, fewer: seq<int>, rest: set<int>, m: int)
    requires IsMax(rest, m)
    requires forall x :: x in all <==> x in rest
    requires forall i, k :: 0 <= i < k < |all| ==> all[i] < all[k]
    requires forall x :: x in fewer <==> x in rest && x != m
    requires forall i, k :: 0 <= i < k < |fewer| ==> fewer[i] < fewer[k]
    ensures all == fewer + [m]
  {
    assert forall k :: 0 <= k < |fewer| ==> fewer[k] in fewer;
    IncreasingUnique(all, fewer + [m]);
  }

  lemma {:induction false} SortedNext(rest: set<int>, m: int, sorted: seq<int>)
    requires IsMax(rest, m)
    ensures Sorted(rest) + sorted == Sorted(rest - {m}) + ([m] + sorted)
  {
    LastIsMax(Sorted(rest), Sorted(rest - {m}), rest, m);
  }

  method Largest(keys: set<int>) returns (m: int)
    requires exists m :: IsMax(keys, m)
    ensures IsMax(keys, m)
  {
    m :| m in keys && forall x :: x in keys ==> x <= m;
  }

  /** `sorted(states)`: every key once, in increasing order. */
  method SortKeys(keys: set<int>) returns (sorted: seq<int>)
    ensures forall x :: x in sorted <==> x in keys
    ensures forall i, k :: 0 <= i < k < |sorted| ==> sorted[i] < sorted[k]
    ensures sorted == Sorted(keys)
  {
    sorted := [];
    var rest := keys;
    while rest != {}
      invariant rest <= keys && Sorted(keys) == Sorted(rest) + sorted
      decreases |rest|
    {
      MaxExists(rest);
      var m := Largest(rest);
      SortedNext(rest, m, sorted);
      rest, sorted := rest - {m}, [m] + sorted;
    }
    assert [] + sorted == sorted;
  }

  // ---- The three streams persist the same message ------------------------------------------------------

  lemma {:induction false} OneChoice(chunk: Chunk)
    requires |chunk.choices| <= 1
    ensures Pieces(chunk.choices) == chunk.Piece()
  {
  }

  ghost predicate SingleChoices(chunks: seq<Chunk>) {
    forall k :: 0 <= k < |chunks| ==> |chunks[k].choices| <= 1
  }

  lemma {:induction false} ContentOfFirstChoices(chunks: seq<Chunk>)
    requires SingleChoices(chunks)
    ensures Content(chunks) == JoinPieces(chunks)
  {
    if chunks != [] {
      OneChoice(chunks[|chunks| - 1]);
      ContentOfFirstChoices(chunks[..|chunks| - 1]);
    }
  }

  /** On well-formed streams all three protocols persist the same assistant message. */
  lemma {:induction false} SameMessagePersisted(chunks: seq<Chunk>)
    requires SingleChoices(chunks) && WellFormed(AllFragments(chunks))
    ensures Persisted(chunks) == AnthropicStream.Persisted(chunks) == ResponsesStream.Persisted(chunks)
  {
    ContentOfFirstChoices(chunks);
    AccumulatorsAgree(AllFragments(chunks));
    AnthropicAgreement.PersistedReply(chunks);
    ResponsesLifecycle.PersistedReply(chunks);
  }
}
