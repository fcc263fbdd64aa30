/** Lines are first in, first out: over every run, whoever polls is handed the job that was dispatched first of those
    in the line it looks at. */
module AgentOrder {
  import opened AgentDispatch
  import opened AgentDispatchSafety
  import opened AgentTables

  // ---- Lines keep the order of dispatch ------------------------------------------------------------------

  /** The jobs in the order they were dispatched. */
  ghost function Dispatched<R>(actions: seq<Action<R>>): seq<JobId> {
    if actions == [] then []
    else
      var n := |actions| - 1;
      Dispatched(actions[..n])
      + if actions[n].Dispatch? && Enabled(Run(actions[..n]), actions[n]) then [actions[n].job] else []
  }

  /** `i` comes before `j` in the order. */
  ghost predicate Sooner(order: seq<JobId>, i: JobId, j: JobId) {
    exists m, n :: 0 <= m < n < |order| && order[m] == i && order[n] == j
  }

  /** The line's jobs come in that order. */
  ghost predicate InTurn(order: seq<JobId>, line: seq<JobId>) {
    && (forall k :: 0 <= k < |line| ==> line[k] in order)
    && (forall i, k :: 0 <= i < k < |line| ==> Sooner(order, line[i], line[k]))
  }

  ghost predicate Lines<R>(order: seq<JobId>, heap: map<R, seq<JobId>>) {
    forall r :: r in heap ==> InTurn(order, heap[r])
  }

  lemma {:induction false} StillSooner(order: seq<JobId>, job: JobId, i: JobId, j: JobId)
    requires Sooner(order, i, j)
    ensures Sooner(order + [job], i, j)
  {
    var m, n :| 0 <= m < n < |order| && order[m] == i && order[n] == j;
    assert (order + [job])[m] == i && (order + [job])[n] == j;
  }

  lemma {:induction false} SoonerThanLast(order: seq<JobId>, job: JobId, i: JobId)
    requires i in order
    ensures Sooner(order + [job], i, job)
  {
    var m :| 0 <= m < |order| && order[m] == i;
    assert (order + [job])[m] == i && (order + [job])[|order|] == job;
  }

  lemma {:induction false} StillInTurn(order: seq<JobId>, job: JobId, line: seq<JobId>)
    requires InTurn(order, line)
    ensures InTurn(order + [job], line) && InTurn(order + [job], line + [job])
  {
    var longer := line + [job];
    forall i, k | 0 <= i < k < |longer| ensures Sooner(order + [job], longer[i], longer[k]) {
      if k < |line| { StillSooner(order, job, line[i], line[k]); } else { SoonerThanLast(order, job, line[i]); }
    }
    assert forall i, k :: 0 <= i < k < |line| ==> line[i] == longer[i] && line[k] == longer[k];
  }

  lemma {:induction false} TailInTurn(order: seq<JobId>, line: seq<JobId>)
    requires line != [] && InTurn(order, line)
    ensures InTurn(order, line[1..]) && line[0] in order
    ensures forall j :: j in line[1..] ==> Sooner(order, line[0], j)
  {
    var tail := line[1..];
    assert forall k :: 0 <= k < |tail| ==> tail[k] == line[k + 1];
  }

  lemma {:induction false} FirstInTurn(order: seq<JobId>, job: JobId, line: seq<JobId>)
    requires InTurn(order, line) && job in order && forall j :: j in line ==> Sooner(order, job, j)
    ensures InTurn(order, [job] + line)
  {
  }

  lemma {:induction false} WithoutInTurn(order: seq<JobId>, line: seq<JobId>, job: JobId)
    requires InTurn(order, line)
    ensures InTurn(order, Without(line, job))
  {
    if line != [] {
      TailInTurn(order, line);
      WithoutInTurn(order, line[1..], job);
      if line[0] != job { FirstInTurn(order, line[0], Without(line[1..], job)); }
    }
  }

  lemma {:induction false} DropInTurn<R>(order: seq<JobId>, s: State<R>, user: User, job: JobId, deque: R)
    requires Lines(order, s.heap)
    ensures Lines(order, DropJob(s, user, job, deque).heap)
  {
    assert InTurn(order, s.Queue(user));
    WithoutInTurn(order, s.Queue(user), job);
  }

  lemma {:induction false} LookInTurn<R>(order: seq<JobId>, s: State<R>, poll: PollId, stay: bool)
    requires Lines(order, s.heap) && poll in s.polls
    ensures Lines(order, Look(s, poll, stay).heap)
  {
    var items := Items(s.heap, s.polls[poll].queue);
    if items != [] { TailInTurn(order, items); }
  }

  lemma {:induction false} StagedInTurn<R>(
    order: seq<JobId>, s: State<R>, job: JobId, ticket: Ticket, sockets: seq<Socket>, deque: R)
    requires Lines(order, s.heap)
    ensures Lines(order + [job], Staged(s, job, ticket, sockets, deque).heap)
  {
    var q := WithQueue(s, ticket.owner, deque);
    assert Lines(order, q.heap);
    forall r | r in q.heap ensures InTurn(order + [job], q.heap[r]) && InTurn(order + [job], q.heap[r] + [job]) {
      StillInTurn(order, job, q.heap[r]);
    }
    StillInTurn(order, job, []);
  }

  lemma {:induction false} NextInTurn<R>(order: seq<JobId>, s: State<R>, a: Action<R>)
    requires Lines(order, s.heap) && Enabled(s, a) && !a.Dispatch?
    ensures Lines(order, Next(s, a).heap)
  {
    match a
    case SendSucceeds(job, deque) =>
      DropInTurn(order, Delivered(s, job, s.ever[job].owner), s.ever[job].owner, job, deque);
    case Leave(job, reason, deque) => DropInTurn(order, s, s.ever[job].owner, job, deque);
    case BeginPoll(poll, user, deque) =>
      LookInTurn(order, WithHold(WithQueue(s, user, deque), poll, user), poll, true);
    case Wake(poll) => LookInTurn(order, s, poll, true);
    case TimeOut(poll) => LookInTurn(order, s, poll, false);
    case _ =>
  }

  /** In every reachable state every line, a stale one too, holds its jobs in the order they were dispatched. */
  lemma {:induction false} LinesInOrder<R>(actions: seq<Action<R>>)
    ensures Lines(Dispatched(actions), Run(actions).heap)
  {
    if actions != [] {
      var n := |actions| - 1;
      var s, a := Run(actions[..n]), actions[n];
      LinesInOrder(actions[..n]);
      if Enabled(s, a) {
        if a.Dispatch? {
          StagedInTurn(Dispatched(actions[..n]), s, a.job, a.ticket, a.order, a.deque);
        } else {
          assert Dispatched(actions) == Dispatched(actions[..n]);
          NextInTurn(Dispatched(actions[..n]), s, a);
        }
      } else {
        assert Dispatched(actions) == Dispatched(actions[..n]);
      }
    }
  }

  // ---- What a poll is answered ---------------------------------------------------------------------------

  /** The line a poll looks at: its user's when it begins, later the one it began with. */
  function LineOf<R>(s: State<R>, a: Action<R>): seq<JobId> {
    match a
    case BeginPoll(_, user, _) => s.Queue(user)
    case Wake(poll) => if poll in s.polls then Items(s.heap, s.polls[poll].queue) else []
    case TimeOut(poll) => if poll in s.polls then Items(s.heap, s.polls[poll].queue) else []
    case _ => []
  }

  ghost predicate Polls<R>(a: Action<R>) { a.BeginPoll? || a.Wake? || a.TimeOut? }

  /** Just this has happened: the job was handed to somebody. */
  ghost predicate JustHanded(before: seq<Event>, after: seq<Event>, job: JobId) {
    exists user, since: nat :: after == before + [Handed(job, user, since)]
  }

  lemma {:induction false} LookAnswer<R>(s: State<R>, poll: PollId, stay: bool, line: seq<JobId>, t: State<R>)
    requires poll in s.polls && t == Look(s, poll, stay) && line == Items(s.heap, s.polls[poll].queue)
    ensures line == [] ==> t == if stay then s else s.(polls := s.polls - {poll})
    ensures line != [] ==> JustHanded(s.log, t.log, line[0]) && t.polls == s.polls - {poll}
    ensures line != [] ==> t.heap == s.heap[s.polls[poll].queue := line[1..]]
  {
    var hold := s.polls[poll];
    if line != [] { assert t.log == s.log + [Handed(line[0], hold.user, hold.since)]; }
  }

  lemma {:induction false} QueueKept<R>(s: State<R>, user: User, deque: R, q: State<R>)
    requires q == WithQueue(s, user, deque) && deque !in s.heap
    ensures user in q.queues && Items(q.heap, q.queues[user]) == s.Queue(user) && q.log == s.log && q.polls == s.polls
  {
  }

  lemma {:induction false} HoldAdded<R>(q: State<R>, poll: PollId, user: User, h: State<R>)
    requires user in q.queues && poll !in q.polls && h == WithHold(q, poll, user)
    ensures poll in h.polls && h.polls[poll].queue == q.queues[user] && h.polls - {poll} == q.polls
    ensures h.heap == q.heap && h.log == q.log
  {
  }

  lemma {:induction false} BegunAnswer<R>(
    s: State<R>, poll: PollId, user: User, q: State<R>, h: State<R>, line: seq<JobId>, t: State<R>)
    requires user in q.queues && poll !in q.polls && h == WithHold(q, poll, user) && t == Look(h, poll, true)
    requires q.log == s.log && q.polls == s.polls && line == Items(q.heap, q.queues[user])
    ensures line == [] ==> t.log == s.log && poll in t.polls && t.polls - {poll} == s.polls
    ensures line != [] ==> JustHanded(s.log, t.log, line[0]) && t.polls == s.polls
  {
    HoldAdded(q, poll, user, h);
    LookAnswer(h, poll, true, line, t);
  }

  /** A poll that looks at an empty line is handed nothing and stays held unless its time is up; one that finds jobs is
      handed the first and is over. Nobody else's poll changes. */
  lemma {:induction false} PollAnswer<R>(s: State<R>, a: Action<R>, t: State<R>)
    requires Polls(a) && Enabled(s, a) && t == Next(s, a)
    ensures LineOf(s, a) == [] ==> t.log == s.log && (a.poll in t.polls <==> !a.TimeOut?)
    ensures LineOf(s, a) != [] ==> JustHanded(s.log, t.log, LineOf(s, a)[0]) && a.poll !in t.polls
    ensures t.polls - {a.poll} == s.polls - {a.poll}
  {
    match a
    case BeginPoll(poll, user, deque) =>
      var q := WithQueue(s, user, deque);
      QueueKept(s, user, deque, q);
      BegunAnswer(s, poll, user, q, WithHold(q, poll, user), s.Queue(user), t);
    case Wake(poll) => LookAnswer(s, poll, true, LineOf(s, a), t);
    case TimeOut(poll) => LookAnswer(s, poll, false, LineOf(s, a), t);
  }

  lemma {:induction false} DropPolls<R>(s: State<R>, user: User, job: JobId, deque: R)
    ensures DropJob(s, user, job, deque).polls == s.polls
  {
  }

  /** The step begins this poll, and its line is empty. */
  ghost predicate Starts<R>(s: State<R>, a: Action<R>, poll: PollId) {
    a.BeginPoll? && a.poll == poll && LineOf(s, a) == []
  }

  /** The step ends this poll: it goes away, its time is up, or it is handed a job. */
  ghost predicate Ends<R>(s: State<R>, a: Action<R>, poll: PollId) {
    && (a.AbortPoll? || a.TimeOut? || a.Wake?) && a.poll == poll
    && (a.Wake? ==> LineOf(s, a) != [])
  }

  lemma {:induction false} PollsStay<R>(s: State<R>, a: Action<R>, t: State<R>)
    requires Enabled(s, a) && t == Next(s, a) && !Polls(a) && !a.AbortPoll?
    ensures t.polls == s.polls
  {
    match a
    case SendSucceeds(job, deque) => DropPolls(Delivered(s, job, s.ever[job].owner), s.ever[job].owner, job, deque);
    case Leave(job, reason, deque) => DropPolls(s, s.ever[job].owner, job, deque);
    case _ =>
  }

  lemma {:induction false} SamePolls<R>(s: State<R>, t: State<R>, other: PollId, poll: PollId)
    requires t.polls - {other} == s.polls - {other} && poll != other
    ensures poll in t.polls <==> poll in s.polls
  {
    assert poll in t.polls <==> poll in t.polls - {other};
    assert poll in s.polls <==> poll in s.polls - {other};
  }

  /** A poll is held after a step exactly if it began on an empty line, or was held and the step does not end it. */
  lemma {:induction false} HeldExactly<R>(s: State<R>, a: Action<R>, t: State<R>, poll: PollId)
    requires Enabled(s, a) && t == Next(s, a)
    ensures poll in t.polls <==> Starts(s, a, poll) || (poll in s.polls && !Ends(s, a, poll))
  {
    if Polls(a) {
      PollAnswer(s, a, t);
      if a.poll != poll { SamePolls(s, t, a.poll, poll); }
    } else if !a.AbortPoll? {
      PollsStay(s, a, t);
    }
  }

  /** The rest of the line stays as it is, and so do all other lines. */
  lemma {:induction false} RestStays<R>(s: State<R>, a: Action<R>, t: State<R>)
    requires (a.Wake? || a.TimeOut?) && Enabled(s, a) && t == Next(s, a) && LineOf(s, a) != []
    ensures t.heap == s.heap[s.polls[a.poll].queue := LineOf(s, a)[1..]]
  {
    LookAnswer(s, a.poll, a.Wake?, LineOf(s, a), t);
  }

  /** In every reachable state: a poll that is handed a job is handed the one dispatched first of all jobs in the line
      it looks at. */
  lemma {:induction false} OldestFirst<R>(actions: seq<Action<R>>, a: Action<R>)
    requires Polls(a) && Enabled(Run(actions), a)
    ensures var s, t := Run(actions), Next(Run(actions), a);
      LineOf(s, a) != [] ==>
        exists job :: JustHanded(s.log, t.log, job) && job in LineOf(s, a)
          && forall j :: j in LineOf(s, a) && j != job ==> Sooner(Dispatched(actions), job, j)
  {
    var s := Run(actions);
    LinesInOrder(actions);
    PollAnswer(s, a, Next(s, a));
    if LineOf(s, a) != [] { TailInTurn(Dispatched(actions), LineOf(s, a)); }
  }

  /** A new job joins its user's line at the end. */
  lemma {:induction false} JoinsTheLine<R>(s: State<R>, a: Action<R>)
    requires a.Dispatch? && Enabled(s, a)
    ensures Next(s, a).Queue(a.ticket.owner) == s.Queue(a.ticket.owner) + [a.job]
  {
  }

  // ---- Who is forgotten ----------------------------------------------------------------------------------

  /** In every reachable state a user may be forgotten exactly if no poll of theirs is held, no job waits in their line,
      none of their sockets is attached, and every job ever dispatched to them has left. */
  lemma {:induction false} ForgottenExactly<R>(actions: seq<Action<R>>, user: User)
    ensures var s := Run(actions);
      Enabled(s, Forget(user)) <==>
        && (forall p :: p in s.polls ==> s.polls[p].user != user) && s.Queue(user) == []
        && (forall x :: !Attached(s, user, x))
        && (forall j :: j in s.ever && s.ever[j].owner == user ==> HasLeft(s.log, j))
  {
    RunIsGood(actions);
    RunIsAwaited(actions);
    var s := Run(actions);
    forall j ensures j in s.Futures(user) <==> j in s.ever && s.ever[j].owner == user && !HasLeft(s.log, j) {
      if j in s.ever && s.ever[j].owner == user && !HasLeft(s.log, j) { assert j in s.Futures(s.jobs[j].owner); }
    }
    EmptyTables(s, user);
  }

  lemma {:induction false} EmptyTables<R>(s: State<R>, user: User)
    ensures s.Futures(user) == map[] <==> forall j :: j !in s.Futures(user)
    ensures s.Sockets(user) == {} <==> forall x :: !Attached(s, user, x)
    ensures s.Held(user) == {} <==> forall p :: p in s.polls ==> s.polls[p].user != user
  {
    if forall j :: j !in s.Futures(user) { assert s.Futures(user) == map[]; }
    if forall x :: !Attached(s, user, x) {
      forall x ensures x !in s.Sockets(user) { assert !Attached(s, user, x); }
      assert s.Sockets(user) == {};
    }
    if forall p :: p in s.polls ==> s.polls[p].user != user { assert s.Held(user) == {}; }
    assert forall p :: p in s.Held(user) <==> p in s.polls && s.polls[p].user == user;
    assert forall x :: x in s.Sockets(user) <==> Attached(s, user, x);
  }
}
