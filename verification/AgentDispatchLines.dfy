/** Which jobs can still be handed out. A deque that `queues` names hands out all it holds, sooner or later; one that
    `queues` no longer names only as many jobs as polls still hold it, for each takes one. */
module AgentDispatchLines {
  import opened AgentDispatch
  import opened AgentDispatchSafety

  ghost function Holders<R>(polls: map<PollId, Hold<R>>, r: R): set<PollId> {
    set p | p in polls && polls[p].queue == r
  }

  /** The first `n` jobs, or all there are. */
  function First(queue: seq<JobId>, n: nat): (first: seq<JobId>)
    ensures forall j :: j in first ==> j in queue
  {
    if n <= |queue| then queue[..n] else queue
  }

  /** What the polls that hold a deque take from it if nothing else happens. */
  ghost function Ahead<R>(s: State<R>, r: R): seq<JobId> { First(Items(s.heap, r), |Holders(s.polls, r)|) }

  ghost predicate Current<R>(queues: map<User, R>, r: R) { exists u :: u in queues && queues[u] == r }

  /** The jobs a deque may still hand out. */
  ghost function Line<R>(s: State<R>, r: R): seq<JobId> {
    if Current(s.queues, r) then Items(s.heap, r) else Ahead(s, r)
  }

  ghost predicate InLine<R>(s: State<R>, job: JobId) {
    exists r :: r in s.heap && job in Line(s, r)
  }

  ghost predicate Pushed<R>(s: State<R>, job: JobId) { job in s.calls && s.calls[job].Pushing? }

  /** Some deque may still hand the job out, or a push of it is in flight. */
  ghost predicate MayBeHanded<R>(s: State<R>, job: JobId) { Pushed(s, job) || InLine(s, job) }

  /** How often a job has been handed out. */
  function HandOuts(log: seq<Event>, job: JobId): nat {
    if log == [] then 0
    else
      var e := log[|log| - 1];
      HandOuts(log[..|log| - 1], job) + if e.Handed? && e.job == job then 1 else 0
  }

  lemma {:induction false} HandOutsNote(log: seq<Event>, e: Event, job: JobId)
    ensures HandOuts(log + [e], job) == HandOuts(log, job) + if e.Handed? && e.job == job then 1 else 0
  {
    assert (log + [e])[..|log|] == log;
  }

  // ---- How the lines change ------------------------------------------------------------------------------

  lemma {:induction false} SameLines<R>(s: State<R>, t: State<R>)
    requires t.heap == s.heap && t.queues == s.queues && t.polls == s.polls
    ensures forall r :: Line(t, r) == Line(s, r) && Ahead(t, r) == Ahead(s, r)
  {
  }

  /** Every other deque has the same line and the same jobs ahead. */
  ghost predicate OthersSame<R>(s: State<R>, t: State<R>, r: R) {
    forall q :: q in t.heap && q != r ==> Line(t, q) == Line(s, q) && Ahead(t, q) == Ahead(s, q)
  }

  lemma {:induction false} FewerHolders<R>(polls: map<PollId, Hold<R>>, poll: PollId, r: R)
    requires poll in polls
    ensures |Holders(polls - {poll}, r)| == |Holders(polls, r)| - if polls[poll].queue == r then 1 else 0
  {
    assert Holders(polls, r) == Holders(polls - {poll}, r) + if polls[poll].queue == r then {poll} else {};
  }

  lemma {:induction false} MoreHolders<R>(polls: map<PollId, Hold<R>>, poll: PollId, hold: Hold<R>, r: R)
    requires poll !in polls
    ensures |Holders(polls[poll := hold], r)| == |Holders(polls, r)| + if hold.queue == r then 1 else 0
  {
    assert Holders(polls[poll := hold], r) == Holders(polls, r) + if hold.queue == r then {poll} else {};
  }

  lemma {:induction false} LookTakes<R>(s: State<R>, poll: PollId, stay: bool)
    requires poll in s.polls && Items(s.heap, s.polls[poll].queue) != []
    ensures var t, hold := Look(s, poll, stay), s.polls[poll];
      var items := Items(s.heap, hold.queue);
      && t.heap == s.heap[hold.queue := items[1..]] && t.queues == s.queues && t.polls == s.polls - {poll}
      && t.calls == s.calls && t.ever == s.ever && t.log == s.log + [Handed(items[0], hold.user, hold.since)]
  {
  }

  lemma {:induction false} LookWaits<R>(s: State<R>, poll: PollId, stay: bool)
    requires poll in s.polls && Items(s.heap, s.polls[poll].queue) == []
    ensures Look(s, poll, stay) == if stay then s else s.(polls := s.polls - {poll})
  {
  }

  /** A poll takes the first job of its deque's line. */
  lemma {:induction false} PoppedLines<R>(s: State<R>, poll: PollId)
    requires poll in s.polls && Items(s.heap, s.polls[poll].queue) != []
    ensures var t, r := Look(s, poll, true), s.polls[poll].queue;
      && Ahead(s, r) != [] && Line(s, r) != [] && Ahead(s, r)[0] == Line(s, r)[0] == Items(s.heap, r)[0]
      && Ahead(t, r) == Ahead(s, r)[1..] && Line(t, r) == Line(s, r)[1..] && OthersSame(s, t, r)
  {
    var t, r := Look(s, poll, true), s.polls[poll].queue;
    forall q ensures |Holders(t.polls, q)| == |Holders(s.polls, q)| - if q == r then 1 else 0 {
      FewerHolders(s.polls, poll, q);
    }
    assert poll in Holders(s.polls, r);
  }

  lemma {:induction false} DroppedPollLines<R>(s: State<R>, poll: PollId)
    requires poll in s.polls
    ensures var t, r := s.(polls := s.polls - {poll}), s.polls[poll].queue;
      && Ahead(t, r) <= Ahead(s, r) && Line(t, r) <= Line(s, r) && OthersSame(s, t, r)
  {
    var t, r := s.(polls := s.polls - {poll}), s.polls[poll].queue;
    forall q ensures |Holders(t.polls, q)| == |Holders(s.polls, q)| - if q == r then 1 else 0 {
      FewerHolders(s.polls, poll, q);
    }
  }

  lemma {:induction false} WithQueueLines<R>(s: State<R>, user: User, deque: R)
    requires deque !in s.heap && Wired(s.heap, s.queues, s.polls)
    ensures var t := WithQueue(s, user, deque);
      forall r :: Line(t, r) == Line(s, r) && Ahead(t, r) == Ahead(s, r)
  {
    var t := WithQueue(s, user, deque);
    if user !in s.queues {
      forall r | r != deque ensures Current(t.queues, r) <==> Current(s.queues, r) {
        if Current(s.queues, r) {
          var u :| u in s.queues && s.queues[u] == r;
          assert t.queues[u] == r;
        }
      }
      assert t.queues[user] == deque;
    }
  }

  lemma {:induction false} EnterLines<R>(q: State<R>, job: JobId, ticket: Ticket, order: seq<Socket>)
    requires ticket.owner in q.queues
    ensures var t, r := Enter(q, job, ticket, order), q.queues[ticket.owner];
      && Line(t, r) == Line(q, r) + [job] && OthersSame(q, t, r)
      && Ahead(t, r) == Ahead(q, r) + if |Holders(q.polls, r)| > |Items(q.heap, r)| then [job] else []
  {
    var t, r := Enter(q, job, ticket, order), q.queues[ticket.owner];
    assert Current(t.queues, r);
  }

  lemma {:induction false} HoldLines<R>(q: State<R>, poll: PollId, user: User)
    requires user in q.queues && poll !in q.polls
    ensures var t, r := WithHold(q, poll, user), q.queues[user];
      && Line(t, r) == Line(q, r) && OthersSame(q, t, r)
      && Ahead(t, r) == First(Items(q.heap, r), |Holders(q.polls, r)| + 1)
  {
    var t, r := WithHold(q, poll, user), q.queues[user];
    forall d ensures |Holders(t.polls, d)| == |Holders(q.polls, d)| + if d == r then 1 else 0 {
      MoreHolders(q.polls, poll, t.polls[poll], d);
    }
    assert Current(q.queues, r);
  }

  lemma {:induction false} Rebound<R>(queues: map<User, R>, user: User, deque: R, r: R)
    requires user in queues && forall u :: u in queues ==> queues[u] != deque
    requires forall u :: u in queues && queues[u] == queues[user] ==> u == user
    ensures Current(queues[user := deque], r) <==> r == deque || (r != queues[user] && Current(queues, r))
  {
    var more := queues[user := deque];
    assert more[user] == deque;
    if r != queues[user] && Current(queues, r) {
      var u :| u in queues && queues[u] == r;
      assert u in more && more[u] == r;
    }
  }

  /** Where a queue is rebound, the old deque keeps only what is ahead of the polls that hold it. */
  lemma {:induction false} DropLines<R>(s: State<R>, user: User, job: JobId, deque: R)
    requires Wired(s.heap, s.queues, s.polls) && user in s.queues && deque !in s.heap
    ensures var t, r := DropJob(s, user, job, deque), s.queues[user];
      && Line(t, deque) == Without(s.Queue(user), job) && Ahead(t, deque) == [] && r != deque
      && Line(t, r) == Ahead(t, r) == Ahead(s, r)
      && (forall q :: q != r && q != deque ==> Line(t, q) == Line(s, q) && Ahead(t, q) == Ahead(s, q))
  {
    var t := DropJob(s, user, job, deque);
    forall p ensures p !in Holders(s.polls, deque) {
      assert p in s.polls ==> s.polls[p].queue in s.heap;
    }
    assert Holders(s.polls, deque) == {};
    forall r ensures Current(t.queues, r) <==> r == deque || (r != s.queues[user] && Current(s.queues, r)) {
      Rebound(s.queues, user, deque, r);
    }
  }

  lemma {:induction false} ForgetLines<R>(s: State<R>, user: User)
    requires Idle(s, user) && Wired(s.heap, s.queues, s.polls)
    ensures var t := s.(queues := s.queues - {user}, sockets := s.sockets - {user});
      forall r :: Line(t, r) == Line(s, r) && Ahead(t, r) == Ahead(s, r)
  {
    var t := s.(queues := s.queues - {user}, sockets := s.sockets - {user});
    forall r | user !in s.queues || r != s.queues[user] ensures Current(t.queues, r) <==> Current(s.queues, r) {
      if Current(s.queues, r) {
        var u :| u in s.queues && s.queues[u] == r;
        assert u in t.queues && t.queues[u] == r;
      }
    }
  }

  // ---- No step brings a job back ---------------------------------------------------------------------------

  lemma {:induction false} PoppedKeepsOut<R>(s: State<R>, poll: PollId, t: State<R>, job: JobId)
    requires poll in s.polls && s.polls[poll].queue in s.heap && Items(s.heap, s.polls[poll].queue) != []
    requires t == Look(s, poll, true) && !InLine(s, job)
    ensures !InLine(t, job) && HandOuts(t.log, job) == HandOuts(s.log, job)
  {
    var r := s.polls[poll].queue;
    LookTakes(s, poll, true);
    PoppedLines(s, poll);
    HandOutsNote(s.log, Handed(Items(s.heap, r)[0], s.polls[poll].user, s.polls[poll].since), job);
    assert job !in Line(s, r);
    forall q | q in t.heap ensures job !in Line(t, q) {
      if q != r { assert job !in Line(s, q); }
    }
  }

  lemma {:induction false} LookKeepsOut<R>(s: State<R>, poll: PollId, stay: bool, job: JobId)
    requires poll in s.polls && Wired(s.heap, s.queues, s.polls) && !InLine(s, job)
    ensures !InLine(Look(s, poll, stay), job)
    ensures HandOuts(Look(s, poll, stay).log, job) == HandOuts(s.log, job)
  {
    if Items(s.heap, s.polls[poll].queue) == [] {
      LookWaits(s, poll, stay);
      if !stay { AbortKeepsOut(s, poll, job); }
    } else {
      PoppedKeepsOut(s, poll, Look(s, poll, true), job);
    }
  }

  lemma {:induction false} StagedKeepsOut<R>(
    s: State<R>, other: JobId, ticket: Ticket, order: seq<Socket>, deque: R, job: JobId)
    requires Wired(s.heap, s.queues, s.polls) && deque !in s.heap && !InLine(s, job) && job != other
    ensures !InLine(Staged(s, other, ticket, order, deque), job)
  {
    WithQueueLines(s, ticket.owner, deque);
    EnterLines(WithQueue(s, ticket.owner, deque), other, ticket, order);
  }

  lemma {:induction false} HoldKeepsOut<R>(q: State<R>, poll: PollId, user: User, job: JobId)
    requires user in q.queues && poll !in q.polls && !InLine(q, job)
    ensures !InLine(WithHold(q, poll, user), job)
  {
    HoldLines(q, poll, user);
  }

  lemma {:induction false} WithQueueKeepsOut<R>(s: State<R>, user: User, deque: R, job: JobId)
    requires Wired(s.heap, s.queues, s.polls) && deque !in s.heap && !InLine(s, job)
    ensures !InLine(WithQueue(s, user, deque), job)
  {
    WithQueueLines(s, user, deque);
  }

  lemma {:induction false} HeldLookKeepsOut<R>(q: State<R>, poll: PollId, user: User, job: JobId)
    requires Good(q) && user in q.queues && poll !in q.polls && !InLine(q, job)
    ensures var t := Look(WithHold(q, poll, user), poll, true);
      !InLine(t, job) && HandOuts(t.log, job) == HandOuts(q.log, job)
  {
    HoldGood(q, poll, user);
    HoldKeepsOut(q, poll, user, job);
    LookKeepsOut(WithHold(q, poll, user), poll, true, job);
  }

  lemma {:induction false} BegunKeepsOut<R>(s: State<R>, poll: PollId, user: User, deque: R, job: JobId)
    requires Good(s) && deque !in s.heap && poll !in s.polls && !InLine(s, job)
    ensures !InLine(Begun(s, poll, user, deque), job)
    ensures HandOuts(Begun(s, poll, user, deque).log, job) == HandOuts(s.log, job)
  {
    WithQueueGood(s, user, deque);
    WithQueueKeepsOut(s, user, deque, job);
    HeldLookKeepsOut(WithQueue(s, user, deque), poll, user, job);
  }

  lemma {:induction false} DropKeepsOut<R>(s: State<R>, user: User, other: JobId, deque: R, job: JobId)
    requires Wired(s.heap, s.queues, s.polls) && deque !in s.heap && !InLine(s, job)
    ensures !InLine(DropJob(s, user, other, deque), job)
  {
    if user in s.queues {
      DropLines(s, user, other, deque);
      assert Current(s.queues, s.queues[user]) && Line(s, s.queues[user]) == s.Queue(user);
    }
  }

  lemma {:induction false} SameKeepsOut<R>(s: State<R>, t: State<R>, job: JobId)
    requires t.heap == s.heap && t.queues == s.queues && t.polls == s.polls && !InLine(s, job)
    ensures !InLine(t, job)
  {
    SameLines(s, t);
  }

  lemma {:induction false} SentKeepsOut<R>(s: State<R>, other: JobId, deque: R, job: JobId)
    requires Good(s) && Enabled(s, SendSucceeds(other, deque)) && job != other && !InLine(s, job)
    ensures var t := Sent(s, other, deque);
      !InLine(t, job) && HandOuts(t.log, job) == HandOuts(s.log, job)
  {
    var owner := s.ever[other].owner;
    SameKeepsOut(s, Delivered(s, other, owner), job);
    DropKeepsOut(Delivered(s, other, owner), owner, other, deque, job);
    HandOutsNote(s.log, Handed(other, owner, |s.log|), job);
  }

  lemma {:induction false} FinishedKeepsOut<R>(s: State<R>, other: JobId, reason: Reason, deque: R, job: JobId)
    requires Good(s) && Enabled(s, Leave(other, reason, deque)) && !InLine(s, job)
    ensures var t := Finished(s, other, reason, deque);
      !InLine(t, job) && HandOuts(t.log, job) == HandOuts(s.log, job)
  {
    var d := DropJob(s, s.ever[other].owner, other, deque);
    DropKeepsOut(s, s.ever[other].owner, other, deque, job);
    SameKeepsOut(d, Finished(s, other, reason, deque), job);
    HandOutsNote(s.log, Left(other, reason), job);
  }

  lemma {:induction false} TailKeepsOut<R>(s: State<R>, t: State<R>, e: Event, job: JobId)
    requires t.heap == s.heap && t.queues == s.queues && t.polls == s.polls && !InLine(s, job)
    requires t.log == s.log || (t.log == s.log + [e] && !e.Handed?)
    ensures !InLine(t, job) && HandOuts(t.log, job) == HandOuts(s.log, job)
  {
    SameKeepsOut(s, t, job);
    HandOutsNote(s.log, e, job);
  }

  lemma {:induction false} ForgetKeepsOut<R>(s: State<R>, user: User, job: JobId)
    requires Idle(s, user) && Wired(s.heap, s.queues, s.polls) && !InLine(s, job)
    ensures !InLine(s.(queues := s.queues - {user}, sockets := s.sockets - {user}), job)
  {
    ForgetLines(s, user);
  }

  lemma {:induction false} AbortKeepsOut<R>(s: State<R>, poll: PollId, job: JobId)
    requires poll in s.polls && !InLine(s, job)
    ensures !InLine(s.(polls := s.polls - {poll}), job)
  {
    DroppedPollLines(s, poll);
  }

  lemma {:induction false} LookCalls<R>(s: State<R>, poll: PollId, stay: bool)
    requires poll in s.polls
    ensures Look(s, poll, stay).calls == s.calls
  {
  }

  lemma {:induction false} DropCalls<R>(s: State<R>, user: User, job: JobId, deque: R)
    ensures DropJob(s, user, job, deque).calls == s.calls
  {
  }

  lemma {:induction false} FailedCalls<R>(s: State<R>, job: JobId)
    requires Enabled(s, SendFails(job))
    ensures Failed(s, job).calls.Keys == s.calls.Keys
    ensures forall j :: j in s.calls && j != job ==> Failed(s, job).calls[j] == s.calls[j]
  {
  }

  /** Only a dispatch adds a suspended call, and only the end of the dispatch removes it; only a dispatch starts a
      push. */
  ghost predicate CallsFollow<R>(calls: map<JobId, Phase>, next: map<JobId, Phase>, a: Action<R>, job: JobId) {
    && (job in next ==> job in calls || (a.Dispatch? && a.job == job))
    && (job !in next ==> job !in calls || ((a.Leave? || a.SendCancelled?) && a.job == job))
    && (job !in next ==> !(a.Dispatch? && a.job == job))
    && (job in next && next[job].Pushing? ==>
          (a.Dispatch? && a.job == job && a.order != []) || (job in calls && calls[job].Pushing?))
  }

  lemma {:induction false} CallsNext<R>(s: State<R>, a: Action<R>, job: JobId)
    requires Enabled(s, a)
    ensures CallsFollow(s.calls, Next(s, a).calls, a, job)
  {
    match a
    case SendSucceeds(other, deque) =>
      DropCalls(Delivered(s, other, s.ever[other].owner), s.ever[other].owner, other, deque);
    case SendFails(other) => FailedCalls(s, other);
    case Leave(other, reason, deque) => DropCalls(s, s.ever[other].owner, other, deque);
    case BeginPoll(poll, user, deque) => LookCalls(WithHold(WithQueue(s, user, deque), poll, user), poll, true);
    case Wake(poll) => LookCalls(s, poll, true);
    case TimeOut(poll) => LookCalls(s, poll, false);
    case _ =>
  }

  lemma {:induction false} NoNewPush<R>(s: State<R>, a: Action<R>, job: JobId)
    requires Enabled(s, a) && job in s.ever && !Pushed(s, job)
    ensures !Pushed(Next(s, a), job)
  {
    CallsNext(s, a, job);
  }

  /** Once a job can no longer be handed out it never can be again, and it is not handed out. */
  lemma {:induction false} StaysOut<R>(s: State<R>, a: Action<R>, job: JobId)
    requires Good(s) && Enabled(s, a) && job in s.ever && !MayBeHanded(s, job)
    ensures !MayBeHanded(Next(s, a), job)
    ensures HandOuts(Next(s, a).log, job) == HandOuts(s.log, job)
  {
    NoNewPush(s, a, job);
    match a
    case Dispatch(other, ticket, order, deque) => StagedKeepsOut(s, other, ticket, order, deque, job);
    case SendSucceeds(other, deque) => SentKeepsOut(s, other, deque, job);
    case SendFails(other) => TailKeepsOut(s, Next(s, a), Abandoned(other), job);
    case SendCancelled(other) => TailKeepsOut(s, Next(s, a), Abandoned(other), job);
    case Leave(other, reason, deque) => FinishedKeepsOut(s, other, reason, deque, job);
    case BeginPoll(poll, user, deque) => BegunKeepsOut(s, poll, user, deque, job);
    case Wake(poll) => LookKeepsOut(s, poll, true, job);
    case TimeOut(poll) => LookKeepsOut(s, poll, false, job);
    case AbortPoll(poll) => AbortKeepsOut(s, poll, job);
    case Submit(user, other, now) => TailKeepsOut(s, Next(s, a), Accepted(other, user, now), job);
    case Attach(_, _) => TailKeepsOut(s, Next(s, a), Abandoned(job), job);
    case Detach(_, _) => TailKeepsOut(s, Next(s, a), Abandoned(job), job);
    case Forget(user) => ForgetKeepsOut(s, user, job);
  }
}
