/** The shortest ways in which a job is handed out twice, or after its dispatch is over, and runs that take them. */
module AgentDispatchHazards {
  import opened AgentDispatch
  import opened AgentDispatchSafety

  ghost predicate HandedTwice(log: seq<Event>, job: JobId) {
    exists i, k :: 0 <= i < k < |log| && log[i].Handed? && log[k].Handed? && log[i].job == job == log[k].job
  }

  lemma {:induction false} LastTwo(log: seq<Event>, first: Event, second: Event)
    requires first.Handed? && second.Handed? && first.job == second.job
    ensures HandedTwice(log + [first] + [second], first.job)
  {
    var all := log + [first] + [second];
    assert all[|log|] == first && all[|log| + 1] == second;
  }

  lemma {:induction false} KeepsHead(queue: seq<JobId>, job: JobId)
    requires queue != [] && queue[0] != job
    ensures Without(queue, job) != [] && Without(queue, job)[0] == queue[0]
  {
  }

  // ---- A `_drop_job` while a poll is held: the stale deque ------------------------------------------

  lemma {:induction false} LookHands<R>(s: State<R>, poll: PollId, job: JobId)
    requires poll in s.polls && Items(s.heap, s.polls[poll].queue) != [] && Items(s.heap, s.polls[poll].queue)[0] == job
    ensures var t := Look(s, poll, true);
      && t.log == s.log + [Handed(job, s.polls[poll].user, s.polls[poll].since)]
      && t.queues == s.queues && t.polls == s.polls - {poll}
      && t.heap == s.heap[s.polls[poll].queue := Items(s.heap, s.polls[poll].queue)[1..]]
  {
  }

  lemma {:induction false} BeginHands<R>(s: State<R>, poll: PollId, user: User, deque: R, job: JobId)
    requires s.Queue(user) != [] && s.Queue(user)[0] == job && Enabled(s, BeginPoll(poll, user, deque))
    ensures var t := Step(s, BeginPoll(poll, user, deque));
      && t.log == s.log + [Handed(job, user, |s.log|)]
      && t.calls == s.calls && t.ever == s.ever && t.jobs == s.jobs && t.futures == s.futures
      && t.heap.Keys == s.heap.Keys
  {
  }

  lemma {:induction false} FewerHeld<R>(s: State<R>, t: State<R>, poll: PollId)
    requires poll in s.polls && t.polls == s.polls - {poll}
    ensures |t.Held(s.polls[poll].user)| == |s.Held(s.polls[poll].user)| - 1
  {
    assert t.Held(s.polls[poll].user) == s.Held(s.polls[poll].user) - {poll};
  }

  /** From any state in which a poll and its user's queue share the deque whose oldest job is `job`: if any other
      dispatch of the user ends now, the held poll and the user's next poll are both handed `job`. */
  lemma {:induction false} StaleDequeHandsTwice<R>(
    s: State<R>, poll: PollId, next: PollId, job: JobId, ending: JobId, first: R, second: R)
    requires poll in s.polls && next !in s.polls && |s.Held(s.polls[poll].user)| <= MAX_POLLS_PER_USER
    requires s.polls[poll].user in s.queues && s.queues[s.polls[poll].user] == s.polls[poll].queue
    requires s.polls[poll].queue in s.heap
    requires s.Queue(s.polls[poll].user) != [] && s.Queue(s.polls[poll].user)[0] == job
    requires ending != job && ending in s.calls && s.calls[ending].Waiting?
    requires ending in s.ever && s.ever[ending].owner == s.polls[poll].user
    requires first !in s.heap && second !in s.heap && first != second
    ensures var s1 := Step(s, Leave(ending, TimedOut, first));
      var s2 := Step(s1, Wake(poll));
      HandedTwice(Step(s2, BeginPoll(next, s.polls[poll].user, second)).log, job)
  {
    var user, stale := s.polls[poll].user, s.polls[poll].queue;
    var s1 := Step(s, Leave(ending, TimedOut, first));
    KeepsHead(s.Queue(user), ending);
    assert s1.queues[user] == first && s1.polls == s.polls && Items(s1.heap, stale) == s.Queue(user);
    LookHands(s1, poll, job);
    var s2 := Step(s1, Wake(poll));
    FewerHeld(s1, s2, poll);
    assert s1.Held(user) == s.Held(user);
    assert s2.Queue(user) == Without(s.Queue(user), ending);
    BeginHands(s2, next, user, second, job);
    LastTwo(s1.log, Handed(job, user, s.polls[poll].since), Handed(job, user, |s2.log|));
  }

  // ---- A push in flight while a poll is held ----------------------------------------------------------

  /** From any state in which the oldest waiting job of a user is being pushed: a poll that begins now and the
      push itself both deliver it. */
  lemma {:induction false} PushRaceHandsTwice<R>(s: State<R>, poll: PollId, job: JobId, first: R, second: R)
    requires job in s.calls && s.calls[job].Pushing? && job in s.ever
    requires s.Queue(s.ever[job].owner) != [] && s.Queue(s.ever[job].owner)[0] == job
    requires poll !in s.polls && |s.Held(s.ever[job].owner)| < MAX_POLLS_PER_USER
    requires first !in s.heap && second !in s.heap
    ensures var s1 := Step(s, BeginPoll(poll, s.ever[job].owner, first));
      HandedTwice(Step(s1, SendSucceeds(job, second)).log, job)
  {
    var user := s.ever[job].owner;
    BeginHands(s, poll, user, first, job);
    var s1 := Step(s, BeginPoll(poll, user, first));
    assert Sent(s1, job, second).log == s1.log + [Handed(job, user, |s1.log|)];
    LastTwo(s.log, Handed(job, user, |s.log|), Handed(job, user, |s1.log|));
  }

  lemma {:induction false} EnterQueues<R>(s: State<R>, job: JobId, ticket: Ticket, order: seq<Socket>, deque: R)
    requires ticket.owner in s.queues && order != [] && s.queues[ticket.owner] in s.heap
    ensures var t, r := Staged(s, job, ticket, order, deque), s.queues[ticket.owner];
      && t.queues == s.queues && t.heap == s.heap[r := s.heap[r] + [job]] && t.polls == s.polls && t.log == s.log
      && job in t.calls && t.calls[job].Pushing? && job in t.ever && t.ever[job] == ticket
  {
  }

  /** From any state in which a user holds a poll on an empty queue and has a socket attached: a dispatch wakes the
      poll and pushes to the socket, and both deliver the job. */
  lemma {:induction false} PushToHeldPollHandsTwice<R>(
    s: State<R>, poll: PollId, job: JobId, ticket: Ticket, order: seq<Socket>, first: R, second: R)
    requires poll in s.polls && s.polls[poll].user == ticket.owner && ticket.owner in s.queues
    requires s.queues[ticket.owner] == s.polls[poll].queue && s.polls[poll].queue in s.heap
    requires s.Queue(ticket.owner) == []
    requires order != [] && Enabled(s, Dispatch(job, ticket, order, first)) && second !in s.heap
    ensures var s1 := Step(s, Dispatch(job, ticket, order, first));
      HandedTwice(Step(Step(s1, Wake(poll)), SendSucceeds(job, second)).log, job)
  {
    var user, since := ticket.owner, s.polls[poll].since;
    EnterQueues(s, job, ticket, order, first);
    var s1 := Step(s, Dispatch(job, ticket, order, first));
    LookHands(s1, poll, job);
    var s2 := Step(s1, Wake(poll));
    assert Sent(s2, job, second).log == s2.log + [Handed(job, user, |s2.log|)];
    LastTwo(s1.log, Handed(job, user, since), Handed(job, user, |s2.log|));
  }

  // ---- A dispatch that leaves while a poll holds its job -------------------------------------------------

  /** From any state in which a poll and its user's queue share the deque whose oldest job is `job`: if the dispatch
      of that very job leaves now, the poll is handed the job afterwards, with nobody waiting for it. */
  lemma {:induction false} LeftJobStillHanded<R>(s: State<R>, poll: PollId, job: JobId, reason: Reason, deque: R)
    requires Enabled(s, Leave(job, reason, deque)) && poll in s.polls && s.polls[poll].user == s.ever[job].owner
    requires s.ever[job].owner in s.queues && s.queues[s.ever[job].owner] == s.polls[poll].queue
    requires s.polls[poll].queue in s.heap && s.Queue(s.ever[job].owner) != [] && s.Queue(s.ever[job].owner)[0] == job
    ensures var hold := s.polls[poll];
      Step(Step(s, Leave(job, reason, deque)), Wake(poll)).log
      == s.log + [Left(job, reason)] + [Handed(job, hold.user, hold.since)]
  {
    var s1 := Step(s, Leave(job, reason, deque));
    assert s1.polls == s.polls && Items(s1.heap, s.polls[poll].queue) == s.Queue(s.polls[poll].user);
    LookHands(s1, poll, job);
  }

  // ---- A dispatch cancelled during its push -------------------------------------------------------------

  /** The job was handed out and answered after its dispatch had been cancelled. */
  ghost predicate RanUnawaited(log: seq<Event>, job: JobId) {
    exists i, j, k :: (0 <= i < j < k < |log| && log[i] == Abandoned(job)
      && log[j].Handed? && log[j].job == job && log[k].Accepted? && log[k].job == job)
  }

  lemma {:induction false} LastThree(log: seq<Event>, job: JobId, second: Event, third: Event)
    requires second.Handed? && third.Accepted? && second.job == job == third.job
    ensures RanUnawaited(log + [Abandoned(job)] + [second] + [third], job)
  {
    var all := log + [Abandoned(job)] + [second] + [third];
    assert all[|log|] == Abandoned(job) && all[|log| + 1] == second && all[|log| + 2] == third;
  }

  /** The await of the push lies outside the `try`: a dispatch cancelled there skips its `finally`, and the
      job it leaves in the queue is handed to a later poll and answered with nobody waiting - which the
      documentation of `dispatch` rules out. */
  lemma {:induction false} CancelledPushStillRuns<R>(s: State<R>, poll: PollId, job: JobId, now: real, deque: R)
    requires job in s.calls && s.calls[job].Pushing? && job in s.jobs && job in s.ever && s.jobs[job] == s.ever[job]
    requires s.Queue(s.ever[job].owner) != [] && s.Queue(s.ever[job].owner)[0] == job
    requires poll !in s.polls && |s.Held(s.ever[job].owner)| < MAX_POLLS_PER_USER && deque !in s.heap
    requires job in s.Futures(s.ever[job].owner) && !s.Futures(s.ever[job].owner)[job] && now <= s.ever[job].deadline
    ensures var user := s.ever[job].owner;
      var s1 := Step(s, SendCancelled(job));
      var s2 := Step(s1, BeginPoll(poll, user, deque));
      var s3 := Step(s2, Submit(user, job, now));
      job !in s1.calls && RanUnawaited(s3.log, job)
  {
    var user := s.ever[job].owner;
    var s1 := Step(s, SendCancelled(job));
    assert s1.Held(user) == s.Held(user);
    BeginHands(s1, poll, user, deque, job);
    var s2 := Step(s1, BeginPoll(poll, user, deque));
    assert Accepts(s2, user, job, now);
    LastThree(s.log, job, Handed(job, user, |s.log| + 1), Accepted(job, user, now));
  }

  // ---- The states above are reachable -------------------------------------------------------------------

  lemma {:induction false} RunNext<R>(actions: seq<Action<R>>, a: Action<R>)
    ensures Run(actions + [a]) == Step(Run(actions), a)
  {
  }

  lemma {:induction false} RunThree<R>(actions: seq<Action<R>>, s: State<R>, a: Action<R>, b: Action<R>, c: Action<R>)
    requires Run(actions) == s
    ensures Run(actions + [a] + [b] + [c]) == Step(Step(Step(s, a), b), c)
  {
    RunNext(actions, a);
    RunNext(actions + [a], b);
    RunNext(actions + [a] + [b], c);
  }

  const TICKET := Ticket(7, 30.0)

  /** User 7 dispatches job 1, a poll takes it, another poll is held, and job 2 is dispatched. */
  ghost const QUEUED: State<int> := Staged(Start(), 1, TICKET, [], 0)
  ghost const TAKEN: State<int> := Begun(QUEUED, 10, 7, 1)
  ghost const HELD: State<int> := Begun(TAKEN, 11, 7, 1)
  ghost const RACING: State<int> := Staged(HELD, 2, TICKET, [], 1)

  ghost predicate Shape(s: State<int>, queue: seq<JobId>, polls: map<PollId, Hold<int>>, jobs: set<JobId>) {
    && s.heap.Keys == {0} && s.heap[0] == queue && s.queues == map[7 := 0] && s.polls == polls && s.sockets == map[]
    && (forall j :: j in s.ever <==> j in jobs)
    && (forall j :: j in jobs ==> s.ever[j] == TICKET && j in s.calls && s.calls[j].Waiting?)
  }

  lemma {:induction false} QueuedNext()
    ensures Step(Start(), Dispatch(1, TICKET, [], 0)) == QUEUED && Shape(QUEUED, [1], map[], {1})
  {
  }

  lemma {:induction false} TakenNext()
    ensures Step(QUEUED, BeginPoll(10, 7, 1)) == TAKEN && Shape(TAKEN, [], map[], {1}) && |TAKEN.log| == 1
  {
  }

  lemma {:induction false} HeldNext()
    ensures Step(TAKEN, BeginPoll(11, 7, 1)) == HELD && Shape(HELD, [], map[11 := Hold(7, 0, 1)], {1})
  {
  }

  lemma {:induction false} RacingNext()
    ensures Step(HELD, Dispatch(2, TICKET, [], 1)) == RACING && Shape(RACING, [2], map[11 := Hold(7, 0, 1)], {1, 2})
  {
    HeldNext();
    assert HELD.Sockets(7) == {};
    assert RACING.heap[0] == [2];
  }

  lemma {:induction false} RacingReached() returns (actions: seq<Action<int>>, s: State<int>)
    ensures Run(actions) == s && Shape(s, [2], map[11 := Hold(7, 0, 1)], {1, 2})
  {
    var a, b, c, d := Dispatch(1, TICKET, [], 0), BeginPoll(10, 7, 1), BeginPoll(11, 7, 1), Dispatch(2, TICKET, [], 1);
    QueuedNext();
    RunNext([], a);
    TakenNext();
    HeldNext();
    RacingNext();
    RunThree([] + [a], QUEUED, b, c, d);
    actions, s := [] + [a] + [b] + [c] + [d], RACING;
  }

  /** User 7: job 1 is dispatched and polled, a second poll is held, job 2 is dispatched; when job 1's
      dispatch ends before the held poll wakes, job 2 is handed out twice. */
  lemma {:induction false} StaleDequeTrace()
    ensures exists actions: seq<Action<int>> :: HandedTwice(Run(actions).log, 2)
  {
    var before, s := RacingReached();
    assert s.Held(7) == {11};
    StaleDequeHandsTwice(s, 11, 12, 2, 1, 1, 2);
    RunThree(before, s, Leave(1, TimedOut, 1), Wake(11), BeginPoll(12, 7, 2));
  }

  /** The job was handed out after its dispatch had left. */
  ghost predicate RanAfterwards(log: seq<Event>, job: JobId) {
    exists i, k :: 0 <= i < k < |log| && log[i].Left? && log[i].job == job && log[k].Handed? && log[k].job == job
  }

  lemma {:induction false} LeftThenHanded(log: seq<Event>, first: Event, second: Event)
    requires first.Left? && second.Handed? && first.job == second.job
    ensures RanAfterwards(log + [first] + [second], first.job)
  {
    var all := log + [first] + [second];
    assert all[|log|] == first && all[|log| + 1] == second;
  }

  /** In the same situation it is job 2's own dispatch that ends before the held poll wakes: job 2 runs with nobody
      waiting for it. */
  lemma {:induction false} LeftJobTrace()
    ensures exists actions: seq<Action<int>> :: RanAfterwards(Run(actions).log, 2)
  {
    var before, s := RacingReached();
    LeftJobStillHanded(s, 11, 2, TimedOut, 1);
    LeftThenHanded(s.log, Left(2, TimedOut), Handed(2, 7, s.polls[11].since));
    RunNext(before, Leave(2, TimedOut, 1));
    RunNext(before + [Leave(2, TimedOut, 1)], Wake(11));
  }

  /** User 7 has one socket, and job 1 is being pushed to it. */
  ghost const ATTACHED: State<int> := Start<int>().(sockets := map[][7 := {} + {5}])
  ghost const PUSHING: State<int> := Staged(ATTACHED, 1, TICKET, [5], 0)

  ghost predicate BeingPushed(s: State<int>) {
    && s.Held(7) == {} && s.Queue(7) == [1] && s.heap.Keys == {0} && s.polls == map[] && s.log == []
    && 1 in s.calls && s.calls[1].Pushing? && 1 in s.ever && s.ever[1] == TICKET
    && 1 in s.jobs && s.jobs[1] == TICKET && 1 in s.Futures(7) && !s.Futures(7)[1]
  }

  lemma {:induction false} PushingNext()
    ensures Step(Start(), Attach(7, 5)) == ATTACHED && Step(ATTACHED, Dispatch(1, TICKET, [5], 0)) == PUSHING
    ensures BeingPushed(PUSHING)
  {
    assert Start<int>().Sockets(7) == {};
    assert ATTACHED.Sockets(7) == {5};
  }

  lemma {:induction false} PushingReached() returns (actions: seq<Action<int>>, s: State<int>)
    ensures Run(actions) == s && BeingPushed(s)
  {
    PushingNext();
    RunNext<int>([], Attach(7, 5));
    RunNext<int>([] + [Attach(7, 5)], Dispatch(1, TICKET, [5], 0));
    actions, s := [] + [Attach(7, 5)] + [Dispatch(1, TICKET, [5], 0)], PUSHING;
  }

  /** User 7 with one socket: job 1 is being pushed when a poll begins, and both deliver it. */
  lemma {:induction false} PushRaceTrace()
    ensures exists actions: seq<Action<int>> :: HandedTwice(Run(actions).log, 1)
  {
    var before, s := PushingReached();
    PushRaceHandsTwice(s, 10, 1, 1, 2);
    RunNext(before, BeginPoll(10, 7, 1));
    RunNext(before + [BeginPoll(10, 7, 1)], SendSucceeds(1, 2));
  }

  /** User 7 has one socket and holds a poll. */
  ghost const POLLING: State<int> := Begun(ATTACHED, 10, 7, 0)

  ghost predicate Polling(s: State<int>) {
    && s.heap.Keys == {0} && s.heap[0] == [] && s.queues == map[7 := 0] && s.polls == map[10 := Hold(7, 0, 0)]
    && s.Sockets(7) == {5} && s.ever == map[]
  }

  lemma {:induction false} PollingReached() returns (actions: seq<Action<int>>, s: State<int>)
    ensures Run(actions) == s && Polling(s)
  {
    PushingNext();
    RunNext<int>([], Attach(7, 5));
    assert ATTACHED.Held(7) == {};
    RunNext<int>([] + [Attach(7, 5)], BeginPoll(10, 7, 0));
    actions, s := [] + [Attach(7, 5)] + [BeginPoll(10, 7, 0)], POLLING;
  }

  lemma {:induction false} PollingDispatches(s: State<int>)
    requires Polling(s)
    ensures Enabled(s, Dispatch(1, TICKET, [5], 1)) && s.Queue(7) == []
  {
  }

  /** User 7 with one socket and a held poll: job 1 is dispatched, and the poll and the push both deliver it. */
  lemma {:induction false} PushToHeldPollTrace()
    ensures exists actions: seq<Action<int>> :: HandedTwice(Run(actions).log, 1)
  {
    var before, s := PollingReached();
    PollingDispatches(s);
    PushToHeldPollHandsTwice(s, 10, 1, TICKET, [5], 1, 2);
    RunThree(before, s, Dispatch(1, TICKET, [5], 1), Wake(10), SendSucceeds(1, 2));
  }

  /** The same push cancelled instead: the job runs and is answered after its dispatch is over. */
  lemma {:induction false} CancelledPushTrace()
    ensures exists actions: seq<Action<int>> :: RanUnawaited(Run(actions).log, 1)
  {
    var before, s := PushingReached();
    CancelledPushStillRuns(s, 10, 1, 30.0, 1);
    RunThree(before, s, SendCancelled(1), BeginPoll(10, 7, 1), Submit(7, 1, 30.0));
  }
}
