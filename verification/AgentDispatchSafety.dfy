/** What every run of the dispatch protocol keeps: who may be handed a job, who may answer it, and when. */
module AgentDispatchSafety {
  import opened AgentDispatch

  // ---- The invariant, one part per group of tables -------------------------------------------------

  /** A deque serves one user only. */
  ghost predicate Wired<R>(heap: map<R, seq<JobId>>, queues: map<User, R>, polls: map<PollId, Hold<R>>) {
    && (forall u :: u in queues ==> queues[u] in heap)
    && (forall p :: p in polls ==> polls[p].queue in heap)
    && (forall u, v :: u in queues && v in queues && queues[u] == queues[v] ==> u == v)
    && (forall p, u :: p in polls && u in queues && polls[p].queue == queues[u] ==> polls[p].user == u)
    && (forall p, q :: p in polls && q in polls && polls[p].queue == polls[q].queue ==> polls[p].user == polls[q].user)
  }

  /** A job waits in a deque of its owner only; no deque that `queues` names, and none that a poll begun after
      the job's departure holds, still has it. */
  ghost predicate MayWait(user: User, since: nat, job: JobId, ever: map<JobId, Ticket>, log: seq<Event>) {
    && job in ever && ever[job].owner == user
    && forall i :: 0 <= i < |log| && i < since && log[i].Left? ==> log[i].job != job
  }

  ghost predicate Stocked<R>(heap: map<R, seq<JobId>>, queues: map<User, R>, polls: map<PollId, Hold<R>>,
                             ever: map<JobId, Ticket>, log: seq<Event>) {
    && (forall u, j :: u in queues && j in Items(heap, queues[u]) ==> MayWait(u, |log|, j, ever, log))
    && (forall p, j :: p in polls && j in Items(heap, polls[p].queue) ==>
          MayWait(polls[p].user, polls[p].since, j, ever, log))
    && (forall p :: p in polls ==> polls[p].since <= |log|)
  }

  ghost predicate WasAccepted(log: seq<Event>, job: JobId) {
    exists i :: 0 <= i < |log| && log[i].Accepted? && log[i].job == job
  }

  ghost predicate HasLeft(log: seq<Event>, job: JobId) {
    exists i :: 0 <= i < |log| && log[i].Left? && log[i].job == job
  }

  /** The tables of jobs agree with what has happened. */
  ghost predicate Filed(jobs: map<JobId, Ticket>, calls: map<JobId, Phase>, futures: map<User, map<JobId, bool>>,
                        ever: map<JobId, Ticket>, log: seq<Event>) {
    && (forall j :: j in jobs ==> j in ever && jobs[j] == ever[j])
    && (forall j :: j in ever ==> (j in jobs <==> !HasLeft(log, j)))
    && (forall j :: j in calls <==> j in jobs && Abandoned(j) !in log)
    && (forall u, j :: u in futures && j in futures[u] ==>
          j in jobs && ever[j].owner == u && (futures[u][j] <==> WasAccepted(log, j)))
    && (forall i :: 0 <= i < |log| ==> log[i].job in ever)
  }

  /** What may happen next, given all that has. */
  ghost predicate Follows(log: seq<Event>, e: Event, ever: map<JobId, Ticket>) {
    match e
    case Handed(job, user, since) =>
      since <= |log| && MayWait(user, since, job, ever, log)
    case Accepted(job, user, now) =>
      && job in ever && ever[job].owner == user && now <= ever[job].deadline
      && !WasAccepted(log, job) && !HasLeft(log, job)
    case Left(job, reason) => !HasLeft(log, job) && (reason.Answered? ==> WasAccepted(log, job))
    case Abandoned(_) => true
  }

  ghost predicate Orderly(log: seq<Event>, ever: map<JobId, Ticket>) {
    forall i :: 0 <= i < |log| ==> Follows(log[..i], log[i], ever)
  }

  ghost predicate Good<R>(s: State<R>) {
    && Wired(s.heap, s.queues, s.polls) && Stocked(s.heap, s.queues, s.polls, s.ever, s.log)
    && Filed(s.jobs, s.calls, s.futures, s.ever, s.log) && Orderly(s.log, s.ever)
  }

  lemma {:induction false} QueuedMayWait<R>(s: State<R>, user: User, job: JobId)
    requires Good(s)
    ensures job in s.Queue(user) ==> MayWait(user, |s.log|, job, s.ever, s.log)
  {
  }

  // ---- Lemmas about logs -----------------------------------------------------------------------------

  lemma {:induction false} OrderlyNote(log: seq<Event>, e: Event, ever: map<JobId, Ticket>)
    requires Orderly(log, ever) && Follows(log, e, ever)
    ensures Orderly(log + [e], ever)
  {
    var more := log + [e];
    forall i | 0 <= i < |more| ensures Follows(more[..i], more[i], ever) {
      assert more[..i] == log[..i];
    }
    assert log[..|log|] == log;
  }

  lemma {:induction false} OrderlyGrows(log: seq<Event>, ever: map<JobId, Ticket>, job: JobId, ticket: Ticket)
    requires Orderly(log, ever) && job !in ever
    ensures Orderly(log, ever[job := ticket])
  {
  }

  lemma {:induction false} NotedKinds(log: seq<Event>, e: Event, job: JobId)
    ensures WasAccepted(log + [e], job) <==> WasAccepted(log, job) || (e.Accepted? && e.job == job)
    ensures HasLeft(log + [e], job) <==> HasLeft(log, job) || (e.Left? && e.job == job)
  {
    var more := log + [e];
    if WasAccepted(log, job) {
      var i :| 0 <= i < |log| && log[i].Accepted? && log[i].job == job;
      assert more[i] == log[i];
    }
    if HasLeft(log, job) {
      var i :| 0 <= i < |log| && log[i].Left? && log[i].job == job;
      assert more[i] == log[i];
    }
    assert more[|log|] == e;
  }

  // ---- Every step keeps the invariant ----------------------------------------------------------------

  /** A user gets a new deque object: nobody holds it yet, and what it holds may wait. */
  lemma {:induction false} NewDeque<R>(s: State<R>, user: User, deque: R, items: seq<JobId>)
    requires Wired(s.heap, s.queues, s.polls) && Stocked(s.heap, s.queues, s.polls, s.ever, s.log) && deque !in s.heap
    requires forall j :: j in items ==> MayWait(user, |s.log|, j, s.ever, s.log)
    ensures Wired(s.heap[deque := items], s.queues[user := deque], s.polls)
    ensures Stocked(s.heap[deque := items], s.queues[user := deque], s.polls, s.ever, s.log)
  {
  }

  lemma {:induction false} WithQueueGood<R>(s: State<R>, user: User, deque: R)
    requires Good(s) && deque !in s.heap
    ensures Good(WithQueue(s, user, deque))
  {
    if user !in s.queues { NewDeque(s, user, deque, []); }
  }

  lemma {:induction false} DropJobGood<R>(s: State<R>, user: User, job: JobId, deque: R)
    requires Good(s) && deque !in s.heap
    ensures Good(DropJob(s, user, job, deque))
  {
  }

  lemma {:induction false} FiledStaged(
    jobs: map<JobId, Ticket>, calls: map<JobId, Phase>, futures: map<User, map<JobId, bool>>,
    ever: map<JobId, Ticket>, log: seq<Event>,
    job: JobId, ticket: Ticket, phase: Phase, mine: map<JobId, bool>)
    requires Filed(jobs, calls, futures, ever, log) && job !in ever
    requires mine == if ticket.owner in futures then futures[ticket.owner] else map[]
    ensures Filed(jobs[job := ticket], calls[job := phase], futures[ticket.owner := mine[job := false]],
                  ever[job := ticket], log)
  {
  }

  lemma {:induction false} StockedStaged<R>(heap: map<R, seq<JobId>>, queues: map<User, R>, polls: map<PollId, Hold<R>>,
                                            ever: map<JobId, Ticket>, log: seq<Event>, job: JobId, ticket: Ticket)
    requires Wired(heap, queues, polls) && Stocked(heap, queues, polls, ever, log) && ticket.owner in queues
    requires job !in ever
    requires forall i :: 0 <= i < |log| ==> log[i].job in ever
    ensures var r := queues[ticket.owner];
      Stocked(heap[r := Items(heap, r) + [job]], queues, polls, ever[job := ticket], log)
  {
    var r, more := queues[ticket.owner], ever[job := ticket];
    var grown := heap[r := Items(heap, r) + [job]];
    forall since ensures MayWait(ticket.owner, since, job, more, log) { }
    forall u, since, j | MayWait(u, since, j, ever, log) ensures MayWait(u, since, j, more, log) { }
    forall u, j | u in queues && j in Items(grown, queues[u]) ensures MayWait(u, |log|, j, more, log) {
      if queues[u] != r { assert j in Items(heap, queues[u]); }
      else if j != job { assert j in Items(heap, r); }
    }
    forall p, j | p in polls && j in Items(grown, polls[p].queue)
      ensures MayWait(polls[p].user, polls[p].since, j, more, log) {
      if polls[p].queue != r { assert j in Items(heap, polls[p].queue); }
      else if j != job { assert j in Items(heap, r); }
    }
  }

  lemma {:induction false} EnterGood<R>(q: State<R>, job: JobId, ticket: Ticket, order: seq<Socket>)
    requires Good(q) && job !in q.ever && ticket.owner in q.queues
    ensures Good(Enter(q, job, ticket, order))
  {
    OrderlyGrows(q.log, q.ever, job, ticket);
    FiledStaged(q.jobs, q.calls, q.futures, q.ever, q.log, job, ticket,
                if order == [] then Waiting else Pushing(order), q.Futures(ticket.owner));
    StockedStaged(q.heap, q.queues, q.polls, q.ever, q.log, job, ticket);
  }

  lemma {:induction false} StagedGood<R>(s: State<R>, job: JobId, ticket: Ticket, order: seq<Socket>, deque: R)
    requires Good(s) && deque !in s.heap && job !in s.ever
    ensures Good(Staged(s, job, ticket, order, deque))
  {
    WithQueueGood(s, ticket.owner, deque);
    EnterGood(WithQueue(s, ticket.owner, deque), job, ticket, order);
  }

  lemma {:induction false} FiledNoted(
    jobs: map<JobId, Ticket>, calls: map<JobId, Phase>, futures: map<User, map<JobId, bool>>,
    ever: map<JobId, Ticket>, log: seq<Event>, e: Event)
    requires Filed(jobs, calls, futures, ever, log) && e.Handed? && e.job in ever
    ensures Filed(jobs, calls, futures, ever, log + [e])
  {
    forall j ensures WasAccepted(log + [e], j) <==> WasAccepted(log, j)
             ensures HasLeft(log + [e], j) <==> HasLeft(log, j) {
      NotedKinds(log, e, j);
    }
  }

  lemma {:induction false} FiledAccepted(
    jobs: map<JobId, Ticket>, calls: map<JobId, Phase>, futures: map<User, map<JobId, bool>>,
    ever: map<JobId, Ticket>, log: seq<Event>, e: Event)
    requires Filed(jobs, calls, futures, ever, log) && e.Accepted? && e.user in futures && e.job in futures[e.user]
    ensures Filed(jobs, calls, futures[e.user := futures[e.user][e.job := true]], ever, log + [e])
  {
    forall j ensures WasAccepted(log + [e], j) <==> WasAccepted(log, j) || e.job == j
             ensures HasLeft(log + [e], j) <==> HasLeft(log, j) {
      NotedKinds(log, e, j);
    }
  }

  lemma {:induction false} FiledLeft(
    jobs: map<JobId, Ticket>, calls: map<JobId, Phase>, futures: map<User, map<JobId, bool>>,
    ever: map<JobId, Ticket>, log: seq<Event>, e: Event, left: map<User, map<JobId, bool>>)
    requires Filed(jobs, calls, futures, ever, log) && e.Left? && e.job in ever
    requires var u := ever[e.job].owner; left == if u in futures then futures[u := futures[u] - {e.job}] else futures
    ensures Filed(jobs - {e.job}, calls - {e.job}, left, ever, log + [e])
  {
    forall j ensures WasAccepted(log + [e], j) <==> WasAccepted(log, j)
             ensures HasLeft(log + [e], j) <==> HasLeft(log, j) || e.job == j {
      NotedKinds(log, e, j);
    }
  }

  lemma {:induction false} FiledAbandoned(
    jobs: map<JobId, Ticket>, calls: map<JobId, Phase>, futures: map<User, map<JobId, bool>>,
    ever: map<JobId, Ticket>, log: seq<Event>, job: JobId)
    requires Filed(jobs, calls, futures, ever, log) && job in calls
    ensures Filed(jobs, calls - {job}, futures, ever, log + [Abandoned(job)])
  {
    forall j ensures WasAccepted(log + [Abandoned(job)], j) <==> WasAccepted(log, j)
             ensures HasLeft(log + [Abandoned(job)], j) <==> HasLeft(log, j) {
      NotedKinds(log, Abandoned(job), j);
    }
  }

  /** An event other than a departure leaves every deque as allowed as it was. */
  lemma {:induction false} StockedNoted<R>(heap: map<R, seq<JobId>>, queues: map<User, R>, polls: map<PollId, Hold<R>>,
                                           ever: map<JobId, Ticket>, log: seq<Event>, e: Event)
    requires Stocked(heap, queues, polls, ever, log) && !e.Left?
    ensures Stocked(heap, queues, polls, ever, log + [e])
  {
  }

  lemma {:induction false} StockedPopped<R>(heap: map<R, seq<JobId>>, queues: map<User, R>, polls: map<PollId, Hold<R>>,
                                            ever: map<JobId, Ticket>, log: seq<Event>, poll: PollId)
    requires Stocked(heap, queues, polls, ever, log) && poll in polls && Items(heap, polls[poll].queue) != []
    ensures var r := polls[poll].queue;
      Stocked(heap[r := Items(heap, r)[1..]], queues, polls - {poll}, ever, log)
  {
  }

  lemma {:induction false} LookGood<R>(s: State<R>, poll: PollId, stay: bool)
    requires Good(s) && poll in s.polls
    ensures Good(Look(s, poll, stay))
  {
    var hold := s.polls[poll];
    var items := Items(s.heap, hold.queue);
    if items != [] {
      var e := Handed(items[0], hold.user, hold.since);
      assert items[0] in items;
      StockedPopped(s.heap, s.queues, s.polls, s.ever, s.log, poll);
      StockedNoted(s.heap[hold.queue := items[1..]], s.queues, s.polls - {poll}, s.ever, s.log, e);
      OrderlyNote(s.log, e, s.ever);
      FiledNoted(s.jobs, s.calls, s.futures, s.ever, s.log, e);
    }
  }

  /** A poll begins on its user's current deque. */
  lemma {:induction false} HoldGood<R>(s: State<R>, poll: PollId, user: User)
    requires Good(s) && user in s.queues && poll !in s.polls
    ensures Good(WithHold(s, poll, user))
  {
  }

  lemma {:induction false} LookAtHeldGood<R>(q: State<R>, poll: PollId, user: User)
    requires Good(q) && user in q.queues && poll !in q.polls
    ensures Good(Look(WithHold(q, poll, user), poll, true))
  {
    HoldGood(q, poll, user);
    LookGood(WithHold(q, poll, user), poll, true);
  }

  lemma {:induction false} BegunGood<R>(s: State<R>, poll: PollId, user: User, deque: R)
    requires Good(s) && deque !in s.heap && poll !in s.polls
    ensures Good(Begun(s, poll, user, deque))
  {
    WithQueueGood(s, user, deque);
    LookAtHeldGood(WithQueue(s, user, deque), poll, user);
  }

  lemma {:induction false} DeliveredGood<R>(s: State<R>, job: JobId)
    requires Good(s) && job in s.calls && job in s.ever
    ensures Good(Delivered(s, job, s.ever[job].owner))
  {
    var e := Handed(job, s.ever[job].owner, |s.log|);
    assert MayWait(e.user, |s.log|, job, s.ever, s.log);
    StockedNoted(s.heap, s.queues, s.polls, s.ever, s.log, e);
    OrderlyNote(s.log, e, s.ever);
    FiledNoted(s.jobs, s.calls[job := Waiting], s.futures, s.ever, s.log, e);
  }

  lemma {:induction false} SentGood<R>(s: State<R>, job: JobId, deque: R)
    requires Good(s) && job in s.calls && job in s.ever && deque !in s.heap
    ensures Good(Sent(s, job, deque))
  {
    DeliveredGood(s, job);
    DropJobGood(Delivered(s, job, s.ever[job].owner), s.ever[job].owner, job, deque);
  }

  /** A dispatch that leaves through its `finally` has taken the job out of the one deque that could still
      hand it to a later poll. */
  lemma {:induction false} StockedLeft<R>(heap: map<R, seq<JobId>>, queues: map<User, R>, polls: map<PollId, Hold<R>>,
                                          ever: map<JobId, Ticket>, log: seq<Event>, e: Event)
    requires Stocked(heap, queues, polls, ever, log) && e.Left?
    requires forall u :: u in queues ==> e.job !in Items(heap, queues[u])
    ensures Stocked(heap, queues, polls, ever, log + [e])
  {
  }

  lemma {:induction false} ClosedGood<R>(d: State<R>, job: JobId, reason: Reason)
    requires Good(d) && job in d.calls && job in d.ever && job !in d.Queue(d.ever[job].owner)
    requires reason.Answered? ==> job in d.Futures(d.ever[job].owner) && d.Futures(d.ever[job].owner)[job]
    ensures Good(Closed(d, job, d.ever[job].owner, reason))
  {
    var user, e := d.ever[job].owner, Left(job, reason);
    forall u | u in d.queues ensures job !in Items(d.heap, d.queues[u]) { QueuedMayWait(d, u, job); }
    StockedLeft(d.heap, d.queues, d.polls, d.ever, d.log, e);
    OrderlyNote(d.log, e, d.ever);
    FiledLeft(d.jobs, d.calls, d.futures, d.ever, d.log, e, Closed(d, job, user, reason).futures);
  }

  lemma {:induction false} FinishedGood<R>(s: State<R>, job: JobId, reason: Reason, deque: R)
    requires Good(s) && Enabled(s, Leave(job, reason, deque))
    ensures Good(Finished(s, job, reason, deque))
  {
    DropJobGood(s, s.ever[job].owner, job, deque);
    ClosedGood(DropJob(s, s.ever[job].owner, job, deque), job, reason);
  }

  lemma {:induction false} SubmittedGood<R>(s: State<R>, user: User, job: JobId, now: real)
    requires Good(s)
    ensures Good(Submitted(s, user, job, now))
  {
    if Accepts(s, user, job, now) {
      var e := Accepted(job, user, now);
      StockedNoted(s.heap, s.queues, s.polls, s.ever, s.log, e);
      OrderlyNote(s.log, e, s.ever);
      FiledAccepted(s.jobs, s.calls, s.futures, s.ever, s.log, e);
    }
  }

  lemma {:induction false} CancelledGood<R>(s: State<R>, job: JobId)
    requires Good(s) && job in s.calls
    ensures Good(Note(s.(calls := s.calls - {job}), Abandoned(job)))
  {
    StockedNoted(s.heap, s.queues, s.polls, s.ever, s.log, Abandoned(job));
    OrderlyNote(s.log, Abandoned(job), s.ever);
    FiledAbandoned(s.jobs, s.calls, s.futures, s.ever, s.log, job);
  }

  lemma {:induction false} AbortGood<R>(s: State<R>, poll: PollId)
    requires Good(s)
    ensures Good(s.(polls := s.polls - {poll}))
  {
  }

  lemma {:induction false} ForgetGood<R>(s: State<R>, user: User, rest: map<User, set<Socket>>)
    requires Good(s)
    ensures Good(s.(queues := s.queues - {user}, sockets := rest))
  {
  }

  lemma {:induction false} SocketsGood<R>(s: State<R>, sockets: map<User, set<Socket>>)
    requires Good(s)
    ensures Good(s.(sockets := sockets))
  {
  }

  lemma {:induction false} FailedGood<R>(s: State<R>, job: JobId, phase: Phase, sockets: map<User, set<Socket>>)
    requires Good(s) && job in s.calls
    ensures Good(s.(calls := s.calls[job := phase], sockets := sockets))
  {
  }

  lemma {:induction false} NextGood<R>(s: State<R>, a: Action<R>)
    requires Good(s) && Enabled(s, a)
    ensures Good(Next(s, a))
  {
    match a
    case Dispatch(job, ticket, order, deque) => StagedGood(s, job, ticket, order, deque);
    case SendSucceeds(job, deque) => SentGood(s, job, deque);
    case SendFails(job) => FailedGood(s, job, Failed(s, job).calls[job], Failed(s, job).sockets);
    case SendCancelled(job) => CancelledGood(s, job);
    case Leave(job, reason, deque) => FinishedGood(s, job, reason, deque);
    case BeginPoll(poll, user, deque) => BegunGood(s, poll, user, deque);
    case Wake(poll) => LookGood(s, poll, true);
    case TimeOut(poll) => LookGood(s, poll, false);
    case AbortPoll(poll) => AbortGood(s, poll);
    case Submit(user, job, now) => SubmittedGood(s, user, job, now);
    case Attach(_, _) => SocketsGood(s, Next(s, a).sockets);
    case Detach(_, _) => SocketsGood(s, Next(s, a).sockets);
    case Forget(user) => ForgetGood(s, user, s.sockets - {user});
  }

  /** Every reachable state is good. */
  lemma {:induction false} RunIsGood<R>(actions: seq<Action<R>>)
    ensures Good(Run(actions))
  {
    if actions != [] {
      var n := |actions| - 1;
      RunIsGood(actions[..n]);
      if Enabled(Run(actions[..n]), actions[n]) { NextGood(Run(actions[..n]), actions[n]); }
    }
  }

  /** States that follow each other by steps, from the empty registry on, are those of a run. */
  lemma {:induction false} StepsAreRun<R>(states: seq<State<R>>, actions: seq<Action<R>>)
    requires |states| == |actions| + 1 && states[0] == Start()
    requires forall k :: 0 <= k < |actions| ==> IsStep(states[k], actions[k], states[k + 1])
    ensures states[|actions|] == Run(actions)
  {
    if actions != [] {
      var n := |actions| - 1;
      StepsAreRun(states[..n + 1], actions[..n]);
      assert IsStep(states[n], actions[n], states[n + 1]);
    }
  }

  // ---- What that promises ----------------------------------------------------------------------------

  ghost predicate WasDispatched<R>(actions: seq<Action<R>>, job: JobId, ticket: Ticket) {
    exists k :: 0 <= k < |actions| && actions[k].Dispatch? && actions[k].job == job && actions[k].ticket == ticket
  }

  lemma {:induction false} LookEver<R>(s: State<R>, poll: PollId, stay: bool)
    requires poll in s.polls
    ensures Look(s, poll, stay).ever == s.ever
  {
  }

  lemma {:induction false} BegunEver<R>(s: State<R>, poll: PollId, user: User, deque: R)
    ensures Begun(s, poll, user, deque).ever == s.ever
  {
  }

  lemma {:induction false} DropEver<R>(s: State<R>, job: JobId, reason: Reason, deque: R)
    requires job in s.ever
    ensures Sent(s, job, deque).ever == s.ever == Finished(s, job, reason, deque).ever
  {
  }

  lemma {:induction false} EverGrows<R>(s: State<R>, a: Action<R>)
    requires Enabled(s, a)
    ensures Next(s, a).ever == if a.Dispatch? then s.ever[a.job := a.ticket] else s.ever
  {
    match a
    case SendSucceeds(job, deque) => DropEver(s, job, TimedOut, deque);
    case Leave(job, reason, deque) => DropEver(s, job, reason, deque);
    case BeginPoll(poll, user, deque) => BegunEver(s, poll, user, deque);
    case Wake(poll) => LookEver(s, poll, true);
    case TimeOut(poll) => LookEver(s, poll, false);
    case _ =>
  }

  /** `ever` holds only what was dispatched. */
  lemma {:induction false} EverWasDispatched<R>(actions: seq<Action<R>>, job: JobId)
    requires job in Run(actions).ever
    ensures WasDispatched(actions, job, Run(actions).ever[job])
  {
    var n := |actions| - 1;
    var s, a := Run(actions[..n]), actions[n];
    if Enabled(s, a) { EverGrows(s, a); }
    if !(Enabled(s, a) && a.Dispatch? && a.job == job) {
      EverWasDispatched(actions[..n], job);
      var k :| 0 <= k < n && actions[..n][k].Dispatch? && actions[..n][k].job == job
        && actions[..n][k].ticket == s.ever[job];
      assert actions[k] == actions[..n][k];
    }
  }

  /** A result is accepted at most once per job, from the job's owner only, not past its deadline, and before
      the dispatch leaves; a dispatch answers only with an accepted result. */
  lemma {:induction false} ResultsAreSafe<R>(actions: seq<Action<R>>, i: nat)
    requires i < |Run(actions).log|
    ensures var s := Run(actions);
      match s.log[i]
      case Accepted(job, user, now) =>
        && job in s.ever && s.ever[job].owner == user && now <= s.ever[job].deadline
        && forall k :: 0 <= k < i ==> s.log[k].job == job ==> !s.log[k].Accepted? && !s.log[k].Left?
      case Left(job, reason) =>
        && (reason.Answered? ==> WasAccepted(s.log[..i], job))
        && forall k :: 0 <= k < i ==> s.log[k].job == job ==> !s.log[k].Left?
      case _ => true
  {
    RunIsGood(actions);
    var s := Run(actions);
    assert Follows(s.log[..i], s.log[i], s.ever);
    forall k | 0 <= k < i && s.log[k].job == s.log[i].job
      ensures s.log[i].Accepted? ==> !s.log[k].Accepted? && !s.log[k].Left?
      ensures s.log[i].Left? ==> !s.log[k].Left? {
      assert s.log[..i][k] == s.log[k];
    }
  }

  /** A job is handed only to the user it was dispatched for, and never to a poll that began after the
      dispatch left through its `finally`. */
  lemma {:induction false} HandOutsAreSafe<R>(actions: seq<Action<R>>, i: nat)
    requires i < |Run(actions).log| && Run(actions).log[i].Handed?
    ensures var s := Run(actions);
      var e := s.log[i];
      && e.job in s.ever && s.ever[e.job].owner == e.user
      && forall k :: 0 <= k < i && s.log[k].Left? && s.log[k].job == e.job ==> e.since <= k
  {
    RunIsGood(actions);
    var s := Run(actions);
    assert Follows(s.log[..i], s.log[i], s.ever);
    forall k | 0 <= k < i && s.log[k].Left? && s.log[k].job == s.log[i].job ensures s.log[i].since <= k {
      assert s.log[..i][k] == s.log[k];
    }
  }

  /** The tables of jobs in every reachable state: a dispatched job is in `_jobs` until its dispatch leaves
      through the `finally` and no longer; a job whose dispatch is over but which is still in `_jobs` is one
      whose dispatch was cancelled during the push; and a job that has left is in no queue. */
  lemma {:induction false} TablesAreCleared<R>(actions: seq<Action<R>>, job: JobId)
    requires job in Run(actions).ever
    ensures var s := Run(actions);
      && (job in s.jobs <==> !HasLeft(s.log, job))
      && (job in s.calls <==> job in s.jobs && Abandoned(job) !in s.log)
      && (HasLeft(s.log, job) ==> forall u :: job !in s.Queue(u) && job !in s.Futures(u))
  {
    RunIsGood(actions);
    var s := Run(actions);
    if HasLeft(s.log, job) {
      forall u ensures job !in s.Queue(u) && job !in s.Futures(u) {
        QueuedMayWait(s, u, job);
      }
    }
  }
}
