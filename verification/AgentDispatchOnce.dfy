/** When a job is handed out at most once, exactly. Everything is said for one job. */
module AgentDispatchOnce {
  import opened AgentDispatch
  import opened AgentDispatchSafety
  import opened AgentDispatchLines
  import opened AgentDispatchOver

  /** No poll that holds the deque which the end of the call of `other` takes from its user is about to be handed
      `job`. */
  ghost predicate DropsCalmly<R>(s: State<R>, other: JobId, job: JobId) {
    other != job && other in s.ever && s.ever[other].owner in s.queues ==>
      job !in Ahead(s, s.queues[s.ever[other].owner])
  }

  /** One more poll does not bring a job that is being pushed into the reach of the polls. */
  ghost predicate OutOfReach<R>(s: State<R>, user: User, job: JobId) {
    Pushed(s, job) && user in s.queues ==> job !in First(s.Queue(user), |Holders(s.polls, s.queues[user])| + 1)
  }

  /** A step that does not give the job a second way out: a push of it starts behind as many jobs as polls are held;
      a queue is rebound while no held poll is about to be handed it; and while it is being pushed no poll begins
      that brings it into the reach of the polls. */
  ghost predicate CalmFor<R>(s: State<R>, a: Action<R>, job: JobId) {
    match a
    case Dispatch(other, ticket, order, _) => other == job && order != [] && ticket.owner in s.queues ==>
      |Holders(s.polls, s.queues[ticket.owner])| <= |s.Queue(ticket.owner)|
    case SendSucceeds(other, _) => DropsCalmly(s, other, job)
    case Leave(other, _, _) => DropsCalmly(s, other, job)
    case BeginPoll(_, user, _) => OutOfReach(s, user, job)
    case _ => true
  }

  ghost predicate CalmRunFor<R>(actions: seq<Action<R>>, job: JobId) {
    forall k :: 0 <= k < |actions| && Enabled(Run(actions[..k]), actions[k]) ==>
      CalmFor(Run(actions[..k]), actions[k], job)
  }

  ghost predicate Single(queue: seq<JobId>, job: JobId) {
    forall i, k :: 0 <= i < k < |queue| && queue[i] == job ==> queue[k] != job
  }

  /** The job stands in one line at most, and there once. */
  ghost predicate Lined<R>(s: State<R>, job: JobId) {
    && (forall r :: r in s.heap ==> Single(Line(s, r), job))
    && (forall r, q :: r in s.heap && q in s.heap && job in Line(s, r) && job in Line(s, q) ==> r == q)
  }

  /** There is one way out at most: a job being pushed is out of the reach of the polls, and one that has been handed
      out cannot be again. */
  ghost predicate OnceFor<R>(s: State<R>, job: JobId) {
    && Lined(s, job) && (Pushed(s, job) ==> !HeldAhead(s, job))
    && (HandOuts(s.log, job) > 0 ==> !MayBeHanded(s, job)) && HandOuts(s.log, job) <= 1
  }

  // ---- Steps that open no way --------------------------------------------------------------------------

  /** Part of a line. */
  ghost predicate Within(part: seq<JobId>, line: seq<JobId>, job: JobId) {
    (job in part ==> job in line) && (Single(line, job) ==> Single(part, job))
  }

  ghost predicate NoMore<R>(s: State<R>, t: State<R>, job: JobId) {
    && (forall r :: r in t.heap ==> Within(Line(t, r), Line(s, r), job))
    && (forall r :: r in t.heap && job in Ahead(t, r) ==> job in Ahead(s, r))
    && (Pushed(t, job) ==> Pushed(s, job)) && HandOuts(t.log, job) == HandOuts(s.log, job)
  }

  lemma {:induction false} LinedUp<R>(s: State<R>, r: R, job: JobId)
    ensures job in Line(s, r) || job in Ahead(s, r) ==> r in s.heap
  {
  }

  lemma {:induction false} NoMoreOnce<R>(s: State<R>, t: State<R>, job: JobId)
    requires OnceFor(s, job) && NoMore(s, t, job)
    ensures OnceFor(t, job)
  {
    forall r ensures job in Line(s, r) || job in Ahead(s, r) ==> r in s.heap { LinedUp(s, r, job); }
  }

  lemma {:induction false} SameOnce<R>(s: State<R>, t: State<R>, job: JobId)
    requires OnceFor(s, job) && t.heap == s.heap && t.queues == s.queues && t.polls == s.polls
    requires (Pushed(t, job) ==> Pushed(s, job)) && HandOuts(t.log, job) == HandOuts(s.log, job)
    ensures OnceFor(t, job)
  {
    SameLines(s, t);
    NoMoreOnce(s, t, job);
  }

  lemma {:induction false} UnknownOnce<R>(s: State<R>, job: JobId)
    requires Good(s) && job !in s.ever
    ensures OnceFor(s, job) && !MayBeHanded(s, job) && HandOuts(s.log, job) == 0
  {
    NeverNoted(s.log, job);
    forall r ensures job !in Line(s, r) {
      if job in Line(s, r) {
        if Current(s.queues, r) { CurrentQueue(s, r, job); } else { AheadIsHeld(s, job); }
      }
    }
  }

  lemma {:induction false} NeverNoted(log: seq<Event>, job: JobId)
    requires forall i :: 0 <= i < |log| ==> log[i].job != job
    ensures HandOuts(log, job) == 0
  {
    if log != [] { NeverNoted(log[..|log| - 1], job); }
  }

  lemma {:induction false} WithQueueOnce<R>(s: State<R>, user: User, deque: R, job: JobId)
    requires Wired(s.heap, s.queues, s.polls) && OnceFor(s, job) && deque !in s.heap
    ensures OnceFor(WithQueue(s, user, deque), job)
  {
    var t := WithQueue(s, user, deque);
    assert t.calls == s.calls && t.log == s.log;
    WithQueueLines(s, user, deque);
    NoMoreOnce(s, t, job);
  }

  // ---- Polls -------------------------------------------------------------------------------------------

  lemma {:induction false} TailWithin(line: seq<JobId>, job: JobId)
    requires line != []
    ensures Within(line[1..], line, job)
    ensures Single(line, job) && line[0] == job ==> job !in line[1..]
  {
    assert forall i :: 0 <= i < |line| - 1 ==> line[1..][i] == line[i + 1];
  }

  lemma {:induction false} PrefixWithin(part: seq<JobId>, line: seq<JobId>, job: JobId)
    requires part <= line
    ensures Within(part, line, job)
  {
    assert forall i :: 0 <= i < |part| ==> part[i] == line[i];
  }

  lemma {:induction false} PoppedOnce<R>(s: State<R>, poll: PollId, t: State<R>, job: JobId)
    requires poll in s.polls && s.polls[poll].queue in s.heap && OnceFor(s, job)
    requires Items(s.heap, s.polls[poll].queue) != [] && t == Look(s, poll, true)
    ensures OnceFor(t, job)
  {
    var r, head := s.polls[poll].queue, Items(s.heap, s.polls[poll].queue)[0];
    LookTakes(s, poll, true);
    PoppedLines(s, poll);
    TailWithin(Line(s, r), job);
    HandOutsNote(s.log, Handed(head, s.polls[poll].user, s.polls[poll].since), job);
    if head == job {
      HeadIsOut(s, r, t, job);
    } else {
      NoMoreOnce(s, t, job);
    }
  }

  lemma {:induction false} HeadIsOut<R>(s: State<R>, r: R, t: State<R>, job: JobId)
    requires OnceFor(s, job) && r in s.heap && Ahead(s, r) != [] && Ahead(s, r)[0] == job
    requires Line(s, r) != [] && Line(s, r)[0] == job && Line(t, r) == Line(s, r)[1..] && OthersSame(s, t, r)
    requires t.heap.Keys == s.heap.Keys && t.calls == s.calls && HandOuts(t.log, job) == HandOuts(s.log, job) + 1
    ensures OnceFor(t, job)
  {
    TailWithin(Line(s, r), job);
    assert job in Line(s, r) && job in Ahead(s, r);
    forall q | q in t.heap ensures job !in Line(t, q) {
      if q != r { assert Line(t, q) == Line(s, q); }
    }
  }

  lemma {:induction false} AbortOnce<R>(s: State<R>, poll: PollId, job: JobId)
    requires poll in s.polls && OnceFor(s, job)
    ensures OnceFor(s.(polls := s.polls - {poll}), job)
  {
    var t, r := s.(polls := s.polls - {poll}), s.polls[poll].queue;
    DroppedPollLines(s, poll);
    PrefixWithin(Line(t, r), Line(s, r), job);
    PrefixWithin(Ahead(t, r), Ahead(s, r), job);
    NoMoreOnce(s, t, job);
  }

  lemma {:induction false} LookOnce<R>(s: State<R>, poll: PollId, stay: bool, job: JobId)
    requires poll in s.polls && s.polls[poll].queue in s.heap && OnceFor(s, job)
    ensures OnceFor(Look(s, poll, stay), job)
  {
    if Items(s.heap, s.polls[poll].queue) == [] {
      LookWaits(s, poll, stay);
      if !stay { AbortOnce(s, poll, job); }
    } else {
      PoppedOnce(s, poll, Look(s, poll, true), job);
    }
  }

  lemma {:induction false} HoldOnce<R>(q: State<R>, poll: PollId, user: User, job: JobId)
    requires user in q.queues && poll !in q.polls && q.queues[user] in q.heap && OnceFor(q, job)
    requires Pushed(q, job) ==> job !in First(q.Queue(user), |Holders(q.polls, q.queues[user])| + 1)
    ensures OnceFor(WithHold(q, poll, user), job)
  {
    HoldLines(q, poll, user);
    var t := WithHold(q, poll, user);
    assert t.calls == q.calls && t.log == q.log && t.heap == q.heap;
    forall r | r in t.heap ensures Line(t, r) == Line(q, r) { }
  }

  /** Where the poll brings the job that is being pushed into reach, it is handed out or stays in reach. */
  lemma {:induction false} HoldTwice<R>(q: State<R>, poll: PollId, user: User, job: JobId)
    requires user in q.queues && poll !in q.polls && q.queues[user] in q.heap && Pushed(q, job)
    requires job in First(q.Queue(user), |Holders(q.polls, q.queues[user])| + 1)
    ensures !OnceFor(Look(WithHold(q, poll, user), poll, true), job)
  {
    var h, r := WithHold(q, poll, user), q.queues[user];
    HoldLines(q, poll, user);
    LookTakes(h, poll, true);
    PoppedLines(h, poll);
    HandOutsNote(h.log, Handed(Items(h.heap, r)[0], user, |q.log|), job);
    assert job == Ahead(h, r)[0] || job in Ahead(h, r)[1..];
  }

  lemma {:induction false} HeldOnceExactly<R>(q: State<R>, poll: PollId, user: User, t: State<R>, job: JobId)
    requires user in q.queues && poll !in q.polls && q.queues[user] in q.heap && OnceFor(q, job)
    requires t == Look(WithHold(q, poll, user), poll, true)
    ensures OnceFor(t, job) <==> OutOfReach(q, user, job)
  {
    if OutOfReach(q, user, job) {
      HoldOnce(q, poll, user, job);
      LookOnce(WithHold(q, poll, user), poll, true, job);
    } else {
      HoldTwice(q, poll, user, job);
    }
  }

  lemma {:induction false} SameReach<R>(s: State<R>, user: User, deque: R, job: JobId)
    requires deque !in s.heap
    ensures OutOfReach(WithQueue(s, user, deque), user, job) <==> OutOfReach(s, user, job)
  {
  }

  lemma {:induction false} QueueHoused<R>(s: State<R>, user: User, deque: R, q: State<R>)
    requires Wired(s.heap, s.queues, s.polls) && q == WithQueue(s, user, deque)
    ensures user in q.queues && q.queues[user] in q.heap && q.polls == s.polls
  {
  }

  lemma {:induction false} BegunOnceExactly<R>(
    s: State<R>, poll: PollId, user: User, deque: R, t: State<R>, job: JobId)
    requires Wired(s.heap, s.queues, s.polls) && OnceFor(s, job) && Enabled(s, BeginPoll(poll, user, deque))
    requires t == Begun(s, poll, user, deque)
    ensures OnceFor(t, job) <==> OutOfReach(s, user, job)
  {
    var q := WithQueue(s, user, deque);
    WithQueueOnce(s, user, deque, job);
    SameReach(s, user, deque, job);
    QueueHoused(s, user, deque, q);
    HeldOnceExactly(q, poll, user, t, job);
  }

  // ---- Dispatches ----------------------------------------------------------------------------------------

  lemma {:induction false} SnocWithin(line: seq<JobId>, other: JobId, job: JobId)
    requires other != job
    ensures Within(line + [other], line, job) && (job in line + [other] ==> job in line)
  {
  }

  lemma {:induction false} EnterOtherOnce<R>(
    q: State<R>, other: JobId, ticket: Ticket, order: seq<Socket>, t: State<R>, job: JobId)
    requires ticket.owner in q.queues && OnceFor(q, job) && other != job && q.queues[ticket.owner] in q.heap
    requires t == Enter(q, other, ticket, order)
    ensures OnceFor(t, job)
  {
    var r := q.queues[ticket.owner];
    EnterLines(q, other, ticket, order);
    SnocWithin(Line(q, r), other, job);
    SnocWithin(Ahead(q, r), other, job);
    assert Pushed(t, job) <==> Pushed(q, job);
    NoMoreOnce(q, t, job);
  }

  /** The job enters the line of its user's queue, and no other. */
  lemma {:induction false} EnterOwnLines<R>(
    q: State<R>, job: JobId, ticket: Ticket, order: seq<Socket>, t: State<R>)
    requires ticket.owner in q.queues && q.queues[ticket.owner] in q.heap && !InLine(q, job)
    requires t == Enter(q, job, ticket, order)
    ensures Lined(t, job) && InLine(t, job)
    ensures HeldAhead(t, job) <==> |Holders(q.polls, q.queues[ticket.owner])| > |q.Queue(ticket.owner)|
  {
    var r := q.queues[ticket.owner];
    EnterLines(q, job, ticket, order);
    NotAhead(q, job);
    assert Line(t, r)[|Line(q, r)|] == job;
    assert forall d :: d in t.heap && d != r ==> Line(t, d) == Line(q, d) && Ahead(t, d) == Ahead(q, d);
  }

  lemma {:induction false} EnterOwnExactly<R>(
    q: State<R>, job: JobId, ticket: Ticket, order: seq<Socket>, t: State<R>)
    requires ticket.owner in q.queues && q.queues[ticket.owner] in q.heap && t == Enter(q, job, ticket, order)
    requires !InLine(q, job) && HandOuts(q.log, job) == 0
    ensures OnceFor(t, job)
      <==> (order != [] ==> |Holders(q.polls, q.queues[ticket.owner])| <= |q.Queue(ticket.owner)|)
  {
    EnterOwnLines(q, job, ticket, order, t);
    assert t.log == q.log && (Pushed(t, job) <==> order != []);
  }

  lemma {:induction false} NotAhead<R>(s: State<R>, job: JobId)
    requires !InLine(s, job)
    ensures !HeldAhead(s, job)
  {
    forall r | r in s.heap ensures job !in Ahead(s, r) { assert job !in Line(s, r); }
  }

  lemma {:induction false} StagedOnceExactly<R>(
    s: State<R>, other: JobId, ticket: Ticket, order: seq<Socket>, deque: R, job: JobId)
    requires Good(s) && OnceFor(s, job) && Enabled(s, Dispatch(other, ticket, order, deque))
    ensures OnceFor(Staged(s, other, ticket, order, deque), job)
      <==> CalmFor(s, Dispatch(other, ticket, order, deque), job)
  {
    var q, t := WithQueue(s, ticket.owner, deque), Staged(s, other, ticket, order, deque);
    if other != job {
      WithQueueOnce(s, ticket.owner, deque, job);
      EnterOtherOnce(q, other, ticket, order, t, job);
    } else {
      UnknownOnce(s, job);
      WithQueueKeepsOut(s, ticket.owner, deque, job);
      EnterOwnExactly(q, job, ticket, order, t);
      if ticket.owner !in s.queues { NoneHolds(s, deque); }
    }
  }

  lemma {:induction false} NoneHolds<R>(s: State<R>, r: R)
    requires Wired(s.heap, s.queues, s.polls) && r !in s.heap
    ensures Holders(s.polls, r) == {}
  {
    forall p ensures p !in Holders(s.polls, r) { assert p in s.polls ==> s.polls[p].queue in s.heap; }
  }

  // ---- Pushes and departures ---------------------------------------------------------------------------

  lemma {:induction false} WithoutWithin(queue: seq<JobId>, other: JobId, job: JobId)
    requires other != job
    ensures Within(Without(queue, other), queue, job) && (job in queue ==> job in Without(queue, other))
  {
    if queue != [] {
      var rest, kept := queue[1..], Without(queue[1..], other);
      WithoutWithin(rest, other, job);
      if Single(queue, job) {
        TailWithin(queue, job);
        assert queue[0] == job ==> job !in kept;
        assert Single([queue[0]] + kept, job);
      }
    }
  }

  lemma {:induction false} DropOther<R>(s: State<R>, user: User, other: JobId, deque: R, t: State<R>, job: JobId)
    requires Wired(s.heap, s.queues, s.polls) && user in s.queues && deque !in s.heap && other != job
    requires OnceFor(s, job) && t == DropJob(s, user, other, deque)
    ensures OnceFor(t, job) <==> job !in Ahead(s, s.queues[user])
  {
    var r := s.queues[user];
    DropLines(s, user, other, deque);
    WithoutWithin(s.Queue(user), other, job);
    assert Line(s, r) == s.Queue(user);
    assert t.calls == s.calls && t.log == s.log && t.heap.Keys == s.heap.Keys + {deque};
    if job in Ahead(s, r) {
      assert job in Line(t, r) && job in Line(t, deque);
    } else {
      DropOtherOnce(s, r, deque, t, job);
    }
  }

  lemma {:induction false} DropOtherOnce<R>(s: State<R>, r: R, deque: R, t: State<R>, job: JobId)
    requires OnceFor(s, job) && r in s.heap && deque !in s.heap && t.heap.Keys == s.heap.Keys + {deque}
    requires t.calls == s.calls && t.log == s.log && job !in Line(t, r) && job !in Ahead(t, r) && Ahead(t, deque) == []
    requires Within(Line(t, deque), Line(s, r), job)
    requires forall q :: q != r && q != deque ==> Line(t, q) == Line(s, q) && Ahead(t, q) == Ahead(s, q)
    ensures OnceFor(t, job)
  {
    forall q | q in t.heap
      ensures Single(Line(t, q), job) && (job in Line(t, q) ==> q != r && job in Line(s, if q == deque then r else q)) {
      assert q != r && q != deque ==> Line(t, q) == Line(s, q);
    }
    assert Lined(t, job);
    assert HeldAhead(t, job) ==> HeldAhead(s, job);
  }

  lemma {:induction false} DropOwnOnce<R>(s: State<R>, user: User, job: JobId, deque: R, t: State<R>)
    requires Wired(s.heap, s.queues, s.polls) && deque !in s.heap && OnceFor(s, job)
    requires t == DropJob(s, user, job, deque)
    ensures OnceFor(t, job)
  {
    if user in s.queues {
      var r := s.queues[user];
      DropLines(s, user, job, deque);
      PrefixWithin(Ahead(s, r), Line(s, r), job);
      NoMoreOnce(s, t, job);
    }
  }

  lemma {:induction false} DropOnceExactly<R>(s: State<R>, other: JobId, deque: R, t: State<R>, job: JobId)
    requires Wired(s.heap, s.queues, s.polls) && deque !in s.heap && OnceFor(s, job) && other in s.ever
    requires t == DropJob(s, s.ever[other].owner, other, deque)
    ensures OnceFor(t, job) <==> DropsCalmly(s, other, job)
  {
    var user := s.ever[other].owner;
    if other == job {
      DropOwnOnce(s, user, job, deque, t);
    } else if user in s.queues {
      DropOther(s, user, other, deque, t, job);
    }
  }

  lemma {:induction false} FinishedOnceExactly<R>(
    s: State<R>, other: JobId, reason: Reason, deque: R, t: State<R>, job: JobId)
    requires Good(s) && OnceFor(s, job) && Enabled(s, Leave(other, reason, deque))
    requires t == Finished(s, other, reason, deque)
    ensures OnceFor(t, job) <==> DropsCalmly(s, other, job)
  {
    var d := DropJob(s, s.ever[other].owner, other, deque);
    DropOnceExactly(s, other, deque, d, job);
    HandOutsNote(d.log, Left(other, reason), job);
    SameLines(d, t);
    NotPushed(s, other);
    SameOnceExactly(d, t, job);
  }

  lemma {:induction false} NotPushed<R>(s: State<R>, other: JobId)
    requires other in s.calls && s.calls[other].Waiting?
    ensures !Pushed(s, other)
  {
  }

  /** What `OnceFor` rests on is the same. */
  lemma {:induction false} SameOnceExactly<R>(s: State<R>, t: State<R>, job: JobId)
    requires t.heap == s.heap && t.queues == s.queues && t.polls == s.polls
    requires (Pushed(t, job) <==> Pushed(s, job)) && HandOuts(t.log, job) == HandOuts(s.log, job)
    ensures OnceFor(t, job) <==> OnceFor(s, job)
  {
    SameLines(s, t);
    assert InLine(t, job) <==> InLine(s, job);
    assert HeldAhead(t, job) <==> HeldAhead(s, job);
    assert Lined(t, job) <==> Lined(s, job);
  }

  /** A push that succeeds drops the queued copy and notes the delivery: the order of the two does not matter. */
  lemma {:induction false} SentParts<R>(s: State<R>, other: JobId, deque: R, d: State<R>, t: State<R>)
    requires other in s.ever && d == DropJob(s, s.ever[other].owner, other, deque) && t == Sent(s, other, deque)
    ensures t.heap == d.heap && t.queues == d.queues && t.polls == d.polls
    ensures d.calls == s.calls && d.log == s.log && t.calls == d.calls[other := Waiting]
    ensures t.log == d.log + [Handed(other, s.ever[other].owner, |d.log|)]
  {
  }

  /** The push of the job itself: it was out of the reach of the polls, so its queued copy is gone with the drop. */
  lemma {:induction false} SentOwnOnce<R>(d: State<R>, job: JobId, e: Event, t: State<R>)
    requires OnceFor(d, job) && Pushed(d, job) && !InLine(d, job) && e.Handed? && e.job == job
    requires t.heap == d.heap && t.queues == d.queues && t.polls == d.polls
    requires t.calls == d.calls[job := Waiting] && t.log == d.log + [e]
    ensures OnceFor(t, job)
  {
    SameLines(d, t);
    HandOutsNote(d.log, e, job);
    assert !InLine(t, job) && !Pushed(t, job);
  }

  lemma {:induction false} SentOtherOnce<R>(d: State<R>, other: JobId, e: Event, t: State<R>, job: JobId)
    requires other != job && e.Handed? && e.job == other
    requires t.heap == d.heap && t.queues == d.queues && t.polls == d.polls
    requires t.calls == d.calls[other := Waiting] && t.log == d.log + [e]
    ensures OnceFor(t, job) <==> OnceFor(d, job)
  {
    HandOutsNote(d.log, e, job);
    SameOnceExactly(d, t, job);
  }

  lemma {:induction false} SentOnceExactly<R>(s: State<R>, other: JobId, deque: R, t: State<R>, job: JobId)
    requires Good(s) && OnceFor(s, job) && Enabled(s, SendSucceeds(other, deque)) && t == Sent(s, other, deque)
    ensures OnceFor(t, job) <==> DropsCalmly(s, other, job)
  {
    var e := Handed(other, s.ever[other].owner, |s.log|);
    var d := DropJob(s, s.ever[other].owner, other, deque);
    SentParts(s, other, deque, d, t);
    DropOnceExactly(s, other, deque, d, job);
    if other == job {
      DroppedInLine(s, job, deque);
      SentOwnOnce(d, job, e, t);
    } else {
      SentOtherOnce(d, other, e, t, job);
    }
  }

  // ---- Every step, exactly -------------------------------------------------------------------------------

  lemma {:induction false} TailOnce<R>(s: State<R>, t: State<R>, e: Event, job: JobId)
    requires OnceFor(s, job) && t.heap == s.heap && t.queues == s.queues && t.polls == s.polls
    requires t.log == s.log || (t.log == s.log + [e] && !e.Handed?)
    requires Pushed(t, job) ==> Pushed(s, job)
    ensures OnceFor(t, job)
  {
    HandOutsNote(s.log, e, job);
    SameOnce(s, t, job);
  }

  lemma {:induction false} FailedOnce<R>(s: State<R>, other: JobId, job: JobId)
    requires OnceFor(s, job) && Enabled(s, SendFails(other))
    ensures OnceFor(Failed(s, other), job)
  {
    NoNewFailedPush(s, other, job);
    TailOnce(s, Failed(s, other), Abandoned(other), job);
  }

  lemma {:induction false} NoNewFailedPush<R>(s: State<R>, other: JobId, job: JobId)
    requires Enabled(s, SendFails(other))
    ensures Pushed(Failed(s, other), job) ==> Pushed(s, job)
  {
  }

  lemma {:induction false} SubmittedOnce<R>(s: State<R>, user: User, other: JobId, now: real, job: JobId)
    requires OnceFor(s, job)
    ensures OnceFor(Submitted(s, user, other, now), job)
  {
    TailOnce(s, Submitted(s, user, other, now), Accepted(other, user, now), job);
  }

  lemma {:induction false} ForgetOnce<R>(s: State<R>, user: User, job: JobId)
    requires Wired(s.heap, s.queues, s.polls) && OnceFor(s, job) && Idle(s, user)
    ensures OnceFor(s.(queues := s.queues - {user}, sockets := s.sockets - {user}), job)
  {
    ForgetLines(s, user);
    NoMoreOnce(s, s.(queues := s.queues - {user}, sockets := s.sockets - {user}), job);
  }

  /** A step from a state that has one way out at most for the job leaves such a state if and only if it is calm. */
  lemma {:induction false} NextOnceExactly<R>(s: State<R>, a: Action<R>, t: State<R>, job: JobId)
    requires Good(s) && OnceFor(s, job) && Enabled(s, a) && t == Next(s, a)
    ensures OnceFor(t, job) <==> CalmFor(s, a, job)
  {
    match a
    case Dispatch(other, ticket, order, deque) => StagedOnceExactly(s, other, ticket, order, deque, job);
    case SendSucceeds(other, deque) => SentOnceExactly(s, other, deque, t, job);
    case SendFails(other) => FailedOnce(s, other, job);
    case SendCancelled(other) => TailOnce(s, t, Abandoned(other), job);
    case Leave(other, reason, deque) => FinishedOnceExactly(s, other, reason, deque, t, job);
    case BeginPoll(poll, user, deque) => BegunOnceExactly(s, poll, user, deque, t, job);
    case Wake(poll) => LookOnce(s, poll, true, job);
    case TimeOut(poll) => LookOnce(s, poll, false, job);
    case AbortPoll(poll) => AbortOnce(s, poll, job);
    case Submit(user, other, now) => SubmittedOnce(s, user, other, now, job);
    case Attach(_, _) => TailOnce(s, t, Abandoned(job), job);
    case Detach(_, _) => TailOnce(s, t, Abandoned(job), job);
    case Forget(user) => ForgetOnce(s, user, job);
  }

  // ---- Every run -----------------------------------------------------------------------------------------

  lemma {:induction false} CalmPrefix<R>(actions: seq<Action<R>>, job: JobId)
    requires CalmRunFor(actions, job) && actions != []
    ensures var n := |actions| - 1;
      && CalmRunFor(actions[..n], job)
      && (Enabled(Run(actions[..n]), actions[n]) ==> CalmFor(Run(actions[..n]), actions[n], job))
  {
    var n := |actions| - 1;
    forall k | 0 <= k < n && Enabled(Run(actions[..n][..k]), actions[..n][k])
      ensures CalmFor(Run(actions[..n][..k]), actions[..n][k], job) {
      assert actions[..n][..k] == actions[..k];
    }
  }

  lemma {:induction false} RunIsOnce<R>(actions: seq<Action<R>>, job: JobId)
    requires CalmRunFor(actions, job)
    ensures OnceFor(Run(actions), job)
  {
    if actions != [] {
      var n := |actions| - 1;
      var s := Run(actions[..n]);
      CalmPrefix(actions, job);
      RunIsOnce(actions[..n], job);
      RunIsGood(actions[..n]);
      if Enabled(s, actions[n]) { NextOnceExactly(s, actions[n], Next(s, actions[n]), job); }
    }
  }

  /** In every run that is calm for a job, the job is handed out at most once over all sockets and polls. */
  lemma {:induction false} HandedAtMostOnce<R>(actions: seq<Action<R>>, job: JobId)
    requires CalmRunFor(actions, job)
    ensures HandOuts(Run(actions).log, job) <= 1
  {
    RunIsOnce(actions, job);
  }

  // ---- And only then -------------------------------------------------------------------------------------

  lemma {:induction false} ServedThenHandedOut<R>(s: State<R>, first: seq<Action<R>>, job: JobId, spare: R)
    returns (more: seq<Action<R>>)
    requires Good(s) && job in s.ever && spare !in s.heap && Served(s, After(s, first), job)
    requires MayBeHanded(After(s, first), job)
    ensures HandOuts(After(s, more).log, job) >= 2
  {
    AfterGood(s, first);
    var rest := HandOut(After(s, first), job, spare);
    AfterTwo(s, first, rest);
    more := first + rest;
  }

  lemma {:induction false} FirstAhead<R>(s: State<R>, r: R, job: JobId) returns (k: nat)
    requires job in Ahead(s, r)
    ensures k < |Ahead(s, r)| && Ahead(s, r)[k] == job
  {
    k :| 0 <= k < |Ahead(s, r)| && Ahead(s, r)[k] == job;
  }

  lemma {:induction false} PushedAndAhead<R>(s: State<R>, job: JobId, spare: R) returns (more: seq<Action<R>>)
    requires Good(s) && job in s.ever && spare !in s.heap && Pushed(s, job) && HeldAhead(s, job)
    ensures HandOuts(After(s, more).log, job) >= 2
  {
    var r :| r in s.heap && job in Ahead(s, r);
    var k := FirstAhead(s, r, job);
    var first, t := HandHeld(s, r, k, job);
    more := ServedThenHandedOut(s, first, job, spare);
  }

  lemma {:induction false} TwiceInLine<R>(s: State<R>, r: R, i: nat, k: nat, spare: R) returns (more: seq<Action<R>>)
    requires Good(s) && r in s.heap && i < k < |Line(s, r)| && Line(s, r)[i] == Line(s, r)[k] && spare !in s.heap
    requires Line(s, r)[i] in s.ever
    ensures HandOuts(After(s, more).log, Line(s, r)[i]) >= 2
  {
    var job := Line(s, r)[i];
    var first;
    if Current(s.queues, r) {
      var user :| user in s.queues && s.queues[user] == r;
      first := HandQueued(s, user, i, spare);
      var t := After(s, first);
      assert Current(t.queues, t.queues[user]) && Line(t, t.queues[user])[k - i - 1] == job;
    } else {
      var t;
      first, t := HandHeld(s, r, i, job);
      assert Line(t, r)[k - i - 1] == job;
    }
    more := ServedThenHandedOut(s, first, job, spare);
  }

  lemma {:induction false} InTwoLines<R>(s: State<R>, r: R, q: R, job: JobId, spare: R) returns (more: seq<Action<R>>)
    requires Good(s) && job in s.ever && r in s.heap && q in s.heap && r != q && spare !in s.heap
    requires job in Line(s, r) && job in Line(s, q) && !Current(s.queues, r)
    ensures HandOuts(After(s, more).log, job) >= 2
  {
    var k := FirstAhead(s, r, job);
    var first, t := HandHeld(s, r, k, job);
    assert Line(t, q) == Line(s, q);
    more := ServedThenHandedOut(s, first, job, spare);
  }

  lemma {:induction false} NotLined<R>(s: State<R>, job: JobId, spare: R) returns (more: seq<Action<R>>)
    requires Good(s) && job in s.ever && spare !in s.heap && !Lined(s, job)
    ensures HandOuts(After(s, more).log, job) >= 2
  {
    if r, q :| r in s.heap && q in s.heap && job in Line(s, r) && job in Line(s, q) && r != q {
      if Current(s.queues, r) && Current(s.queues, q) {
        CurrentQueue(s, r, job);
        CurrentQueue(s, q, job);
      }
      if Current(s.queues, r) { more := InTwoLines(s, q, r, job, spare); }
      else { more := InTwoLines(s, r, q, job, spare); }
    } else {
      var r :| r in s.heap && !Single(Line(s, r), job);
      var i, k :| 0 <= i < k < |Line(s, r)| && Line(s, r)[i] == job && Line(s, r)[k] == job;
      more := TwiceInLine(s, r, i, k, spare);
    }
  }

  /** From any good state with more than one way out for a job, some continuation has it handed out twice. */
  lemma {:induction false} HandedTwiceFrom<R>(s: State<R>, job: JobId, spare: R) returns (more: seq<Action<R>>)
    requires Good(s) && job in s.ever && spare !in s.heap && !OnceFor(s, job)
    ensures HandOuts(After(s, more).log, job) >= 2
  {
    if HandOuts(s.log, job) > 1 {
      more := [];
    } else if HandOuts(s.log, job) > 0 && MayBeHanded(s, job) {
      more := HandOut(s, job, spare);
    } else if Pushed(s, job) && HeldAhead(s, job) {
      more := PushedAndAhead(s, job, spare);
    } else {
      more := NotLined(s, job, spare);
    }
  }

  /** And a run is calm no longer than that: once a step is not calm for a job, the run can go on to hand it out
      twice. */
  lemma {:induction false} NotCalmHandsTwice<R>(actions: seq<Action<R>>, a: Action<R>, job: JobId, spare: R)
    requires CalmRunFor(actions, job) && Enabled(Run(actions), a) && !CalmFor(Run(actions), a, job)
    requires spare !in Run(actions + [a]).heap
    ensures exists more :: HandOuts(Run(actions + [a] + more).log, job) >= 2
  {
    var s := Run(actions);
    assert (actions + [a])[..|actions|] == actions;
    var t := Run(actions + [a]);
    RunIsOnce(actions, job);
    RunIsGood(actions);
    RunIsGood(actions + [a]);
    NextOnceExactly(s, a, t, job);
    if job !in t.ever { UnknownOnce(t, job); }
    var more := HandedTwiceFrom(t, job, spare);
    RunAfter(actions + [a], more);
  }
}
