/** The tables a caller can see, said directly: who is attached, which push is due, who may answer, and the caps. */
module AgentTables {
  import opened AgentDispatch
  import opened AgentDispatchSafety
  import opened AgentDispatchLines
  import opened AgentDispatchUsers

  ghost predicate Attached<R>(s: State<R>, user: User, socket: Socket) {
    user in s.sockets && socket in s.sockets[user]
  }

  // ---- Who is attached -----------------------------------------------------------------------------------

  lemma {:induction false} DetachedExactly<R>(s: State<R>, user: User, socket: Socket, u: User, x: Socket)
    ensures Attached(Detached(s, user, socket), u, x) <==> Attached(s, u, x) && !(u == user && x == socket)
  {
    var t := Detached(s, user, socket);
    if u == user && Attached(s, u, x) && x != socket { assert x in s.Sockets(user) - {socket}; }
  }

  lemma {:induction false} LookSockets<R>(s: State<R>, poll: PollId, stay: bool)
    requires poll in s.polls
    ensures Look(s, poll, stay).sockets == s.sockets
  {
  }

  lemma {:induction false} DropSockets<R>(s: State<R>, user: User, job: JobId, deque: R)
    ensures DropJob(s, user, job, deque).sockets == s.sockets
  {
  }

  lemma {:induction false} ForgottenSockets<R>(s: State<R>, user: User, u: User, x: Socket)
    requires s.Sockets(user) == {}
    ensures user in s.sockets && x in s.sockets[user] ==> u != user
    ensures Attached(s.(queues := s.queues - {user}, sockets := s.sockets - {user}), u, x) <==> Attached(s, u, x)
  {
    assert x !in s.Sockets(user);
  }

  /** Which socket a step takes from which user. */
  ghost predicate Takes<R>(s: State<R>, a: Action<R>, user: User, socket: Socket) {
    match a
    case Detach(u, x) => u == user && x == socket
    case SendFails(job) =>
      && job in s.calls && s.calls[job].Pushing? && s.calls[job].todo != [] && job in s.ever
      && s.ever[job].owner == user && s.calls[job].todo[0] == socket
    case _ => false
  }

  lemma {:induction false} SocketsStay<R>(s: State<R>, a: Action<R>, t: State<R>)
    requires Enabled(s, a) && t == Next(s, a) && !a.Attach? && !a.Detach? && !a.SendFails? && !a.Forget?
    ensures t.sockets == s.sockets
  {
    match a
    case SendSucceeds(job, deque) => DropSockets(Delivered(s, job, s.ever[job].owner), s.ever[job].owner, job, deque);
    case Leave(job, reason, deque) => DropSockets(s, s.ever[job].owner, job, deque);
    case BeginPoll(poll, u, deque) => LookSockets(WithHold(WithQueue(s, u, deque), poll, u), poll, true);
    case Wake(poll) => LookSockets(s, poll, true);
    case TimeOut(poll) => LookSockets(s, poll, false);
    case _ =>
  }

  lemma {:induction false} AttachedOne<R>(s: State<R>, u: User, x: Socket, user: User, socket: Socket)
    ensures Attached(s.(sockets := s.sockets[u := s.Sockets(u) + {x}]), user, socket)
      <==> (u == user && x == socket) || Attached(s, user, socket)
  {
  }

  /** A socket is attached after a step exactly if the step attaches it, or it was attached before and is not the very
      socket that goes: the one that disconnects, or the one whose send failed. Every other socket of that user and
      of every other user stays. */
  lemma {:induction false} AttachedExactly<R>(s: State<R>, a: Action<R>, t: State<R>, user: User, socket: Socket)
    requires Enabled(s, a) && t == Next(s, a)
    ensures Attached(t, user, socket) <==>
      (a.Attach? && a.user == user && a.socket == socket) || (Attached(s, user, socket) && !Takes(s, a, user, socket))
  {
    if a.SendFails? {
      FailedSockets(s, a.job, user, socket);
    } else if a.Attach? {
      AttachedOne(s, a.user, a.socket, user, socket);
    } else if a.Detach? {
      DetachedExactly(s, a.user, a.socket, user, socket);
    } else if a.Forget? {
      ForgottenSockets(s, a.user, user, socket);
    } else {
      SocketsStay(s, a, t);
    }
  }

  lemma {:induction false} FailedSockets<R>(s: State<R>, job: JobId, user: User, socket: Socket)
    requires Enabled(s, SendFails(job))
    ensures Attached(Failed(s, job), user, socket)
      <==> Attached(s, user, socket) && !(user == s.ever[job].owner && socket == s.calls[job].todo[0])
  {
    var todo := s.calls[job].todo;
    var moved := s.(calls := s.calls[job := if |todo| == 1 then Waiting else Pushing(todo[1..])]);
    DetachedExactly(moved, s.ever[job].owner, todo[0], user, socket);
    assert Attached(moved, user, socket) <==> Attached(s, user, socket);
  }

  // ---- Which push is due ---------------------------------------------------------------------------------

  ghost predicate Moves<R>(a: Action<R>, job: JobId) {
    (a.Dispatch? || a.SendFails? || a.SendSucceeds? || a.SendCancelled? || a.Leave?) && a.job == job
  }

  lemma {:induction false} FailedPhase<R>(s: State<R>, job: JobId)
    requires Enabled(s, SendFails(job))
    ensures Failed(s, job).calls
      == s.calls[job := if s.calls[job].todo[1..] == [] then Waiting else Pushing(s.calls[job].todo[1..])]
  {
  }

  /** Where a dispatch is suspended after one of its own steps: it pushes to the sockets attached when it began, each
      once, or waits if there is none; a failed send leaves the push due at the rest of them, or waiting if that was
      the last; one that succeeds leaves it waiting. */
  lemma {:induction false} PushDue<R>(s: State<R>, a: Action<R>, t: State<R>)
    requires Enabled(s, a) && t == Next(s, a)
    ensures match a
      case Dispatch(job, ticket, order, _) =>
        && job in t.calls && t.calls[job] == (if order == [] then Waiting else Pushing(order))
        && |order| == |s.Sockets(ticket.owner)| && forall x :: x in order <==> Attached(s, ticket.owner, x)
      case SendFails(job) =>
        var todo := s.calls[job].todo;
        job in t.calls && t.calls[job] == if todo[1..] == [] then Waiting else Pushing(todo[1..])
      case SendSucceeds(job, _) => job in t.calls && t.calls[job] == Waiting
      case SendCancelled(job) => job !in t.calls
      case Leave(job, _, _) => job !in t.calls
      case _ => true
  {
    match a
    case SendSucceeds(j, deque) => DropCalls(Delivered(s, j, s.ever[j].owner), s.ever[j].owner, j, deque);
    case SendFails(j) => FailedPhase(s, j);
    case Leave(j, reason, deque) => DropCalls(s, s.ever[j].owner, j, deque);
    case _ =>
  }

  ghost predicate SamePhase<R>(s: State<R>, t: State<R>, job: JobId) {
    (job in t.calls <==> job in s.calls) && (job in s.calls ==> t.calls[job] == s.calls[job])
  }

  lemma {:induction false} PollsKeepCalls<R>(s: State<R>, a: Action<R>, t: State<R>)
    requires Enabled(s, a) && t == Next(s, a) && (a.BeginPoll? || a.Wake? || a.TimeOut?)
    ensures t.calls == s.calls
  {
    match a
    case BeginPoll(poll, u, deque) => LookCalls(WithHold(WithQueue(s, u, deque), poll, u), poll, true);
    case Wake(poll) => LookCalls(s, poll, true);
    case TimeOut(poll) => LookCalls(s, poll, false);
  }

  lemma {:induction false} OthersStayEnding<R>(s: State<R>, a: Action<R>, t: State<R>, job: JobId)
    requires Enabled(s, a) && t == Next(s, a) && (a.SendSucceeds? || a.Leave?) && a.job != job
    ensures SamePhase(s, t, job)
  {
    match a
    case SendSucceeds(j, deque) => DropCalls(Delivered(s, j, s.ever[j].owner), s.ever[j].owner, j, deque);
    case Leave(j, reason, deque) => DropCalls(s, s.ever[j].owner, j, deque);
  }

  lemma {:induction false} OthersStayFailed<R>(s: State<R>, j: JobId, job: JobId)
    requires Enabled(s, SendFails(j)) && j != job
    ensures SamePhase(s, Failed(s, j), job)
  {
    FailedPhase(s, j);
  }

  /** And no other dispatch moves. */
  lemma {:induction false} OthersStay<R>(s: State<R>, a: Action<R>, t: State<R>, job: JobId)
    requires Enabled(s, a) && t == Next(s, a) && !Moves(a, job)
    ensures SamePhase(s, t, job)
  {
    if a.SendSucceeds? || a.Leave? {
      OthersStayEnding(s, a, t, job);
    } else if a.SendFails? {
      OthersStayFailed(s, a.job, job);
    } else if a.BeginPoll? || a.Wake? || a.TimeOut? {
      PollsKeepCalls(s, a, t);
    }
  }

  // ---- Who may answer ------------------------------------------------------------------------------------

  /** Every job that is still filed has a future to be answered. */
  ghost predicate Awaited<R>(s: State<R>) {
    forall j :: j in s.jobs ==> j in s.Futures(s.jobs[j].owner)
  }

  lemma {:induction false} LookTables<R>(s: State<R>, poll: PollId, stay: bool)
    requires poll in s.polls
    ensures Look(s, poll, stay).jobs == s.jobs && Look(s, poll, stay).futures == s.futures
  {
  }

  lemma {:induction false} DropTables<R>(s: State<R>, user: User, job: JobId, deque: R)
    ensures DropJob(s, user, job, deque).jobs == s.jobs && DropJob(s, user, job, deque).futures == s.futures
  {
  }

  lemma {:induction false} ClosedAwaited<R>(s: State<R>, job: JobId, user: User, reason: Reason)
    requires Awaited(s)
    ensures Awaited(Closed(s, job, user, reason))
  {
    var t := Closed(s, job, user, reason);
    forall j | j in t.jobs ensures j in t.Futures(t.jobs[j].owner) { assert j in s.Futures(s.jobs[j].owner); }
  }

  lemma {:induction false} SubmittedAwaited<R>(s: State<R>, user: User, job: JobId, now: real)
    requires Awaited(s)
    ensures Awaited(Submitted(s, user, job, now))
  {
    var t := Submitted(s, user, job, now);
    forall j | j in t.jobs ensures j in t.Futures(t.jobs[j].owner) { assert j in s.Futures(s.jobs[j].owner); }
  }

  lemma {:induction false} StagedAwaited<R>(s: State<R>, job: JobId, ticket: Ticket, order: seq<Socket>, deque: R)
    requires Awaited(s)
    ensures Awaited(Staged(s, job, ticket, order, deque))
  {
    var t := Staged(s, job, ticket, order, deque);
    forall j | j in t.jobs ensures j in t.Futures(t.jobs[j].owner) {
      if j != job { assert j in s.Futures(s.jobs[j].owner); }
    }
  }

  lemma {:induction false} SameAwaited<R>(s: State<R>, t: State<R>)
    requires Awaited(s) && t.jobs == s.jobs && t.futures == s.futures
    ensures Awaited(t)
  {
    forall j | j in t.jobs ensures j in t.Futures(t.jobs[j].owner) { assert j in s.Futures(s.jobs[j].owner); }
  }

  lemma {:induction false} FailedTables<R>(s: State<R>, job: JobId)
    requires Enabled(s, SendFails(job))
    ensures Failed(s, job).jobs == s.jobs && Failed(s, job).futures == s.futures
  {
  }

  lemma {:induction false} PollsKeepTables<R>(s: State<R>, a: Action<R>, t: State<R>)
    requires Enabled(s, a) && t == Next(s, a) && (a.BeginPoll? || a.Wake? || a.TimeOut?)
    ensures t.jobs == s.jobs && t.futures == s.futures
  {
    match a
    case BeginPoll(poll, u, deque) => LookTables(WithHold(WithQueue(s, u, deque), poll, u), poll, true);
    case Wake(poll) => LookTables(s, poll, true);
    case TimeOut(poll) => LookTables(s, poll, false);
  }

  lemma {:induction false} TablesStay<R>(s: State<R>, a: Action<R>, t: State<R>)
    requires Enabled(s, a) && t == Next(s, a) && !a.Dispatch? && !a.Leave? && !a.Submit?
    ensures t.jobs == s.jobs && t.futures == s.futures
  {
    if a.SendSucceeds? {
      DropTables(Delivered(s, a.job, s.ever[a.job].owner), s.ever[a.job].owner, a.job, a.deque);
    } else if a.SendFails? {
      FailedTables(s, a.job);
    } else if a.BeginPoll? || a.Wake? || a.TimeOut? {
      PollsKeepTables(s, a, t);
    }
  }

  lemma {:induction false} FinishedAwaited<R>(s: State<R>, job: JobId, reason: Reason, deque: R)
    requires Awaited(s) && job in s.ever
    ensures Awaited(Finished(s, job, reason, deque))
  {
    var d := DropJob(s, s.ever[job].owner, job, deque);
    DropTables(s, s.ever[job].owner, job, deque);
    SameAwaited(s, d);
    ClosedAwaited(d, job, s.ever[job].owner, reason);
  }

  lemma {:induction false} NextAwaited<R>(s: State<R>, a: Action<R>, t: State<R>)
    requires Awaited(s) && Enabled(s, a) && t == Next(s, a)
    ensures Awaited(t)
  {
    if a.Dispatch? {
      StagedAwaited(s, a.job, a.ticket, a.order, a.deque);
    } else if a.Leave? {
      FinishedAwaited(s, a.job, a.reason, a.deque);
    } else if a.Submit? {
      SubmittedAwaited(s, a.user, a.job, a.now);
    } else {
      TablesStay(s, a, t);
      SameAwaited(s, t);
    }
  }

  lemma {:induction false} RunIsAwaited<R>(actions: seq<Action<R>>)
    ensures Awaited(Run(actions))
  {
    if actions != [] {
      var n := |actions| - 1;
      var s := Run(actions[..n]);
      RunIsAwaited(actions[..n]);
      if Enabled(s, actions[n]) { NextAwaited(s, actions[n], Next(s, actions[n])); }
    }
  }

  /** In every reachable state a result is accepted exactly if the job was dispatched for that user, its deadline has
      not passed, no result of it has been accepted, and its dispatch has not left. */
  lemma {:induction false} AcceptedExactly<R>(actions: seq<Action<R>>, user: User, job: JobId, now: real)
    ensures var s := Run(actions);
      Accepts(s, user, job, now) <==>
        && job in s.ever && s.ever[job].owner == user && now <= s.ever[job].deadline
        && !WasAccepted(s.log, job) && !HasLeft(s.log, job)
  {
    RunIsGood(actions);
    RunIsAwaited(actions);
    var s := Run(actions);
    assert job in s.jobs ==> job in s.Futures(s.jobs[job].owner);
  }

  // ---- The caps ------------------------------------------------------------------------------------------

  /** At most five sockets and five polls for every user. */
  ghost predicate Capped<R>(s: State<R>) {
    forall u :: |s.Sockets(u)| <= 5 && |s.Held(u)| <= 5
  }

  lemma {:induction false} Fewer(part: set<int>, all: set<int>)
    requires part <= all
    ensures |part| <= |all|
  {
    if part != all { assert all == part + (all - part); }
  }

  lemma {:induction false} BegunHeld<R>(s: State<R>, poll: PollId, user: User, deque: R, t: State<R>)
    requires poll !in s.polls && t == Begun(s, poll, user, deque)
    ensures t.Held(user) <= s.Held(user) + {poll}
  {
    var h := WithHold(WithQueue(s, user, deque), poll, user);
    LookHeld(h, poll, true, user);
    assert h.Held(user) == s.Held(user) + {poll};
  }

  lemma {:induction false} HeldCapped<R>(s: State<R>, a: Action<R>, t: State<R>, u: User)
    requires Enabled(s, a) && t == Next(s, a) && |s.Held(u)| <= 5
    ensures |t.Held(u)| <= 5
  {
    if a.BeginPoll? && a.user == u {
      BegunHeld(s, a.poll, u, a.deque, t);
      Fewer(t.Held(u), s.Held(u) + {a.poll});
    } else {
      HeldNext(s, a, t, u);
      Fewer(t.Held(u), s.Held(u));
    }
  }

  lemma {:induction false} SocketsCapped<R>(s: State<R>, a: Action<R>, t: State<R>, u: User)
    requires Enabled(s, a) && t == Next(s, a) && |s.Sockets(u)| <= 5
    ensures |t.Sockets(u)| <= 5
  {
    forall x ensures x in t.Sockets(u) ==> x in s.Sockets(u) || (a.Attach? && a.user == u && a.socket == x) {
      AttachedExactly(s, a, t, u, x);
      assert (x in t.Sockets(u) <==> Attached(t, u, x)) && (x in s.Sockets(u) <==> Attached(s, u, x));
    }
    if a.Attach? && a.user == u {
      Fewer(t.Sockets(u), s.Sockets(u) + {a.socket});
    } else {
      Fewer(t.Sockets(u), s.Sockets(u));
    }
  }

  /** In every reachable state nobody has more than five sockets attached or five polls held. */
  lemma {:induction false} AlwaysCapped<R>(actions: seq<Action<R>>)
    ensures Capped(Run(actions))
  {
    if actions == [] {
      assert forall u :: Run(actions).Sockets(u) == {} && Run(actions).Held(u) == {};
    } else {
      var n := |actions| - 1;
      var s := Run(actions[..n]);
      AlwaysCapped(actions[..n]);
      if Enabled(s, actions[n]) {
        forall u ensures |Run(actions).Sockets(u)| <= 5 && |Run(actions).Held(u)| <= 5 {
          SocketsCapped(s, actions[n], Next(s, actions[n]), u);
          HeldCapped(s, actions[n], Next(s, actions[n]), u);
        }
      }
    }
  }
}
