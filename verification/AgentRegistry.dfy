/** The registry object itself: dictionaries of deque objects, updated in place. Its methods are the stretches of
    `dispatch`, `push_ws`, `poll` and `submit_result` between two awaits; each that a caller uses is one step of
    AgentDispatch. */
module AgentRegistry {
  import D = AgentDispatch

  class Deque {
    var items: seq<D.JobId>

    constructor ()
      ensures items == []
    {
      items := [];
    }

    method PopLeft() returns (job: D.JobId)
      requires items != []
      modifies this
      ensures [job] + items == old(items)
    {
      job := items[0];
      items := items[1..];
    }
  }

  const STALE_USER_SECONDS := 3600.0

  datatype PollOutcome = Refused | Got(job: D.JobId) | Holding | Quiet

  class Registry {
    var queues: map<D.User, Deque>
    var jobs: map<D.JobId, D.Ticket>
    var futures: map<D.User, map<D.JobId, bool>>
    var sockets: map<D.User, set<D.Socket>>
    var pollers: map<D.User, nat>

    /** Every deque made here, the calls suspended inside this object, and what has happened. */
    ghost var repr: set<Deque>
    ghost var polls: map<D.PollId, D.Hold<Deque>>
    ghost var calls: map<D.JobId, D.Phase>
    ghost var ever: map<D.JobId, D.Ticket>
    ghost var log: seq<D.Event>

    ghost function Heap(): map<Deque, seq<D.JobId>>
      reads this`repr, repr
    {
      map d | d in repr :: d.items
    }

    ghost function View(): D.State<Deque>
      reads this, repr
    {
      D.State(Heap(), queues, jobs, futures, sockets, polls, calls, ever, log)
    }

    function Pollers(user: D.User): nat
      reads this
    {
      if user in pollers then pollers[user] else 0
    }

    ghost predicate Valid()
      reads this, repr
    {
      && (forall u :: u in queues ==> queues[u] in repr)
      && (forall p :: p in polls ==> polls[p].queue in repr)
      && (forall u :: u in sockets ==> sockets[u] != {})
      && (forall u :: Pollers(u) == |D.HeldBy(polls, u)|)
    }

    constructor ()
      ensures Valid() && View() == D.Start()
    {
      queues, jobs, futures, sockets, pollers := map[], map[], map[], map[], map[];
      repr, polls, calls, ever, log := {}, map[], map[], map[], [];
      new;
      assert Heap() == map[];
      assert forall u :: D.HeldBy(polls, u) == {};
    }

    /** `self._queues.setdefault(user, deque())`: a deque is made even if the user has one. */
    method QueueOf(user: D.User) returns (queue: Deque, made: Deque)
      requires Valid()
      modifies this`queues, this`repr
      ensures Valid() && fresh(made) && repr == old(repr) + {queue}
      ensures user in queues && queue == queues[user] && queue in old(repr) + {made}
      ensures View() == D.WithQueue(old(View()), user, made)
    {
      made := new Deque();
      if user in queues {
        queue := queues[user];
        assert repr == old(repr) + {queue};
      } else {
        queue := made;
        queues := queues[user := queue];
        repr := repr + {queue};
        assert Heap() == old(Heap())[queue := []];
      }
    }

    method Append(queue: Deque, job: D.JobId)
      requires Valid() && queue in repr
      modifies queue
      ensures Valid() && Heap() == old(Heap())[queue := D.Items(old(Heap()), queue) + [job]]
    {
      queue.items := queue.items + [job];
    }

    method Enlist(job: D.JobId, ticket: D.Ticket, order: seq<D.Socket>)
      requires Valid()
      modifies `jobs, `futures, `calls, `ever
      ensures Valid()
      ensures jobs == old(jobs)[job := ticket] && ever == old(ever)[job := ticket]
      ensures futures == old(futures)[ticket.owner := old(View()).Futures(ticket.owner)[job := false]]
      ensures calls == old(calls)[job := if order == [] then D.Waiting else D.Pushing(order)]
    {
      jobs := jobs[job := ticket];
      var mine := if ticket.owner in futures then futures[ticket.owner] else map[];
      futures := futures[ticket.owner := mine[job := false]];
      calls := calls[job := if order == [] then D.Waiting else D.Pushing(order)];
      ever := ever[job := ticket];
    }

    /** `list(sockets)`: each attached socket once, in whatever order the set gives. */
    method ListSockets(user: D.User) returns (order: seq<D.Socket>)
      ensures (forall x :: x in order <==> x in View().Sockets(user)) && |order| == |View().Sockets(user)|
    {
      var rest := if user in sockets then sockets[user] else {};
      order := [];
      while exists x :: x in rest
        invariant |order| + |rest| == |View().Sockets(user)|
        invariant forall x :: x in order || x in rest <==> x in View().Sockets(user)
        decreases rest
      {
        var socket :| socket in rest;
        order, rest := order + [socket], rest - {socket};
      }
      assert rest == {};
    }

    /** `dispatch` as far as its first await: the job enters every table and the user's deque, and the push to the
        attached sockets starts. */
    method BeginDispatch(job: D.JobId, ticket: D.Ticket) returns (order: seq<D.Socket>, made: Deque)
      requires Valid() && job !in ever
      modifies this, repr
      ensures Valid() && fresh(made) && repr <= old(repr) + {made}
      ensures forall x :: x in order <==> x in old(View()).Sockets(ticket.owner)
      ensures D.IsStep(old(View()), D.Dispatch(job, ticket, order, made), View())
    {
      order := ListSockets(ticket.owner);
      made := Stage(job, ticket, order);
    }

    method Stage(job: D.JobId, ticket: D.Ticket, order: seq<D.Socket>) returns (made: Deque)
      requires Valid() && job !in ever
      modifies this, repr
      ensures Valid() && fresh(made) && repr <= old(repr) + {made}
      ensures View() == D.Staged(old(View()), job, ticket, order, made)
    {
      var queue;
      queue, made := QueueOf(ticket.owner);
      ghost var q := View();
      Append(queue, job);
      Enlist(job, ticket, order);
      assert View() == D.Enter(q, job, ticket, order);
    }

    /** `_drop_job`: the user's queue is rebound to a new deque; whoever holds the old one keeps it. */
    method DropJob(user: D.User, job: D.JobId) returns (kept: Deque)
      requires Valid()
      modifies this`queues, this`repr
      ensures Valid() && fresh(kept) && repr <= old(repr) + {kept}
      ensures View() == D.DropJob(old(View()), user, job, kept)
    {
      kept := new Deque();
      if user !in queues { return; }
      var queue := queues[user];
      var n := 0;
      while n < |queue.items|
        invariant 0 <= n <= |queue.items| && fresh(kept)
        invariant kept.items == D.Without(queue.items[..n], job)
        modifies kept
      {
        if queue.items[n] != job { kept.items := kept.items + [queue.items[n]]; }
        WithoutSnoc(queue.items[..n], queue.items[n], job);
        assert queue.items[..n] + [queue.items[n]] == queue.items[..n + 1];
        n := n + 1;
      }
      assert queue.items[..n] == queue.items;
      queues := queues[user := kept];
      repr := repr + {kept};
      assert Heap() == old(Heap())[kept := D.Without(old(Heap())[queue], job)];
    }

    /** A send returned: the job is delivered, and its queued copy dropped before anything else runs. */
    method SendSucceeded(job: D.JobId, user: D.User) returns (made: Deque)
      requires Valid() && job in calls && calls[job].Pushing? && job in ever && ever[job].owner == user
      modifies this
      ensures Valid() && fresh(made) && repr <= old(repr) + {made}
      ensures D.IsStep(old(View()), D.SendSucceeds(job, made), View())
    {
      log := log + [D.Handed(job, user, |log|)];
      calls := calls[job := D.Waiting];
      assert View() == D.Delivered(old(View()), job, user);
      made := DropJob(user, job);
    }

    method DetachWs(user: D.User, socket: D.Socket)
      requires Valid()
      modifies `sockets
      ensures Valid() && View() == D.Detached(old(View()), user, socket)
      ensures D.IsStep(old(View()), D.Detach(user, socket), View())
    {
      if user !in sockets {
        assert sockets - {user} == sockets;
        return;
      }
      var rest := sockets[user] - {socket};
      sockets := if rest == {} then sockets - {user} else sockets[user := rest];
    }

    /** A send raised: that socket is detached, and the next one of the snapshot is tried. */
    method SendFailed(job: D.JobId, user: D.User, todo: seq<D.Socket>)
      requires Valid() && job in calls && calls[job] == D.Pushing(todo) && todo != [] && job in ever
      requires ever[job].owner == user
      modifies `sockets, `calls
      ensures Valid() && D.IsStep(old(View()), D.SendFails(job), View())
    {
      calls := calls[job := if |todo| == 1 then D.Waiting else D.Pushing(todo[1..])];
      DetachWs(user, todo[0]);
    }

    /** The dispatch is cancelled inside the push: the `try` has not been entered, so nothing is cleaned up. */
    ghost method SendCancelled(job: D.JobId)
      requires Valid() && job in calls && calls[job].Pushing?
      modifies `calls, `log
      ensures Valid() && D.IsStep(old(View()), D.SendCancelled(job), View())
    {
      calls := calls - {job};
      log := log + [D.Abandoned(job)];
    }

    method Close(job: D.JobId, user: D.User, ghost reason: D.Reason)
      requires Valid()
      modifies `futures, `jobs, `calls, `log
      ensures Valid() && View() == D.Closed(old(View()), job, user, reason)
    {
      if user in futures { futures := futures[user := futures[user] - {job}]; }
      jobs := jobs - {job};
      calls := calls - {job};
      log := log + [D.Left(job, reason)];
    }

    /** The `finally` of `dispatch`. */
    method Finish(job: D.JobId, user: D.User, ghost reason: D.Reason) returns (made: Deque)
      requires Valid() && job in calls && calls[job].Waiting? && job in ever && ever[job].owner == user
      requires reason.Answered? ==> user in futures && job in futures[user] && futures[user][job]
      modifies this
      ensures Valid() && fresh(made) && repr <= old(repr) + {made}
      ensures D.IsStep(old(View()), D.Leave(job, reason, made), View())
    {
      made := DropJob(user, job);
      Close(job, user, reason);
    }

    method SubmitResult(user: D.User, job: D.JobId, now: real) returns (accepted: bool)
      requires Valid()
      modifies `futures, `log
      ensures Valid() && accepted == D.Accepts(old(View()), user, job, now)
      ensures D.IsStep(old(View()), D.Submit(user, job, now), View())
    {
      if job !in jobs || jobs[job].owner != user { return false; }
      if now > jobs[job].deadline { return false; }
      if user !in futures || job !in futures[user] || futures[user][job] { return false; }
      futures := futures[user := futures[user][job := true]];
      log := log + [D.Accepted(job, user, now)];
      accepted := true;
    }

    /** The `finally` of `poll`. */
    method ReleaseSlot(user: D.User, ghost poll: D.PollId)
      requires Valid() && poll in polls && polls[poll].user == user
      modifies `pollers, `polls
      ensures Valid() && polls == old(polls) - {poll}
    {
      ghost var left := polls - {poll};
      forall u ensures |D.HeldBy(left, u)| == |D.HeldBy(polls, u)| - if u == user then 1 else 0 {
        OneFewerHeld(polls, poll, u);
      }
      polls := left;
      var remaining := Pollers(user) - 1;
      pollers := if remaining > 0 then pollers[user := remaining] else pollers - {user};
    }

    /** The loop of `_poll_hold` from one suspension to the next. The poll looks at the deque it has held since
        it began, whatever `queues` says by now. */
    method Look(user: D.User, queue: Deque, timedOut: bool, ghost poll: D.PollId) returns (outcome: PollOutcome)
      requires Valid() && poll in polls && polls[poll].user == user && polls[poll].queue == queue
      modifies this, queue
      ensures Valid() && repr == old(repr)
      ensures D.IsStep(old(View()), if timedOut then D.TimeOut(poll) else D.Wake(poll), View())
      ensures outcome == if old(queue.items) != [] then Got(old(queue.items)[0])
                         else if timedOut then Quiet
                         else Holding
    {
      outcome := LookInto(user, queue, timedOut, poll);
    }

    method LookInto(user: D.User, queue: Deque, timedOut: bool, ghost poll: D.PollId) returns (outcome: PollOutcome)
      requires Valid() && poll in polls && polls[poll].user == user && polls[poll].queue == queue
      modifies this, queue
      ensures Valid() && repr == old(repr) && View() == D.Look(old(View()), poll, !timedOut)
      ensures outcome == if old(queue.items) != [] then Got(old(queue.items)[0])
                         else if timedOut then Quiet
                         else Holding
    {
      if queue.items != [] {
        var job := queue.PopLeft();
        assert Heap() == old(Heap())[queue := queue.items];
        log := log + [D.Handed(job, user, polls[poll].since)];
        ReleaseSlot(user, poll);
        outcome := Got(job);
      } else if timedOut {
        ReleaseSlot(user, poll);
        outcome := Quiet;
      } else {
        outcome := Holding;
      }
    }

    method TakeSlot(user: D.User, queue: Deque, ghost poll: D.PollId)
      requires Valid() && poll !in polls && user in queues && queues[user] == queue
      modifies `pollers, `polls
      ensures Valid() && View() == D.WithHold(old(View()), poll, user)
    {
      pollers := pollers[user := Pollers(user) + 1];
      polls := polls[poll := D.Hold(user, queue, |log|)];
      forall u ensures Pollers(u) == |D.HeldBy(polls, u)| {
        OneMoreHeld(old(polls), poll, polls[poll], u);
        assert old(Pollers(u)) == |D.HeldBy(old(polls), u)|;
      }
    }

    /** `poll` up to its first suspension or its return; a poll past the cap is refused and changes nothing. */
    method BeginPoll(user: D.User, ghost poll: D.PollId) returns (outcome: PollOutcome, made: Deque?)
      requires Valid() && poll !in polls
      modifies this, repr
      ensures Valid()
      ensures outcome.Refused? <==> |old(View()).Held(user)| >= 5
      ensures outcome.Refused? ==> View() == old(View())
      ensures !outcome.Refused? ==> made != null && fresh(made) && repr <= old(repr) + {made}
      ensures !outcome.Refused? ==> D.IsStep(old(View()), D.BeginPoll(poll, user, made), View())
      ensures outcome.Got? ==> old(View()).Queue(user) != [] && outcome.job == old(View()).Queue(user)[0]
    {
      if Pollers(user) >= D.MAX_POLLS_PER_USER { return Refused, null; }
      var queue;
      queue, made := QueueOf(user);
      TakeSlot(user, queue, poll);
      outcome := LookInto(user, queue, false, poll);
    }

    /** A held poll whose connection goes away. */
    method AbortPoll(user: D.User, ghost poll: D.PollId)
      requires Valid() && poll in polls && polls[poll].user == user
      modifies `pollers, `polls
      ensures Valid() && D.IsStep(old(View()), D.AbortPoll(poll), View())
    {
      ReleaseSlot(user, poll);
    }

    method AttachWs(user: D.User, socket: D.Socket) returns (attached: bool)
      requires Valid()
      modifies `sockets
      ensures Valid() && (attached <==> |old(View()).Sockets(user)| < 5)
      ensures attached ==> D.IsStep(old(View()), D.Attach(user, socket), View())
      ensures !attached ==> View() == old(View())
    {
      var mine := if user in sockets then sockets[user] else {};
      if |mine| >= D.MAX_WS_PER_USER { return false; }
      sockets := sockets[user := mine + {socket}];
      attached := true;
    }

    /** One user in the sweep of `_prune`, last seen at `seen`: whoever was seen lately, or still has anything in
        flight here, or `elsewhere` - a machine, a handoff or a voice state -, is kept. */
    method Forget(user: D.User, seen: real, now: real, elsewhere: bool) returns (forgotten: bool)
      requires Valid()
      modifies `queues, `sockets
      ensures Valid()
      ensures forgotten <==> now - seen >= 3600.0 && D.Idle(old(View()), user) && !elsewhere
      ensures forgotten ==> D.IsStep(old(View()), D.Forget(user), View())
      ensures !forgotten ==> View() == old(View())
    {
      var cutoff := now - STALE_USER_SECONDS;
      if seen > cutoff { return false; }
      if Pollers(user) != 0 || (user in queues && queues[user].items != [])
         || (user in futures && futures[user] != map[]) || user in sockets || elsewhere {
        return false;
      }
      queues := queues - {user};
      sockets := sockets - {user};
      forgotten := true;
    }
  }

  lemma {:induction false} OneMoreHeld<R>(
    polls: map<D.PollId, D.Hold<R>>, poll: D.PollId, hold: D.Hold<R>, user: D.User)
    requires poll !in polls
    ensures |D.HeldBy(polls[poll := hold], user)| == |D.HeldBy(polls, user)| + if user == hold.user then 1 else 0
  {
    assert D.HeldBy(polls[poll := hold], user) == D.HeldBy(polls, user) + if user == hold.user then {poll} else {};
  }

  lemma {:induction false} OneFewerHeld<R>(polls: map<D.PollId, D.Hold<R>>, poll: D.PollId, user: D.User)
    requires poll in polls
    ensures |D.HeldBy(polls - {poll}, user)| == |D.HeldBy(polls, user)| - if user == polls[poll].user then 1 else 0
  {
    assert D.HeldBy(polls, user) == D.HeldBy(polls - {poll}, user) + if user == polls[poll].user then {poll} else {};
  }

  lemma {:induction false} WithoutSnoc(queue: seq<D.JobId>, last: D.JobId, job: D.JobId)
    ensures D.Without(queue + [last], job) == D.Without(queue, job) + if last == job then [] else [last]
  {
    if queue == [] {
      assert queue + [last] == [last];
    } else {
      assert (queue + [last])[1..] == queue[1..] + [last];
      WithoutSnoc(queue[1..], last, job);
    }
  }
}
