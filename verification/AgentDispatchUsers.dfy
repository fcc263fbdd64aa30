/** A condition on a user's dispatches and polls under which none of the user's jobs is handed out twice, whatever
    other users do. */
module AgentDispatchUsers {
  import opened AgentDispatch
  import opened AgentDispatchSafety
  import opened AgentDispatchLines
  import opened AgentDispatchOver
  import opened AgentDispatchOnce

  /** While `u` holds a poll, no dispatch of `u` leaves and no push for `u` is in flight. */
  ghost predicate UndisturbedFor<R>(s: State<R>, a: Action<R>, u: User) {
    match a
    case Dispatch(_, ticket, order, _) => ticket.owner == u && order != [] ==> s.Held(u) == {}
    case Leave(job, _, _) => job in s.ever && s.ever[job].owner == u ==> s.Held(u) == {}
    case BeginPoll(_, user, _) => user == u ==> !s.PushInFlight(u)
    case _ => true
  }

  ghost predicate UndisturbedRunFor<R>(actions: seq<Action<R>>, u: User) {
    forall k :: 0 <= k < |actions| ==> UndisturbedFor(Run(actions[..k]), actions[k], u)
  }

  /** No push for `u` is in flight while `u` holds a poll. */
  ghost predicate PushesAlone<R>(s: State<R>, u: User) {
    forall j :: Pushed(s, j) && j in s.ever && s.ever[j].owner == u ==> s.Held(u) == {}
  }

  lemma {:induction false} LookHeld<R>(s: State<R>, poll: PollId, stay: bool, u: User)
    requires poll in s.polls
    ensures Look(s, poll, stay).Held(u) <= s.Held(u)
  {
    if Items(s.heap, s.polls[poll].queue) == [] { LookWaits(s, poll, stay); } else { LookTakes(s, poll, stay); }
  }

  lemma {:induction false} OtherHeld<R>(s: State<R>, poll: PollId, user: User, deque: R, u: User)
    requires user != u && poll !in s.polls
    ensures Begun(s, poll, user, deque).Held(u) <= s.Held(u)
  {
    var h := WithHold(WithQueue(s, user, deque), poll, user);
    LookHeld(h, poll, true, u);
    assert h.Held(u) == s.Held(u);
  }

  lemma {:induction false} DropHeld<R>(s: State<R>, user: User, job: JobId, deque: R)
    ensures DropJob(s, user, job, deque).polls == s.polls
  {
  }

  /** Only a poll of the user that begins adds to what the user holds. */
  lemma {:induction false} HeldNext<R>(s: State<R>, a: Action<R>, t: State<R>, u: User)
    requires Enabled(s, a) && t == Next(s, a) && !(a.BeginPoll? && a.user == u)
    ensures t.Held(u) <= s.Held(u)
  {
    match a
    case SendSucceeds(job, deque) => DropHeld(Delivered(s, job, s.ever[job].owner), s.ever[job].owner, job, deque);
    case Leave(job, reason, deque) => DropHeld(s, s.ever[job].owner, job, deque);
    case BeginPoll(poll, user, deque) => OtherHeld(s, poll, user, deque, u);
    case Wake(poll) => LookHeld(s, poll, true, u);
    case TimeOut(poll) => LookHeld(s, poll, false, u);
    case _ =>
  }

  lemma {:induction false} PushesAloneNext<R>(s: State<R>, a: Action<R>, t: State<R>, u: User)
    requires Good(s) && Enabled(s, a) && t == Next(s, a) && PushesAlone(s, u) && UndisturbedFor(s, a, u)
    ensures PushesAlone(t, u)
  {
    EverGrows(s, a);
    forall j | Pushed(t, j) && j in t.ever && t.ever[j].owner == u ensures t.Held(u) == {} {
      CallsNext(s, a, j);
      assert Pushed(s, j) && j in s.ever && s.ever[j].owner == u ==> s.PushInFlight(u);
      if !(a.BeginPoll? && a.user == u) { HeldNext(s, a, t, u); }
    }
  }

  /** A job ahead of polls is held by a poll of its owner. */
  lemma {:induction false} NothingAhead<R>(s: State<R>, job: JobId)
    requires Good(s) && job in s.ever && s.Held(s.ever[job].owner) == {}
    ensures !HeldAhead(s, job)
  {
    if HeldAhead(s, job) { AheadIsHeld(s, job); }
  }

  lemma {:induction false} DropIsCalm<R>(s: State<R>, other: JobId, job: JobId)
    requires Good(s) && job in s.ever && other in s.ever
    requires s.ever[other].owner == s.ever[job].owner ==> s.Held(s.ever[job].owner) == {}
    ensures DropsCalmly(s, other, job)
  {
    var user := s.ever[other].owner;
    if user in s.queues && job in Ahead(s, s.queues[user]) {
      assert job in Line(s, s.queues[user]) && Current(s.queues, s.queues[user]);
      CurrentQueue(s, s.queues[user], job);
      assert HeldAhead(s, job);
      NothingAhead(s, job);
    }
  }

  lemma {:induction false} PollIsCalm<R>(s: State<R>, user: User, job: JobId)
    requires Good(s) && job in s.ever && (Pushed(s, job) ==> user != s.ever[job].owner)
    ensures OutOfReach(s, user, job)
  {
    QueuedMayWait(s, user, job);
  }

  lemma {:induction false} NoneHolding<R>(s: State<R>, user: User)
    requires Good(s) && user in s.queues && s.Held(user) == {}
    ensures Holders(s.polls, s.queues[user]) == {}
  {
    forall p ensures p !in Holders(s.polls, s.queues[user]) {
      assert p in s.polls && s.polls[p].queue == s.queues[user] ==> p in s.Held(user);
    }
  }

  lemma {:induction false} UndisturbedIsCalm<R>(s: State<R>, a: Action<R>, u: User, job: JobId)
    requires Good(s) && Enabled(s, a) && PushesAlone(s, u) && UndisturbedFor(s, a, u)
    requires if a.Dispatch? && a.job == job then a.ticket.owner == u else job in s.ever && s.ever[job].owner == u
    ensures CalmFor(s, a, job)
  {
    match a
    case Dispatch(other, ticket, order, _) =>
      if other == job && order != [] && u in s.queues { NoneHolding(s, u); }
    case SendSucceeds(other, _) =>
      assert Pushed(s, other);
      DropIsCalm(s, other, job);
    case Leave(other, _, _) => DropIsCalm(s, other, job);
    case BeginPoll(_, user, _) =>
      assert Pushed(s, job) ==> s.PushInFlight(u);
      PollIsCalm(s, user, job);
    case _ =>
  }

  ghost predicate AllOnce<R>(s: State<R>, u: User) {
    forall j :: j in s.ever && s.ever[j].owner == u ==> OnceFor(s, j)
  }

  lemma {:induction false} AllOnceNext<R>(s: State<R>, a: Action<R>, t: State<R>, u: User)
    requires Good(s) && Enabled(s, a) && t == Next(s, a)
    requires PushesAlone(s, u) && AllOnce(s, u) && UndisturbedFor(s, a, u)
    ensures AllOnce(t, u)
  {
    EverGrows(s, a);
    forall j | j in t.ever && t.ever[j].owner == u ensures OnceFor(t, j) {
      if j !in s.ever { UnknownOnce(s, j); }
      UndisturbedIsCalm(s, a, u, j);
      NextOnceExactly(s, a, t, j);
    }
  }

  lemma {:induction false} RunIsAllOnce<R>(actions: seq<Action<R>>, u: User)
    requires UndisturbedRunFor(actions, u)
    ensures PushesAlone(Run(actions), u) && AllOnce(Run(actions), u)
  {
    if actions != [] {
      var n := |actions| - 1;
      var s := Run(actions[..n]);
      assert forall k :: 0 <= k < n ==> actions[..n][..k] == actions[..k];
      RunIsAllOnce(actions[..n], u);
      RunIsGood(actions[..n]);
      if Enabled(s, actions[n]) {
        PushesAloneNext(s, actions[n], Next(s, actions[n]), u);
        AllOnceNext(s, actions[n], Next(s, actions[n]), u);
      }
    }
  }

  /** In every run in which no dispatch of `u` leaves and no push for `u` is in flight while `u` holds a poll, each
      job of `u` is handed out at most once over all sockets and polls. */
  lemma {:induction false} HandedAtMostOnceTo<R>(actions: seq<Action<R>>, u: User, job: JobId)
    requires UndisturbedRunFor(actions, u) && job in Run(actions).ever && Run(actions).ever[job].owner == u
    ensures HandOuts(Run(actions).log, job) <= 1
  {
    RunIsAllOnce(actions, u);
  }
}
