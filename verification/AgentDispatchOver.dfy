/** Whether a job is still handed out after its dispatch is over, exactly. */
module AgentDispatchOver {
  import opened AgentDispatch
  import opened AgentDispatchSafety
  import opened AgentDispatchLines

  // ---- Continuations of a run --------------------------------------------------------------------------

  ghost function After<R>(s: State<R>, more: seq<Action<R>>): State<R>
    decreases |more|
  {
    if more == [] then s else After(Step(s, more[0]), more[1..])
  }

  lemma {:induction false} AfterOne<R>(s: State<R>, a: Action<R>)
    ensures After(s, [a]) == Step(s, a)
  {
    assert [a][1..] == [];
  }

  lemma {:induction false} AfterTwo<R>(s: State<R>, first: seq<Action<R>>, second: seq<Action<R>>)
    ensures After(s, first + second) == After(After(s, first), second)
    decreases |first|
  {
    if first == [] {
      assert first + second == second;
    } else {
      AfterTwo(Step(s, first[0]), first[1..], second);
      assert (first + second)[1..] == first[1..] + second;
    }
  }

  lemma {:induction false} RunAfter<R>(actions: seq<Action<R>>, more: seq<Action<R>>)
    ensures Run(actions + more) == After(Run(actions), more)
    decreases |more|
  {
    if more == [] {
      assert actions + more == actions;
    } else {
      RunAfter(actions + [more[0]], more[1..]);
      assert actions + more == actions + [more[0]] + more[1..];
      assert (actions + [more[0]])[..|actions|] == actions;
    }
  }

  lemma {:induction false} StepGood<R>(s: State<R>, a: Action<R>)
    requires Good(s)
    ensures Good(Step(s, a))
  {
    if Enabled(s, a) { NextGood(s, a); }
  }

  lemma {:induction false} AfterGood<R>(s: State<R>, more: seq<Action<R>>)
    requires Good(s)
    ensures Good(After(s, more))
    decreases |more|
  {
    if more != [] {
      StepGood(s, more[0]);
      AfterGood(Step(s, more[0]), more[1..]);
    }
  }

  lemma {:induction false} NeverHanded<R>(s: State<R>, more: seq<Action<R>>, job: JobId)
    requires Good(s) && job in s.ever && !MayBeHanded(s, job)
    ensures HandOuts(After(s, more).log, job) == HandOuts(s.log, job)
    decreases |more|
  {
    if more != [] {
      StepGood(s, more[0]);
      if Enabled(s, more[0]) {
        StaysOut(s, more[0], job);
        EverGrows(s, more[0]);
      }
      NeverHanded(Step(s, more[0]), more[1..], job);
    }
  }

  // ---- Handing a job out -------------------------------------------------------------------------------

  lemma {:induction false} Inhabited(s: set<int>)
    ensures s == {} || exists x :: x in s
  {
    if !exists x :: x in s { assert s == {}; }
  }

  /** An identifier above all that are in use. */
  lemma {:induction false} Above(used: set<int>) returns (next: int)
    ensures forall x :: x in used ==> x < next
  {
    if used == {} { return 0; }
    Inhabited(used);
    var x :| x in used;
    next := Above(used - {x});
    assert forall y :: y in used ==> y == x || y in used - {x};
    if next <= x { next := x + 1; }
  }

  ghost predicate Housed<R>(s: State<R>) {
    (forall p :: p in s.polls ==> s.polls[p].queue in s.heap) && (forall u :: u in s.queues ==> s.queues[u] in s.heap)
  }

  /** Only polls and deques have changed. */
  ghost predicate Polled<R>(s: State<R>, t: State<R>, job: JobId) {
    && Housed(t) && t.calls == s.calls && t.ever == s.ever && t.heap.Keys == s.heap.Keys
    && HandOuts(t.log, job) >= HandOuts(s.log, job)
  }

  /** And `job` has been handed out. */
  ghost predicate Served<R>(s: State<R>, t: State<R>, job: JobId) {
    Polled(s, t, job) && HandOuts(t.log, job) > HandOuts(s.log, job)
  }

  lemma {:induction false} LookPolls<R>(s: State<R>, poll: PollId, stay: bool, job: JobId)
    requires Housed(s) && poll in s.polls
    ensures var t, items := Look(s, poll, stay), Items(s.heap, s.polls[poll].queue);
      && Polled(s, t, job) && (items != [] && items[0] == job ==> Served(s, t, job))
  {
    var items := Items(s.heap, s.polls[poll].queue);
    if items == [] {
      LookWaits(s, poll, stay);
    } else {
      LookTakes(s, poll, stay);
      HandOutsNote(s.log, Handed(items[0], s.polls[poll].user, s.polls[poll].since), job);
    }
  }

  lemma {:induction false} ServedAfter<R>(s: State<R>, t: State<R>, u: State<R>, job: JobId)
    requires Polled(s, t, job) && Served(t, u, job)
    ensures Served(s, u, job)
  {
  }

  lemma {:induction false} HolderExists<R>(s: State<R>, r: R) returns (poll: PollId)
    requires Ahead(s, r) != []
    ensures poll in s.polls && s.polls[poll].queue == r
  {
    Inhabited(Holders(s.polls, r));
    poll :| poll in Holders(s.polls, r);
  }

  /** The first `k` of the deque's line have been taken, and no other line has changed. */
  ghost predicate Advanced<R>(s: State<R>, t: State<R>, r: R, k: nat) {
    && k <= |Line(s, r)| && Line(t, r) == Line(s, r)[k..]
    && forall q :: q in t.heap && q != r ==> Line(t, q) == Line(s, q)
  }

  lemma {:induction false} HeldAfter<R>(s: State<R>, t: State<R>, u: State<R>, r: R, k: nat, job: JobId)
    requires Polled(s, t, job) && Advanced(s, t, r, 1)
    requires Served(t, u, job) && Advanced(t, u, r, k)
    ensures Served(s, u, job) && Advanced(s, u, r, k + 1)
  {
    forall q | q in u.heap && q != r ensures Line(u, q) == Line(s, q) { assert Line(u, q) == Line(t, q); }
  }

  lemma {:induction false} TakenServes<R>(s: State<R>, r: R, poll: PollId, t: State<R>, job: JobId)
    requires Housed(s) && poll in s.polls && s.polls[poll].queue == r && Ahead(s, r) != [] && t == Look(s, poll, true)
    ensures Polled(s, t, job) && (job == Ahead(s, r)[0] ==> Served(s, t, job))
    ensures Advanced(s, t, r, 1) && Ahead(t, r) == Ahead(s, r)[1..]
  {
    PoppedLines(s, poll);
    LookPolls(s, poll, true, job);
  }

  /** A poll that holds the deque wakes. */
  lemma {:induction false} WakeServes<R>(s: State<R>, r: R, job: JobId) returns (first: seq<Action<R>>, t: State<R>)
    requires Housed(s) && Ahead(s, r) != []
    ensures t == After(s, first) && Polled(s, t, job) && (job == Ahead(s, r)[0] ==> Served(s, t, job))
    ensures Advanced(s, t, r, 1) && Ahead(t, r) == Ahead(s, r)[1..]
  {
    var p := HolderExists(s, r);
    first, t := [Wake(p)], Look(s, p, true);
    AfterOne(s, Wake(p));
    TakenServes(s, r, p, t, job);
  }

  /** The polls that hold a deque, woken one by one, take its line up to the job at `k`. */
  lemma {:induction false} HandHeld<R>(s: State<R>, r: R, k: nat, job: JobId)
    returns (more: seq<Action<R>>, u: State<R>)
    requires Housed(s) && k < |Ahead(s, r)| && Ahead(s, r)[k] == job
    ensures u == After(s, more) && Served(s, u, job) && Advanced(s, u, r, k + 1)
    decreases k
  {
    var t;
    more, t := WakeServes(s, r, job);
    if k == 0 {
      u := t;
    } else {
      var rest;
      rest, u := HandHeld(t, r, k - 1, job);
      HeldAfter(s, t, u, r, k, job);
      AfterTwo(s, more, rest);
      more := more + rest;
    }
  }

  lemma {:induction false} TimedOutQueue<R>(s: State<R>, user: User, poll: PollId)
    requires user in s.queues && s.Queue(user) != [] && poll in s.polls
    ensures var t, mine := Look(s, poll, false), s.polls[poll].queue == s.queues[user];
      t.queues == s.queues && t.Queue(user) == if mine then s.Queue(user)[1..] else s.Queue(user)
  {
    if Items(s.heap, s.polls[poll].queue) == [] { LookWaits(s, poll, false); } else { LookTakes(s, poll, false); }
  }

  lemma {:induction false} TimedOutHeld<R>(s: State<R>, user: User, poll: PollId)
    requires poll in s.Held(user)
    ensures |Look(s, poll, false).Held(user)| < |s.Held(user)|
  {
    if Items(s.heap, s.polls[poll].queue) == [] { LookWaits(s, poll, false); } else { LookTakes(s, poll, false); }
    assert Look(s, poll, false).Held(user) == s.Held(user) - {poll};
  }

  lemma {:induction false} BegunQueue<R>(s: State<R>, poll: PollId, user: User, spare: R, job: JobId)
    requires Housed(s) && user in s.queues && s.Queue(user) != [] && poll !in s.polls && spare !in s.heap
    ensures var t := Begun(s, poll, user, spare);
      && user in t.queues && t.Queue(user) == s.Queue(user)[1..]
      && Polled(s, t, job) && (s.Queue(user)[0] == job ==> Served(s, t, job))
  {
    LookPolls(WithHold(s, poll, user), poll, true, job);
  }

  /** The next poll of a user that may step: one that is held gives up, or else a new one begins. */
  lemma {:induction false} NextPoll<R>(s: State<R>, user: User, spare: R, job: JobId) returns (first: seq<Action<R>>)
    requires Housed(s) && user in s.queues && s.Queue(user) != [] && spare !in s.heap
    ensures var t := After(s, first);
      && user in t.queues && Polled(s, t, job)
      && if t.Queue(user) == s.Queue(user) then |t.Held(user)| < |s.Held(user)|
         else t.Queue(user) == s.Queue(user)[1..] && (s.Queue(user)[0] == job ==> Served(s, t, job))
  {
    Inhabited(s.Held(user));
    if p :| p in s.Held(user) {
      first := [TimeOut(p)];
      AfterOne(s, TimeOut(p));
      LookPolls(s, p, false, job);
      TimedOutQueue(s, user, p);
      TimedOutHeld(s, user, p);
    } else {
      var next := Above(s.polls.Keys);
      first := [BeginPoll(next, user, spare)];
      AfterOne(s, BeginPoll(next, user, spare));
      BegunQueue(s, next, user, spare, job);
    }
  }

  /** Polls of the user take the queue up to the job at `k`. */
  lemma {:induction false} HandQueued<R>(s: State<R>, user: User, k: nat, spare: R) returns (more: seq<Action<R>>)
    requires Housed(s) && user in s.queues && k < |s.Queue(user)| && spare !in s.heap
    ensures var t := After(s, more);
      Served(s, t, s.Queue(user)[k]) && user in t.queues && t.Queue(user) == s.Queue(user)[k + 1..]
    decreases k, |s.Held(user)|
  {
    var first := NextPoll(s, user, spare, s.Queue(user)[k]);
    var t := After(s, first);
    if t.Queue(user) != s.Queue(user) && k == 0 {
      more := first;
    } else {
      var rest := HandQueued(t, user, if t.Queue(user) == s.Queue(user) then k else k - 1, spare);
      ServedAfter(s, t, After(t, rest), s.Queue(user)[k]);
      AfterTwo(s, first, rest);
      more := first + rest;
    }
  }

  lemma {:induction false} HandOut<R>(s: State<R>, job: JobId, spare: R) returns (more: seq<Action<R>>)
    requires Good(s) && job in s.ever && MayBeHanded(s, job) && spare !in s.heap
    ensures HandOuts(After(s, more).log, job) > HandOuts(s.log, job)
  {
    if Pushed(s, job) {
      AfterOne(s, SendSucceeds(job, spare));
      HandOutsNote(s.log, Handed(job, s.ever[job].owner, |s.log|), job);
      more := [SendSucceeds(job, spare)];
    } else {
      var r :| r in s.heap && job in Line(s, r);
      var k :| 0 <= k < |Line(s, r)| && Line(s, r)[k] == job;
      if Current(s.queues, r) {
        var user :| user in s.queues && s.queues[user] == r;
        more := HandQueued(s, user, k, spare);
      } else {
        var t;
        more, t := HandHeld(s, r, k, job);
      }
    }
  }

  /** In any good state: a job is handed out in some continuation if and only if a push of it is in flight, or its
      user's queue has it, or a deque that is no longer the queue has it no further back than polls hold the deque.
      `spare` is a deque not yet allocated. */
  lemma {:induction false} HandedLaterExactly<R>(s: State<R>, job: JobId, spare: R)
    requires Good(s) && job in s.ever && spare !in s.heap
    ensures (exists more :: HandOuts(After(s, more).log, job) > HandOuts(s.log, job)) <==> MayBeHanded(s, job)
  {
    if MayBeHanded(s, job) {
      var more := HandOut(s, job, spare);
    } else {
      forall more ensures HandOuts(After(s, more).log, job) == HandOuts(s.log, job) { NeverHanded(s, more, job); }
    }
  }

  // ---- At the end of a dispatch --------------------------------------------------------------------------

  /** Some poll that is held now would be handed the job. */
  ghost predicate HeldAhead<R>(s: State<R>, job: JobId) {
    exists r :: r in s.heap && job in Ahead(s, r)
  }

  lemma {:induction false} CurrentQueue<R>(s: State<R>, r: R, job: JobId)
    requires Good(s) && Current(s.queues, r) && job in Line(s, r)
    ensures job in s.ever && s.ever[job].owner in s.queues && s.queues[s.ever[job].owner] == r
  {
    var u :| u in s.queues && s.queues[u] == r;
    QueuedMayWait(s, u, job);
  }

  lemma {:induction false} DroppedInLine<R>(s: State<R>, job: JobId, deque: R)
    requires Good(s) && job in s.ever && deque !in s.heap
    ensures InLine(DropJob(s, s.ever[job].owner, job, deque), job) <==> HeldAhead(s, job)
  {
    var user := s.ever[job].owner;
    var t := DropJob(s, user, job, deque);
    if user in s.queues { DropLines(s, user, job, deque); }
    forall r | r in s.heap ensures job in Line(t, r) <==> job in Ahead(s, r) {
      if Current(s.queues, r) && job in Line(s, r) { CurrentQueue(s, r, job); }
    }
  }

  lemma {:induction false} LeavingState<R>(s: State<R>, t: State<R>, job: JobId, reason: Reason, deque: R)
    requires Good(s) && Enabled(s, Leave(job, reason, deque)) && t == Finished(s, job, reason, deque)
    ensures t.ever == s.ever && t.heap.Keys <= s.heap.Keys + {deque}
    ensures MayBeHanded(t, job) <==> HeldAhead(s, job)
  {
    DroppedInLine(s, job, deque);
    SameLines(DropJob(s, s.ever[job].owner, job, deque), t);
  }

  /** A dispatch that leaves through its `finally`: its job is handed out afterwards in some continuation if and only
      if a poll held at that moment is about to be handed it. */
  lemma {:induction false} HandedAfterLeavingExactly<R>(
    s: State<R>, t: State<R>, job: JobId, reason: Reason, deque: R, spare: R)
    requires Good(s) && Enabled(s, Leave(job, reason, deque)) && t == Step(s, Leave(job, reason, deque))
    requires spare !in s.heap && spare != deque
    ensures (exists more :: HandOuts(After(t, more).log, job) > HandOuts(t.log, job)) <==> HeldAhead(s, job)
  {
    StepGood(s, Leave(job, reason, deque));
    LeavingState(s, t, job, reason, deque);
    HandedLaterExactly(t, job, spare);
  }

  lemma {:induction false} CancelledState<R>(s: State<R>, t: State<R>, job: JobId)
    requires Enabled(s, SendCancelled(job)) && t == Next(s, SendCancelled(job))
    ensures t.ever == s.ever && t.heap == s.heap && (MayBeHanded(t, job) <==> InLine(s, job))
  {
    SameLines(s, t);
  }

  /** A dispatch cancelled during its push: also if the job is still in the queue. */
  lemma {:induction false} HandedAfterCancelExactly<R>(s: State<R>, t: State<R>, job: JobId, spare: R)
    requires Good(s) && Enabled(s, SendCancelled(job)) && t == Step(s, SendCancelled(job))
    requires job in s.ever && spare !in s.heap
    ensures (exists more :: HandOuts(After(t, more).log, job) > HandOuts(t.log, job)) <==> InLine(s, job)
  {
    StepGood(s, SendCancelled(job));
    CancelledState(s, t, job);
    HandedLaterExactly(t, job, spare);
  }

  // ---- Whole runs ----------------------------------------------------------------------------------------

  /** A dispatch of `u` ends only when nothing can hand its job out any more. */
  ghost predicate ClearFor<R>(s: State<R>, a: Action<R>, u: User) {
    match a
    case Leave(job, _, _) => job in s.ever && s.ever[job].owner == u ==> !HeldAhead(s, job)
    case SendCancelled(job) => job in s.ever && s.ever[job].owner == u ==> !InLine(s, job)
    case _ => true
  }

  ghost predicate ClearRunFor<R>(actions: seq<Action<R>>, u: User) {
    forall k :: 0 <= k < |actions| ==> ClearFor(Run(actions[..k]), actions[k], u)
  }

  /** The jobs of `u` whose dispatch is over can no longer be handed out. */
  ghost predicate OverIsOut<R>(s: State<R>, u: User) {
    forall j :: j in s.ever && s.ever[j].owner == u && j !in s.calls ==> !InLine(s, j)
  }

  lemma {:induction false} EndedIsOut<R>(s: State<R>, a: Action<R>, job: JobId)
    requires Good(s) && Enabled(s, a) && (a.Leave? || a.SendCancelled?) && a.job == job && job in s.ever
    requires ClearFor(s, a, s.ever[job].owner)
    ensures !InLine(Next(s, a), job)
  {
    match a
    case Leave(_, reason, deque) => LeavingState(s, Finished(s, job, reason, deque), job, reason, deque);
    case SendCancelled(_) => CancelledState(s, Next(s, a), job);
  }

  lemma {:induction false} NextOverIsOut<R>(s: State<R>, a: Action<R>, u: User)
    requires Good(s) && Enabled(s, a) && OverIsOut(s, u) && ClearFor(s, a, u)
    ensures OverIsOut(Next(s, a), u)
  {
    var t := Next(s, a);
    EverGrows(s, a);
    forall j | j in t.ever && t.ever[j].owner == u && j !in t.calls ensures !InLine(t, j) {
      CallsNext(s, a, j);
      if j in s.calls { EndedIsOut(s, a, j); } else { StaysOut(s, a, j); }
    }
  }

  ghost predicate NoneLate(log: seq<Event>, u: User) {
    forall i, k :: 0 <= i < k < |log| && (log[i].Left? || log[i].Abandoned?) && log[k].Handed? && log[k].user == u ==>
      log[i].job != log[k].job
  }

  ghost predicate Grows(log: seq<Event>, more: seq<Event>) {
    more == log || (|more| == |log| + 1 && more == log + [more[|log|]])
  }

  lemma {:induction false} NoteGrows<R>(s: State<R>, e: Event)
    ensures Grows(s.log, Note(s, e).log)
  {
  }

  lemma {:induction false} LookGrows<R>(s: State<R>, poll: PollId, stay: bool)
    requires poll in s.polls
    ensures Grows(s.log, Look(s, poll, stay).log)
  {
    if Items(s.heap, s.polls[poll].queue) == [] { LookWaits(s, poll, stay); } else { LookTakes(s, poll, stay); }
  }

  lemma {:induction false} StagedSameLog<R>(s: State<R>, job: JobId, ticket: Ticket, order: seq<Socket>, deque: R)
    ensures Staged(s, job, ticket, order, deque).log == s.log
  {
  }

  lemma {:induction false} DropSameLog<R>(s: State<R>, user: User, job: JobId, deque: R)
    ensures DropJob(s, user, job, deque).log == s.log
  {
  }

  lemma {:induction false} FailedSameLog<R>(s: State<R>, job: JobId)
    requires Enabled(s, SendFails(job))
    ensures Failed(s, job).log == s.log
  {
  }

  lemma {:induction false} SubmitGrows<R>(s: State<R>, user: User, job: JobId, now: real)
    ensures Grows(s.log, Submitted(s, user, job, now).log)
  {
    NoteGrows(s, Accepted(job, user, now));
  }

  lemma {:induction false} LeaveGrows<R>(s: State<R>, job: JobId, reason: Reason, deque: R)
    requires job in s.ever
    ensures Grows(s.log, Sent(s, job, deque).log) && Grows(s.log, Finished(s, job, reason, deque).log)
  {
    var owner := s.ever[job].owner;
    DropSameLog(Delivered(s, job, owner), owner, job, deque);
    DropSameLog(s, owner, job, deque);
    NoteGrows(s, Handed(job, owner, |s.log|));
    NoteGrows(s, Left(job, reason));
  }

  /** A step notes one event at most. */
  lemma {:induction false} LogNext<R>(s: State<R>, a: Action<R>, t: State<R>)
    requires Enabled(s, a) && t == Next(s, a)
    ensures Grows(s.log, t.log)
  {
    match a
    case Dispatch(job, ticket, order, deque) => StagedSameLog(s, job, ticket, order, deque);
    case SendSucceeds(job, deque) => LeaveGrows(s, job, TimedOut, deque);
    case SendFails(job) => FailedSameLog(s, job);
    case SendCancelled(job) => NoteGrows(s.(calls := s.calls - {job}), Abandoned(job));
    case Leave(job, reason, deque) => LeaveGrows(s, job, reason, deque);
    case BeginPoll(poll, user, deque) => LookGrows(WithHold(WithQueue(s, user, deque), poll, user), poll, true);
    case Wake(poll) => LookGrows(s, poll, true);
    case TimeOut(poll) => LookGrows(s, poll, false);
    case Submit(user, job, now) => SubmitGrows(s, user, job, now);
    case _ =>
  }

  lemma {:induction false} EndedIsOver<R>(s: State<R>, i: nat)
    requires Good(s) && i < |s.log| && (s.log[i].Left? || s.log[i].Abandoned?)
    ensures s.log[i].job in s.ever && s.log[i].job !in s.calls
  {
    assert s.log[i].Left? ==> HasLeft(s.log, s.log[i].job);
    assert s.log[i].Abandoned? ==> Abandoned(s.log[i].job) in s.log;
  }

  lemma {:induction false} LastIsOwn<R>(t: State<R>, log: seq<Event>, e: Event)
    requires Good(t) && t.log == log + [e] && e.Handed?
    ensures e.job in t.ever && t.ever[e.job].owner == e.user
  {
    assert t.log[|log|] == e && Follows(t.log[..|log|], e, t.ever);
  }

  lemma {:induction false} HandedIsLive<R>(s: State<R>, a: Action<R>, t: State<R>, e: Event)
    requires e.Handed? && Good(s) && Enabled(s, a) && OverIsOut(s, e.user) && t == Next(s, a) && t.log == s.log + [e]
    ensures e.job in s.ever ==> e.job in s.calls
  {
    NextGood(s, a);
    EverGrows(s, a);
    LastIsOwn(t, s.log, e);
    HandOutsNote(s.log, e, e.job);
    if e.job in s.ever && !MayBeHanded(s, e.job) { StaysOut(s, a, e.job); }
  }

  lemma {:induction false} NotedNoneLate<R>(s: State<R>, e: Event, u: User)
    requires Good(s) && NoneLate(s.log, u) && (e.Handed? && e.user == u && e.job in s.ever ==> e.job in s.calls)
    ensures NoneLate(s.log + [e], u)
  {
    forall i | 0 <= i < |s.log| && (s.log[i].Left? || s.log[i].Abandoned?)
      ensures e.Handed? && e.user == u ==> s.log[i].job != e.job {
      EndedIsOver(s, i);
    }
  }

  lemma {:induction false} NextNoneLate<R>(s: State<R>, a: Action<R>, t: State<R>, u: User)
    requires Good(s) && Enabled(s, a) && OverIsOut(s, u) && NoneLate(s.log, u) && t == Next(s, a)
    ensures NoneLate(t.log, u)
  {
    LogNext(s, a, t);
    if t.log != s.log {
      var e := t.log[|s.log|];
      if e.Handed? && e.user == u { HandedIsLive(s, a, t, e); }
      NotedNoneLate(s, e, u);
    }
  }

  lemma {:induction false} ClearPrefix<R>(actions: seq<Action<R>>, u: User)
    requires ClearRunFor(actions, u) && actions != []
    ensures var n := |actions| - 1; ClearRunFor(actions[..n], u) && ClearFor(Run(actions[..n]), actions[n], u)
  {
    var n := |actions| - 1;
    forall k | 0 <= k < n ensures ClearFor(Run(actions[..n][..k]), actions[..n][k], u) {
      assert actions[..n][..k] == actions[..k];
    }
  }

  lemma {:induction false} RunNoneLate<R>(actions: seq<Action<R>>, u: User)
    requires ClearRunFor(actions, u)
    ensures OverIsOut(Run(actions), u) && NoneLate(Run(actions).log, u)
  {
    if actions != [] {
      var n := |actions| - 1;
      var s := Run(actions[..n]);
      ClearPrefix(actions, u);
      RunNoneLate(actions[..n], u);
      RunIsGood(actions[..n]);
      if Enabled(s, actions[n]) {
        NextOverIsOut(s, actions[n], u);
        NextNoneLate(s, actions[n], Next(s, actions[n]), u);
      }
    }
  }

  /** In every run in which the dispatches of `u` end only when nothing can hand their jobs out any more, no job of
      `u` is handed out after its dispatch is over. */
  lemma {:induction false} NoneHandedAfterwards<R>(actions: seq<Action<R>>, u: User, i: nat, k: nat)
    requires ClearRunFor(actions, u) && i < k < |Run(actions).log|
    requires Run(actions).log[i].Left? || Run(actions).log[i].Abandoned?
    requires Run(actions).log[k].Handed? && Run(actions).log[k].user == u
    ensures Run(actions).log[i].job != Run(actions).log[k].job
  {
    RunNoneLate(actions, u);
  }

  /** No dispatch of `u` leaves while `u` holds a poll, and none is cancelled during its push. */
  ghost predicate UnheldFor<R>(s: State<R>, a: Action<R>, u: User) {
    match a
    case Leave(job, _, _) => job in s.ever && s.ever[job].owner == u ==> s.Held(u) == {}
    case SendCancelled(job) => job in s.ever ==> s.ever[job].owner != u
    case _ => true
  }

  lemma {:induction false} AheadIsHeld<R>(s: State<R>, job: JobId)
    requires Good(s) && HeldAhead(s, job)
    ensures job in s.ever && s.Held(s.ever[job].owner) != {}
  {
    var r :| r in s.heap && job in Ahead(s, r);
    var p := HolderExists(s, r);
    assert job in Items(s.heap, s.polls[p].queue);
    assert p in s.Held(s.polls[p].user);
  }

  lemma {:induction false} UnheldIsClear<R>(s: State<R>, a: Action<R>, u: User)
    requires Good(s) && UnheldFor(s, a, u)
    ensures ClearFor(s, a, u)
  {
    if a.Leave? && HeldAhead(s, a.job) { AheadIsHeld(s, a.job); }
  }

  /** In particular where no dispatch of `u` leaves while `u` holds a poll and none is cancelled during its push. */
  lemma {:induction false} NoneHandedAfterwardsUnheld<R>(actions: seq<Action<R>>, u: User, i: nat, k: nat)
    requires forall n :: 0 <= n < |actions| ==> UnheldFor(Run(actions[..n]), actions[n], u)
    requires i < k < |Run(actions).log| && (Run(actions).log[i].Left? || Run(actions).log[i].Abandoned?)
    requires Run(actions).log[k].Handed? && Run(actions).log[k].user == u
    ensures Run(actions).log[i].job != Run(actions).log[k].job
  {
    forall n | 0 <= n < |actions| ensures ClearFor(Run(actions[..n]), actions[n], u) {
      RunIsGood(actions[..n]);
      UnheldIsClear(Run(actions[..n]), actions[n], u);
    }
    NoneHandedAfterwards(actions, u, i, k);
  }
}
