/** Job dispatch to paired agents, as the atomic steps between the awaits of `dispatch`, `push_ws`, `poll`
    and `submit_result`. Deques are objects: `R` is the type of their identities, `heap` their contents, and a
    held poll keeps the identity it started with whatever `queues` is rebound to. */
module AgentDispatch {
  type User = int
  type JobId = int
  type Socket = int
  type PollId = int

  const MAX_POLLS_PER_USER := 5
  const MAX_WS_PER_USER := 5

  /** What `_jobs` keeps of a job. */
  datatype Ticket = Ticket(owner: User, deadline: real)

  /** Where a dispatch is suspended: sending to the first of `todo`, or waiting for the result. */
  datatype Phase = Pushing(todo: seq<Socket>) | Waiting

  /** A suspended poll: its local deque, and how many events had happened when it began. */
  datatype Hold<R> = Hold(user: User, queue: R, since: nat)

  datatype Reason = Answered | TimedOut | Cancelled

  /** What an outside observer can see happen. `Handed` covers polls (`since` as in Hold) and sockets. */
  datatype Event =
    | Handed(job: JobId, user: User, since: nat)
    | Accepted(job: JobId, user: User, now: real)
    | Left(job: JobId, reason: Reason)
    | Abandoned(job: JobId)

  function Items<R>(heap: map<R, seq<JobId>>, r: R): seq<JobId> { if r in heap then heap[r] else [] }

  function HeldBy<R>(polls: map<PollId, Hold<R>>, user: User): set<PollId> {
    set p | p in polls && polls[p].user == user
  }

  datatype State<R> = State(
    heap: map<R, seq<JobId>>,
    queues: map<User, R>,
    jobs: map<JobId, Ticket>,
    futures: map<User, map<JobId, bool>>,
    sockets: map<User, set<Socket>>,
    polls: map<PollId, Hold<R>>,
    calls: map<JobId, Phase>,
    ever: map<JobId, Ticket>,
    log: seq<Event>)
  {
    function Futures(u: User): map<JobId, bool> { if u in futures then futures[u] else map[] }

    function Sockets(u: User): set<Socket> { if u in sockets then sockets[u] else {} }

    function Held(u: User): set<PollId> { HeldBy(polls, u) }

    function Queue(u: User): seq<JobId> { if u in queues then Items(heap, queues[u]) else [] }

    predicate PushInFlight(u: User) {
      exists j :: j in calls && calls[j].Pushing? && j in ever && ever[j].owner == u
    }
  }

  function Start<R>(): State<R> {
    State(map[], map[], map[], map[], map[], map[], map[], map[], [])
  }

  /** One atomic step. `deque` is the identity of the deque object the step allocates, if it allocates one. */
  datatype Action<R> =
    | Dispatch(job: JobId, ticket: Ticket, order: seq<Socket>, deque: R)
    | SendSucceeds(job: JobId, deque: R)
    | SendFails(job: JobId)
    | SendCancelled(job: JobId)
    | Leave(job: JobId, reason: Reason, deque: R)
    | BeginPoll(poll: PollId, user: User, deque: R)
    | Wake(poll: PollId)
    | TimeOut(poll: PollId)
    | AbortPoll(poll: PollId)
    | Submit(user: User, job: JobId, now: real)
    | Attach(user: User, socket: Socket)
    | Detach(user: User, socket: Socket)
    | Forget(user: User)

  // ---- Pieces shared by the steps --------------------------------------------------------------

  function Without(queue: seq<JobId>, job: JobId): (kept: seq<JobId>)
    ensures forall j :: j in kept <==> j in queue && j != job
  {
    if queue == [] then []
    else if queue[0] == job then Without(queue[1..], job)
    else [queue[0]] + Without(queue[1..], job)
  }

  /** `_queues.setdefault(user, deque())` */
  function WithQueue<R>(s: State<R>, user: User, deque: R): State<R> {
    if user in s.queues then s
    else s.(heap := s.heap[deque := []], queues := s.queues[user := deque])
  }

  /** `_drop_job`: the user's queue becomes a fresh deque without the job; the old deque object is left as it was. */
  function DropJob<R>(s: State<R>, user: User, job: JobId, deque: R): State<R> {
    if user !in s.queues then s
    else s.(heap := s.heap[deque := Without(s.Queue(user), job)], queues := s.queues[user := deque])
  }

  function Detached<R>(s: State<R>, user: User, socket: Socket): State<R> {
    s.(sockets := if s.Sockets(user) - {socket} == {} then s.sockets - {user}
                  else s.sockets[user := s.Sockets(user) - {socket}])
  }

  function Note<R>(s: State<R>, e: Event): State<R> { s.(log := s.log + [e]) }

  /** A poll looks at its own deque: it returns the oldest job, or stays or goes as `stay` says. */
  function Look<R>(s: State<R>, poll: PollId, stay: bool): State<R>
    requires poll in s.polls
  {
    var hold := s.polls[poll];
    var items := Items(s.heap, hold.queue);
    if items != [] then
      Note(s.(heap := s.heap[hold.queue := items[1..]], polls := s.polls - {poll}),
           Handed(items[0], hold.user, hold.since))
    else if stay then s
    else s.(polls := s.polls - {poll})
  }

  predicate Accepts<R>(s: State<R>, user: User, job: JobId, now: real) {
    && job in s.jobs && s.jobs[job].owner == user && now <= s.jobs[job].deadline
    && job in s.Futures(user) && !s.Futures(user)[job]
  }

  /** The user has nothing in flight, so a sweep may forget the queue. */
  predicate Idle<R>(s: State<R>, user: User) {
    s.Held(user) == {} && s.Queue(user) == [] && s.Futures(user) == map[] && s.Sockets(user) == {}
  }

  // ---- The steps ---------------------------------------------------------------------------------

  ghost predicate Enabled<R>(s: State<R>, a: Action<R>) {
    match a
    case Dispatch(job, ticket, order, deque) =>
      && job !in s.ever && deque !in s.heap
      && (forall x :: x in order <==> x in s.Sockets(ticket.owner)) && |order| == |s.Sockets(ticket.owner)|
    case SendSucceeds(job, deque) => job in s.calls && s.calls[job].Pushing? && job in s.ever && deque !in s.heap
    case SendFails(job) => job in s.calls && s.calls[job].Pushing? && s.calls[job].todo != [] && job in s.ever
    case SendCancelled(job) => job in s.calls && s.calls[job].Pushing?
    case Leave(job, reason, deque) =>
      && job in s.calls && s.calls[job].Waiting? && job in s.ever && deque !in s.heap
      && (reason.Answered? ==> job in s.Futures(s.ever[job].owner) && s.Futures(s.ever[job].owner)[job])
    case BeginPoll(poll, user, deque) => poll !in s.polls && deque !in s.heap && |s.Held(user)| < MAX_POLLS_PER_USER
    case Wake(poll) => poll in s.polls
    case TimeOut(poll) => poll in s.polls
    case AbortPoll(poll) => poll in s.polls
    case Submit(_, _, _) => true
    case Attach(user, _) => |s.Sockets(user)| < MAX_WS_PER_USER
    case Detach(_, _) => true
    case Forget(user) => Idle(s, user)
  }

  /** The job enters every table; then either a push to the attached sockets starts, in the order the set is
      listed, or there is none and the result is awaited. */
  function Enter<R>(q: State<R>, job: JobId, ticket: Ticket, order: seq<Socket>): State<R>
    requires ticket.owner in q.queues
  {
    var r := q.queues[ticket.owner];
    q.(heap := q.heap[r := Items(q.heap, r) + [job]],
       jobs := q.jobs[job := ticket],
       futures := q.futures[ticket.owner := q.Futures(ticket.owner)[job := false]],
       calls := q.calls[job := if order == [] then Waiting else Pushing(order)],
       ever := q.ever[job := ticket])
  }

  /** `dispatch` up to its first await. */
  function Staged<R>(s: State<R>, job: JobId, ticket: Ticket, order: seq<Socket>, deque: R): State<R> {
    Enter(WithQueue(s, ticket.owner, deque), job, ticket, order)
  }

  function WithHold<R>(q: State<R>, poll: PollId, user: User): State<R>
    requires user in q.queues
  {
    q.(polls := q.polls[poll := Hold(user, q.queues[user], |q.log|)])
  }

  function Begun<R>(s: State<R>, poll: PollId, user: User, deque: R): State<R> {
    Look(WithHold(WithQueue(s, user, deque), poll, user), poll, true)
  }

  function Delivered<R>(s: State<R>, job: JobId, user: User): State<R> {
    Note(s.(calls := s.calls[job := Waiting]), Handed(job, user, |s.log|))
  }

  function Sent<R>(s: State<R>, job: JobId, deque: R): State<R>
    requires job in s.ever
  {
    DropJob(Delivered(s, job, s.ever[job].owner), s.ever[job].owner, job, deque)
  }

  function Failed<R>(s: State<R>, job: JobId): State<R>
    requires job in s.calls && s.calls[job].Pushing? && s.calls[job].todo != [] && job in s.ever
  {
    var todo := s.calls[job].todo;
    Detached(s.(calls := s.calls[job := if |todo| == 1 then Waiting else Pushing(todo[1..])]),
             s.ever[job].owner, todo[0])
  }

  function Closed<R>(s: State<R>, job: JobId, user: User, reason: Reason): State<R> {
    Note(s.(futures := if user in s.futures then s.futures[user := s.futures[user] - {job}] else s.futures,
            jobs := s.jobs - {job},
            calls := s.calls - {job}), Left(job, reason))
  }

  /** The `finally` of `dispatch`. */
  function Finished<R>(s: State<R>, job: JobId, reason: Reason, deque: R): State<R>
    requires job in s.ever
  {
    Closed(DropJob(s, s.ever[job].owner, job, deque), job, s.ever[job].owner, reason)
  }

  function Submitted<R>(s: State<R>, user: User, job: JobId, now: real): State<R> {
    if !Accepts(s, user, job, now) then s
    else Note(s.(futures := s.futures[user := s.Futures(user)[job := true]]), Accepted(job, user, now))
  }

  ghost function Next<R>(s: State<R>, a: Action<R>): State<R>
    requires Enabled(s, a)
  {
    match a
    case Dispatch(job, ticket, order, deque) => Staged(s, job, ticket, order, deque)
    case SendSucceeds(job, deque) => Sent(s, job, deque)
    case SendFails(job) => Failed(s, job)
    case SendCancelled(job) => Note(s.(calls := s.calls - {job}), Abandoned(job))
    case Leave(job, reason, deque) => Finished(s, job, reason, deque)
    case BeginPoll(poll, user, deque) => Begun(s, poll, user, deque)
    case Wake(poll) => Look(s, poll, true)
    case TimeOut(poll) => Look(s, poll, false)
    case AbortPoll(poll) => s.(polls := s.polls - {poll})
    case Submit(user, job, now) => Submitted(s, user, job, now)
    case Attach(user, socket) => s.(sockets := s.sockets[user := s.Sockets(user) + {socket}])
    case Detach(user, socket) => Detached(s, user, socket)
    case Forget(user) => s.(queues := s.queues - {user}, sockets := s.sockets - {user})
  }

  ghost predicate IsStep<R>(s: State<R>, a: Action<R>, t: State<R>) { Enabled(s, a) && t == Next(s, a) }

  /** An action that cannot happen changes nothing, so every sequence of actions is a run. */
  ghost function Step<R>(s: State<R>, a: Action<R>): State<R>
  {
    if Enabled(s, a) then Next(s, a) else s
  }

  ghost function Run<R>(actions: seq<Action<R>>): State<R>
  {
    if actions == [] then Start() else Step(Run(actions[..|actions| - 1]), actions[|actions| - 1])
  }
}
