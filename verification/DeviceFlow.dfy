/** The device authorization flow (RFC 8628) over the `device_codes` table: every transaction of the store as atomic
    steps. A poll is two of them - reading its row, then everything from its first write to its commit, which
    the row's lock makes indivisible - and minting the key is a later one of its own. Other transactions may run in
    between, an exception undoes its transaction, and clock readings are arbitrary. */
module DeviceFlow {
  import opened Messages

  type Hash = int
  type User = int
  type PollId = int

  const DEFAULT_POLL_INTERVAL := 5.0

  datatype Status = Pending | Approved | Denied | Complete

  datatype Row = Row(
    userCode: string,
    status: Status,
    subject: Option<User>,
    interval: real,
    expiresAt: real,
    lastPollAt: Option<real>)

  /** A poll that has read its row. */
  datatype Reading = Reading(hash: Hash, now: real, row: Row)

  /** A claim that has been committed and whose key has not been minted yet. */
  datatype Claim = Claim(hash: Hash, user: User)

  datatype Outcome =
    | UnknownCode
    | Expired
    | SlowDown(interval: real)
    | AccessDenied
    | AlreadyClaimed
    | StillPending
    | Completed(user: User)

  datatype Event =
    | WasApproved(hash: Hash, user: User)
    | WasDenied(hash: Hash)
    | WasClaimed(hash: Hash, user: User, now: real)
    | WasMinted(hash: Hash, user: User)

  /** `issued` remembers the expiry of every code ever created. */
  datatype State = State(
    rows: map<Hash, Row>,
    reading: map<PollId, Reading>,
    claims: map<PollId, Claim>,
    issued: map<Hash, real>,
    log: seq<Event>)

  const START := State(map[], map[], map[], map[], [])

  datatype Action =
    | Create(hash: Hash, userCode: string, now: real, sweepAt: real, interval: real, ttl: real)
    | Sweep(at: real)
    | Approve(userCode: string, user: User)
    | Deny(userCode: string)
    | ReadRow(poll: PollId, hash: Hash, now: real)
    | Settle(poll: PollId)
    | Mint(poll: PollId)
    | MintFails(poll: PollId)

  function Swept(rows: map<Hash, Row>, at: real): map<Hash, Row> {
    map h | h in rows && !(rows[h].expiresAt < at) :: rows[h]
  }

  predicate Taken(rows: map<Hash, Row>, userCode: string) {
    exists h :: h in rows && rows[h].userCode == userCode
  }

  ghost predicate IsPending(rows: map<Hash, Row>, hash: Hash, userCode: string) {
    hash in rows && rows[hash].userCode == userCode && rows[hash].status.Pending?
  }

  ghost predicate AnyPending(rows: map<Hash, Row>, userCode: string) {
    exists h :: IsPending(rows, h, userCode)
  }

  ghost function PendingRow(rows: map<Hash, Row>, userCode: string): (hash: Hash)
    requires AnyPending(rows, userCode)
    ensures IsPending(rows, hash, userCode)
  {
    var h :| IsPending(rows, h, userCode); h
  }

  function TooSoon(r: Reading): bool {
    r.row.lastPollAt.Some? && r.now - r.row.lastPollAt.value < r.row.interval
  }

  function Touched(rows: map<Hash, Row>, r: Reading): map<Hash, Row> {
    if r.hash in rows then rows[r.hash := rows[r.hash].(lastPollAt := Some(r.now))] else rows
  }

  predicate Claimable(rows: map<Hash, Row>, hash: Hash) {
    hash in rows && rows[hash].status.Approved? && rows[hash].subject.Some?
  }

  /** A poll from its first write to its commit: what it answers and the table it leaves. Whatever raises leaves
      the table as it was - the deletion of an expired row and the noting of a hasty poll included. */
  function Settled(rows: map<Hash, Row>, r: Reading): (Outcome, map<Hash, Row>) {
    if r.now >= r.row.expiresAt then (Expired, rows)
    else if TooSoon(r) then
      (SlowDown(if r.row.interval >= DEFAULT_POLL_INTERVAL then r.row.interval else DEFAULT_POLL_INTERVAL), rows)
    else
      match r.row.status
      case Denied => (AccessDenied, rows)
      case Complete => (AlreadyClaimed, rows)
      case Pending => (StillPending, Touched(rows, r))
      case Approved =>
        if Claimable(rows, r.hash) then
          (Completed(rows[r.hash].subject.value),
           Touched(rows, r)[r.hash := Touched(rows, r)[r.hash].(status := Complete)])
        else (AlreadyClaimed, rows)
  }

  ghost predicate Enabled(s: State, a: Action) {
    match a
    case Create(hash, userCode, _, sweepAt, _, _) =>
      hash !in s.issued && !Taken(Swept(s.rows, sweepAt), userCode)
    case Approve(userCode, _) => AnyPending(s.rows, userCode)
    case Deny(userCode) => AnyPending(s.rows, userCode)
    case ReadRow(poll, hash, _) => poll !in s.reading && poll !in s.claims && hash in s.rows
    case Settle(poll) => poll in s.reading
    case Mint(poll) => poll in s.claims
    case MintFails(poll) => poll in s.claims
    case Sweep(_) => true
  }

  ghost function Next(s: State, a: Action): State
    requires Enabled(s, a)
  {
    match a
    case Create(hash, userCode, now, sweepAt, interval, ttl) =>
      s.(rows := Swept(s.rows, sweepAt)[hash := Row(userCode, Pending, None, interval, now + ttl, None)],
         issued := s.issued[hash := now + ttl])
    case Sweep(at) => s.(rows := Swept(s.rows, at))
    case Approve(userCode, user) =>
      var h := PendingRow(s.rows, userCode);
      s.(rows := s.rows[h := s.rows[h].(status := Approved, subject := Some(user))],
         log := s.log + [WasApproved(h, user)])
    case Deny(userCode) =>
      var h := PendingRow(s.rows, userCode);
      s.(rows := s.rows[h := s.rows[h].(status := Denied)], log := s.log + [WasDenied(h)])
    case ReadRow(poll, hash, now) => s.(reading := s.reading[poll := Reading(hash, now, s.rows[hash])])
    case Settle(poll) =>
      var r := s.reading[poll];
      var (outcome, rows) := Settled(s.rows, r);
      if outcome.Completed? then
        s.(rows := rows, reading := s.reading - {poll}, claims := s.claims[poll := Claim(r.hash, outcome.user)],
           log := s.log + [WasClaimed(r.hash, outcome.user, r.now)])
      else s.(rows := rows, reading := s.reading - {poll})
    case Mint(poll) =>
      s.(claims := s.claims - {poll}, log := s.log + [WasMinted(s.claims[poll].hash, s.claims[poll].user)])
    case MintFails(poll) => s.(claims := s.claims - {poll})
  }

  ghost function Step(s: State, a: Action): State {
    if Enabled(s, a) then Next(s, a) else s
  }

  ghost function Run(actions: seq<Action>): State {
    if actions == [] then START else Step(Run(actions[..|actions| - 1]), actions[|actions| - 1])
  }
}
