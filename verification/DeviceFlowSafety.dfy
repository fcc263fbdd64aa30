/** Safety of the device flow over every interleaving of transactions: one claim, one key, for the approver. */
module DeviceFlowSafety {
  import opened Messages
  import opened DeviceFlow

  // ---- The invariant -------------------------------------------------------------------------------------

  ghost predicate Resolved(log: seq<Event>, hash: Hash) {
    exists i :: 0 <= i < |log| && log[i].hash == hash && (log[i].WasApproved? || log[i].WasDenied?)
  }

  ghost predicate ClaimedIn(log: seq<Event>, hash: Hash) {
    exists i :: 0 <= i < |log| && log[i].WasClaimed? && log[i].hash == hash
  }

  ghost predicate MintedIn(log: seq<Event>, hash: Hash) {
    exists i :: 0 <= i < |log| && log[i].WasMinted? && log[i].hash == hash
  }

  /** A row's status says what has happened to its code. */
  ghost predicate RowTold(hash: Hash, row: Row, log: seq<Event>) {
    match row.status
    case Pending => !Resolved(log, hash) && !ClaimedIn(log, hash)
    case Approved => row.subject.Some? && WasApproved(hash, row.subject.value) in log && !ClaimedIn(log, hash)
    case Denied => !ClaimedIn(log, hash)
    case Complete => true
  }

  ghost predicate RowsOk(rows: map<Hash, Row>, issued: map<Hash, real>, log: seq<Event>) {
    && (forall h :: h in rows ==> h in issued && rows[h].expiresAt == issued[h] && RowTold(h, rows[h], log))
    && (forall h, g :: h in rows && g in rows && rows[h].userCode == rows[g].userCode ==> h == g)
    && (forall i :: 0 <= i < |log| ==> log[i].hash in issued)
  }

  ghost predicate PollsOk(
    reading: map<PollId, Reading>, claims: map<PollId, Claim>, issued: map<Hash, real>, log: seq<Event>) {
    && (forall p :: p in reading ==> reading[p].hash in issued && p !in claims)
    && (forall p :: p in reading ==> reading[p].row.expiresAt == issued[reading[p].hash])
    && (forall p :: p in claims ==> ClaimedBy(log, claims[p]) && !MintedIn(log, claims[p].hash))
    && (forall p, q :: p in claims && q in claims && claims[p].hash == claims[q].hash ==> p == q)
  }

  ghost predicate ClaimedBy(log: seq<Event>, claim: Claim) {
    exists i :: 0 <= i < |log| && log[i].WasClaimed? && log[i].hash == claim.hash && log[i].user == claim.user
  }

  /** What may happen next. */
  ghost predicate Follows(log: seq<Event>, e: Event, issued: map<Hash, real>) {
    match e
    case WasApproved(hash, _) => !Resolved(log, hash) && !ClaimedIn(log, hash)
    case WasDenied(hash) => !Resolved(log, hash) && !ClaimedIn(log, hash)
    case WasClaimed(hash, user, now) =>
      WasApproved(hash, user) in log && !ClaimedIn(log, hash) && hash in issued && now < issued[hash]
    case WasMinted(hash, user) => ClaimedBy(log, Claim(hash, user)) && !MintedIn(log, hash)
  }

  ghost predicate Orderly(log: seq<Event>, issued: map<Hash, real>) {
    forall i :: 0 <= i < |log| ==> Follows(log[..i], log[i], issued)
  }

  ghost predicate Good(s: State) {
    RowsOk(s.rows, s.issued, s.log) && PollsOk(s.reading, s.claims, s.issued, s.log) && Orderly(s.log, s.issued)
  }

  lemma {:induction false} OrderlyNote(log: seq<Event>, e: Event, issued: map<Hash, real>)
    requires Orderly(log, issued) && Follows(log, e, issued)
    ensures Orderly(log + [e], issued)
  {
    forall i | 0 <= i < |log + [e]| ensures Follows((log + [e])[..i], (log + [e])[i], issued) {
      assert (log + [e])[..i] == log[..i];
    }
    assert log[..|log|] == log;
  }

  lemma {:induction false} NotedKinds(log: seq<Event>, e: Event, hash: Hash)
    ensures Resolved(log + [e], hash) <==> Resolved(log, hash) || (e.hash == hash && (e.WasApproved? || e.WasDenied?))
    ensures ClaimedIn(log + [e], hash) <==> ClaimedIn(log, hash) || (e.hash == hash && e.WasClaimed?)
    ensures MintedIn(log + [e], hash) <==> MintedIn(log, hash) || (e.hash == hash && e.WasMinted?)
  {
    var more := log + [e];
    assert more[|log|] == e && forall i :: 0 <= i < |log| ==> more[i] == log[i];
  }

  lemma {:induction false} StillClaimed(log: seq<Event>, e: Event, claim: Claim)
    requires ClaimedBy(log, claim)
    ensures ClaimedBy(log + [e], claim)
  {
    var i :| 0 <= i < |log| && log[i].WasClaimed? && log[i].hash == claim.hash && log[i].user == claim.user;
    assert (log + [e])[i] == log[i];
  }

  // ---- Every step keeps it -------------------------------------------------------------------------------

  lemma {:induction false} CreateGood(s: State, a: Action)
    requires Good(s) && a.Create? && Enabled(s, a)
    ensures Good(Next(s, a))
  {
  }

  lemma {:induction false} ResolveGood(s: State, hash: Hash, row: Row, e: Event)
    requires Good(s) && hash in s.rows && s.rows[hash].status.Pending?
    requires e.hash == hash && (e.WasApproved? || e.WasDenied?)
    requires row == s.rows[hash].(status := row.status, subject := row.subject)
    requires if e.WasApproved? then row.status.Approved? && row.subject == Some(e.user) else row.status.Denied?
    ensures Good(s.(rows := s.rows[hash := row], log := s.log + [e]))
  {
    OrderlyNote(s.log, e, s.issued);
    forall h ensures ClaimedIn(s.log + [e], h) <==> ClaimedIn(s.log, h)
             ensures MintedIn(s.log + [e], h) <==> MintedIn(s.log, h)
             ensures Resolved(s.log + [e], h) <==> Resolved(s.log, h) || h == hash {
      NotedKinds(s.log, e, h);
    }
    forall p | p in s.claims ensures ClaimedBy(s.log + [e], s.claims[p]) { StillClaimed(s.log, e, s.claims[p]); }
  }

  lemma {:induction false} TouchedOk(rows: map<Hash, Row>, r: Reading, issued: map<Hash, real>, log: seq<Event>)
    requires RowsOk(rows, issued, log)
    ensures RowsOk(Touched(rows, r), issued, log)
  {
  }

  lemma {:induction false} ClaimGood(s: State, poll: PollId, r: Reading, row: Row)
    requires Good(s) && poll in s.reading && s.reading[poll] == r && r.now < r.row.expiresAt
    requires Claimable(s.rows, r.hash)
    requires row == s.rows[r.hash].(status := Complete, lastPollAt := row.lastPollAt)
    ensures var user := s.rows[r.hash].subject.value;
      Good(s.(rows := s.rows[r.hash := row], reading := s.reading - {poll},
              claims := s.claims[poll := Claim(r.hash, user)],
              log := s.log + [WasClaimed(r.hash, user, r.now)]))
  {
    var user := s.rows[r.hash].subject.value;
    var e := WasClaimed(r.hash, user, r.now);
    assert RowTold(r.hash, s.rows[r.hash], s.log);
    OrderlyNote(s.log, e, s.issued);
    forall h ensures ClaimedIn(s.log + [e], h) <==> ClaimedIn(s.log, h) || h == r.hash
             ensures MintedIn(s.log + [e], h) <==> MintedIn(s.log, h)
             ensures Resolved(s.log + [e], h) <==> Resolved(s.log, h) {
      NotedKinds(s.log, e, h);
    }
    forall p | p in s.claims ensures ClaimedBy(s.log + [e], s.claims[p]) && s.claims[p].hash != r.hash {
      StillClaimed(s.log, e, s.claims[p]);
      assert ClaimedBy(s.log, s.claims[p]) ==> ClaimedIn(s.log, s.claims[p].hash);
    }
    assert (s.log + [e])[|s.log|] == e;
    UnmintedUnlessClaimed(s.log, s.issued, r.hash);
  }

  lemma {:induction false} UnmintedUnlessClaimed(log: seq<Event>, issued: map<Hash, real>, hash: Hash)
    requires Orderly(log, issued) && !ClaimedIn(log, hash)
    ensures !MintedIn(log, hash)
  {
    forall i | 0 <= i < |log| && log[i].WasMinted? ensures log[i].hash != hash {
      assert Follows(log[..i], log[i], issued);
      var k :| 0 <= k < i && log[..i][k].WasClaimed? && log[..i][k].hash == log[i].hash;
      assert log[k] == log[..i][k];
    }
  }

  lemma {:induction false} SettleGood(s: State, poll: PollId)
    requires Good(s) && poll in s.reading
    ensures Good(Next(s, Settle(poll)))
  {
    var r := s.reading[poll];
    TouchedOk(s.rows, r, s.issued, s.log);
    if Settled(s.rows, r).0.Completed? { ClaimGood(s, poll, r, Settled(s.rows, r).1[r.hash]); }
  }

  lemma {:induction false} MintedKinds(log: seq<Event>, e: Event)
    requires e.WasMinted?
    ensures forall h :: Resolved(log + [e], h) <==> Resolved(log, h)
    ensures forall h :: ClaimedIn(log + [e], h) <==> ClaimedIn(log, h)
    ensures forall h :: MintedIn(log + [e], h) <==> MintedIn(log, h) || h == e.hash
  {
    forall h ensures Resolved(log + [e], h) <==> Resolved(log, h)
             ensures ClaimedIn(log + [e], h) <==> ClaimedIn(log, h)
             ensures MintedIn(log + [e], h) <==> MintedIn(log, h) || h == e.hash {
      NotedKinds(log, e, h);
    }
  }

  lemma {:induction false} MintedPolls(s: State, poll: PollId, e: Event)
    requires PollsOk(s.reading, s.claims, s.issued, s.log) && poll in s.claims
    requires e == WasMinted(s.claims[poll].hash, s.claims[poll].user)
    ensures PollsOk(s.reading, s.claims - {poll}, s.issued, s.log + [e])
  {
    MintedKinds(s.log, e);
    forall p | p in s.claims ensures ClaimedBy(s.log + [e], s.claims[p]) { StillClaimed(s.log, e, s.claims[p]); }
  }

  lemma {:induction false} MintedRows(s: State, e: Event)
    requires RowsOk(s.rows, s.issued, s.log) && e.WasMinted? && e.hash in s.issued
    ensures RowsOk(s.rows, s.issued, s.log + [e])
  {
    MintedKinds(s.log, e);
    assert forall x :: x in s.log ==> x in s.log + [e];
  }

  lemma {:induction false} MintGood(s: State, poll: PollId)
    requires Good(s) && poll in s.claims
    ensures Good(Next(s, Mint(poll)))
  {
    var claim := s.claims[poll];
    var e := WasMinted(claim.hash, claim.user);
    assert ClaimedBy(s.log, claim);
    OrderlyNote(s.log, e, s.issued);
    MintedPolls(s, poll, e);
    MintedRows(s, e);
  }

  lemma {:induction false} NextGood(s: State, a: Action)
    requires Good(s) && Enabled(s, a)
    ensures Good(Next(s, a))
  {
    match a
    case Create(_, _, _, _, _, _) => CreateGood(s, a);
    case Sweep(_) =>
    case Approve(userCode, user) =>
      var h := PendingRow(s.rows, userCode);
      ResolveGood(s, h, s.rows[h].(status := Approved, subject := Some(user)), WasApproved(h, user));
    case Deny(userCode) =>
      var h := PendingRow(s.rows, userCode);
      ResolveGood(s, h, s.rows[h].(status := Denied), WasDenied(h));
    case ReadRow(_, _, _) =>
    case Settle(poll) => SettleGood(s, poll);
    case Mint(poll) => MintGood(s, poll);
    case MintFails(_) =>
  }

  lemma {:induction false} RunIsGood(actions: seq<Action>)
    ensures Good(Run(actions))
  {
    if actions != [] {
      var n := |actions| - 1;
      RunIsGood(actions[..n]);
      if Enabled(Run(actions[..n]), actions[n]) { NextGood(Run(actions[..n]), actions[n]); }
    }
  }

  // ---- What that promises ----------------------------------------------------------------------------------

  /** In every run a device code is claimed at most once, by a poll that read the clock before the code's expiry,
      for the user of the one approval of that code, which was never denied. */
  lemma {:induction false} ClaimedOnce(actions: seq<Action>, i: nat)
    requires i < |Run(actions).log| && Run(actions).log[i].WasClaimed?
    ensures var s := Run(actions);
      var e := s.log[i];
      && e.hash in s.issued && e.now < s.issued[e.hash]
      && (exists k :: 0 <= k < i && s.log[k] == WasApproved(e.hash, e.user))
      && (forall k :: 0 <= k < |s.log| && s.log[k].hash == e.hash ==>
            && (s.log[k].WasClaimed? ==> k == i)
            && (s.log[k].WasApproved? ==> s.log[k].user == e.user)
            && !s.log[k].WasDenied?)
  {
    RunIsGood(actions);
    var s := Run(actions);
    var e := s.log[i];
    assert Follows(s.log[..i], e, s.issued);
    var k :| 0 <= k < i && s.log[..i][k] == WasApproved(e.hash, e.user);
    assert s.log[k] == WasApproved(e.hash, e.user);
    forall m | 0 <= m < |s.log| && s.log[m].hash == e.hash
      ensures (s.log[m].WasClaimed? ==> m == i) && (s.log[m].WasApproved? ==> m == k) && !s.log[m].WasDenied? {
      OnceResolved(s, k, m);
      if s.log[m].WasClaimed? {
        OnceClaimed(s, i, m);
        OnceClaimed(s, m, i);
      }
    }
  }

  lemma {:induction false} OnceResolved(s: State, k: nat, m: nat)
    requires Orderly(s.log, s.issued) && k < |s.log| && m < |s.log| && s.log[k].hash == s.log[m].hash
    requires s.log[k].WasApproved?
    ensures s.log[m].WasApproved? || s.log[m].WasDenied? ==> m == k
  {
    assert Follows(s.log[..k], s.log[k], s.issued) && Follows(s.log[..m], s.log[m], s.issued);
    assert m < k ==> s.log[..k][m] == s.log[m];
    assert k < m ==> s.log[..m][k] == s.log[k];
  }

  lemma {:induction false} OnceClaimed(s: State, i: nat, m: nat)
    requires Orderly(s.log, s.issued) && i < |s.log| && m < |s.log| && s.log[i].hash == s.log[m].hash
    requires s.log[i].WasClaimed? && s.log[m].WasClaimed?
    ensures m >= i
  {
    assert Follows(s.log[..i], s.log[i], s.issued);
    assert forall k :: 0 <= k < i ==> s.log[..i][k] == s.log[k];
  }

  /** And at most one key is minted for it, for the user of its claim. */
  lemma {:induction false} MintedOnce(actions: seq<Action>, i: nat)
    requires i < |Run(actions).log| && Run(actions).log[i].WasMinted?
    ensures var s := Run(actions);
      var e := s.log[i];
      && (forall k :: 0 <= k < i && s.log[k].WasMinted? ==> s.log[k].hash != e.hash)
      && (exists k :: 0 <= k < i && s.log[k].WasClaimed? && s.log[k].hash == e.hash && s.log[k].user == e.user)
  {
    RunIsGood(actions);
    var s := Run(actions);
    var e := s.log[i];
    assert Follows(s.log[..i], e, s.issued);
    assert forall k :: 0 <= k < i ==> s.log[..i][k] == s.log[k];
    var k :| 0 <= k < i && s.log[..i][k].WasClaimed? && s.log[..i][k].hash == e.hash && s.log[..i][k].user == e.user;
  }

  /** What a poll is answered with, given the row it read and the table when it settles. */
  lemma {:induction false} PollAnswer(rows: map<Hash, Row>, r: Reading)
    ensures var outcome, row := Settled(rows, r).0, r.row;
      var hasty := row.lastPollAt.Some? && r.now - row.lastPollAt.value < row.interval;
      var served := r.now < row.expiresAt && !hasty;
      && (outcome.Expired? <==> r.now >= row.expiresAt)
      && (outcome.SlowDown? <==> r.now < row.expiresAt && hasty)
      && (outcome.SlowDown? ==> outcome.interval >= row.interval && outcome.interval >= 5.0
                                && (outcome.interval == row.interval || outcome.interval == 5.0))
      && (outcome.AccessDenied? <==> served && row.status == Denied)
      && (outcome.StillPending? <==> served && row.status == Pending)
      && (outcome.Completed? <==> served && row.status == Approved && r.hash in rows
                                  && rows[r.hash].status == Approved && rows[r.hash].subject != None)
      && (outcome.Completed? ==> Some(outcome.user) == rows[r.hash].subject)
      && !outcome.UnknownCode?
  {
  }

  /** What a poll leaves: a pending one notes its time, a claim completes the row, and every refusal leaves the table
      as it was. No other row changes. */
  lemma {:induction false} PollLeaves(rows: map<Hash, Row>, r: Reading)
    ensures var (outcome, after) := Settled(rows, r);
      && after.Keys == rows.Keys && (forall h :: h in rows && h != r.hash ==> after[h] == rows[h])
      && (outcome.StillPending? && r.hash in rows ==> after[r.hash] == rows[r.hash].(lastPollAt := Some(r.now)))
      && (outcome.Completed? ==>
            r.hash in rows && after[r.hash] == rows[r.hash].(lastPollAt := Some(r.now), status := Complete))
      && (!outcome.StillPending? && !outcome.Completed? ==> after == rows)
  {
  }

  /** What the other transactions make of the table: a new code is pending until its time, with a poll interval and
      nobody behind it, in a table swept of every row whose time has passed; and an approval or a denial changes the
      one pending row with that user code, from pending on for good. */
  lemma {:induction false} TableAfter(s: State, a: Action)
    requires Good(s) && Enabled(s, a)
    ensures var t := Next(s, a);
      match a
      case Create(hash, userCode, now, sweepAt, interval, ttl) =>
        && hash in t.rows && t.rows[hash] == Row(userCode, Pending, None, interval, now + ttl, None)
        && (forall h :: h != hash ==> (h in t.rows <==> h in s.rows && sweepAt <= s.rows[h].expiresAt))
        && (forall h :: h != hash && h in t.rows ==> t.rows[h] == s.rows[h] && s.rows[h].userCode != userCode)
      case Sweep(at) =>
        && (forall h :: h in t.rows <==> h in s.rows && at <= s.rows[h].expiresAt)
        && (forall h :: h in t.rows ==> t.rows[h] == s.rows[h])
      case Approve(userCode, user) =>
        && t.rows.Keys == s.rows.Keys
        && (forall h :: h in s.rows ==>
              t.rows[h] == if s.rows[h].userCode == userCode && s.rows[h].status == Pending
                           then s.rows[h].(status := Approved, subject := Some(user)) else s.rows[h])
      case Deny(userCode) =>
        && t.rows.Keys == s.rows.Keys
        && (forall h :: h in s.rows ==>
              t.rows[h] == if s.rows[h].userCode == userCode && s.rows[h].status == Pending
                           then s.rows[h].(status := Denied) else s.rows[h])
      case Settle(poll) => t.rows == Settled(s.rows, s.reading[poll]).1
      case _ => t.rows == s.rows
  {
    match a
    case Create(hash, userCode, _, sweepAt, _, _) =>
      assert forall h :: h in Swept(s.rows, sweepAt) ==> s.rows[h].userCode != userCode;
    case Approve(userCode, _) => OnePending(s.rows, userCode);
    case Deny(userCode) => OnePending(s.rows, userCode);
    case _ =>
  }

  /** User codes are unique, so at most one row is pending for each. */
  lemma {:induction false} OnePending(rows: map<Hash, Row>, userCode: string)
    requires forall h, g :: h in rows && g in rows && rows[h].userCode == rows[g].userCode ==> h == g
    requires AnyPending(rows, userCode)
    ensures forall h :: h in rows ==>
      (h == PendingRow(rows, userCode) <==> rows[h].userCode == userCode && rows[h].status.Pending?)
  {
    assert IsPending(rows, PendingRow(rows, userCode), userCode);
  }

  /** One whole poll with nothing in between. */
  ghost function Polled(s: State, poll: PollId, hash: Hash, now: real): State {
    Step(Step(s, ReadRow(poll, hash, now)), Settle(poll))
  }

  /** Such a poll claims its code if and only if the code is approved, unexpired, and not polled too soon; the
      claim is for the approver, and leaves the row complete. */
  lemma {:induction false} PollClaimsExactly(s: State, poll: PollId, hash: Hash, now: real)
    requires Good(s) && poll !in s.reading && poll !in s.claims && hash in s.rows
    ensures var row, t := s.rows[hash], Polled(s, poll, hash, now);
      && (t.log != s.log <==> row.status.Approved? && now < row.expiresAt && !TooSoon(Reading(hash, now, row)))
      && (t.log != s.log ==> row.subject.Some? && t.log == s.log + [WasClaimed(hash, row.subject.value, now)]
                             && t.rows[hash].status.Complete?)
  {
  }

  ghost function PolledAll(s: State, poll: PollId, hash: Hash, times: seq<real>): State {
    if times == [] then s else Polled(PolledAll(s, poll, hash, times[..|times| - 1]), poll, hash, times[|times| - 1])
  }

  lemma {:induction false} HastyPollLeavesNoTrace(s: State, poll: PollId, hash: Hash, now: real)
    requires poll !in s.reading && poll !in s.claims && hash in s.rows
    requires now < s.rows[hash].expiresAt && TooSoon(Reading(hash, now, s.rows[hash]))
    ensures Polled(s, poll, hash, now) == s
  {
    var r := Reading(hash, now, s.rows[hash]);
    assert s.reading[poll := r] - {poll} == s.reading;
    assert Settled(s.rows, r).1 == s.rows && !Settled(s.rows, r).0.Completed?;
  }

  /** However often a client polls too soon, it leaves no trace: the exception undoes the noting of its time, and
      the interval is not raised - though section 3.5 of RFC 8628 has slow_down raise it for all later polls. */
  lemma {:induction false} HastyPollsLeaveNoTrace(s: State, poll: PollId, hash: Hash, times: seq<real>)
    requires poll !in s.reading && poll !in s.claims && hash in s.rows
    requires forall k :: 0 <= k < |times| ==>
      times[k] < s.rows[hash].expiresAt && TooSoon(Reading(hash, times[k], s.rows[hash]))
    ensures PolledAll(s, poll, hash, times) == s
  {
    if times != [] {
      var n := |times| - 1;
      HastyPollsLeaveNoTrace(s, poll, hash, times[..n]);
      HastyPollLeavesNoTrace(s, poll, hash, times[n]);
    }
  }
}
