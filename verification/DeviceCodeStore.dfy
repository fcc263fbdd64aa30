/** The store object over its table: the statements of each transaction, with what an exception undoes. */
module DeviceCodeStore {
  import opened Messages
  import opened DeviceFlow

  lemma {:induction false} OnlyOnePending(rows: map<Hash, Row>, userCode: string)
    requires forall h, g :: h in rows && g in rows && rows[h].userCode == rows[g].userCode ==> h == g
    requires AnyPending(rows, userCode)
    ensures forall h :: IsPending(rows, h, userCode) <==> h == PendingRow(rows, userCode)
  {
  }

  lemma {:induction false} NoRows(rows: map<Hash, Row>, hit: set<Hash>, userCode: string)
    requires !AnyPending(rows, userCode) && forall h :: h in hit <==> IsPending(rows, h, userCode)
    ensures hit == {}
  {
    if !exists h :: h in hit { assert hit == {}; }
  }

  function Resolved(row: Row, status: Status, subject: Option<User>): Row {
    row.(status := status, subject := if subject.Some? then subject else row.subject)
  }

  class Store {
    var rows: map<Hash, Row>

    ghost predicate Valid()
      reads this
    {
      forall h, g :: h in rows && g in rows && rows[h].userCode == rows[g].userCode ==> h == g
    }

    constructor ()
      ensures Valid() && rows == map[]
    {
      rows := map[];
    }

    /** `UPDATE ... WHERE user_code = ... AND status = 'pending'`; how many rows it changed. */
    method UpdatePending(userCode: string, status: Status, subject: Option<User>) returns (rowcount: nat)
      requires Valid()
      modifies this
      ensures Valid() && (rowcount > 0 <==> AnyPending(old(rows), userCode))
      ensures AnyPending(old(rows), userCode) ==>
        var h := PendingRow(old(rows), userCode);
        rows == old(rows)[h := Resolved(old(rows)[h], status, subject)]
      ensures !AnyPending(old(rows), userCode) ==> rows == old(rows)
    {
      var hit := set h | h in rows && rows[h].userCode == userCode && rows[h].status.Pending?;
      ghost var before := rows;
      assert forall h :: h in hit <==> IsPending(before, h, userCode);
      rows := map h | h in rows ::
        if h in hit then Resolved(rows[h], status, subject) else rows[h];
      rowcount := |hit|;
      if AnyPending(before, userCode) {
        OnlyOnePending(before, userCode);
        assert PendingRow(before, userCode) in hit;
      } else {
        NoRows(before, hit, userCode);
      }
    }

    method Approve(userCode: string, user: User) returns (approved: bool)
      requires Valid()
      modifies this
      ensures Valid() && (approved <==> AnyPending(old(rows), userCode))
      ensures approved ==>
        var h := PendingRow(old(rows), userCode);
        rows == old(rows)[h := old(rows)[h].(status := Status.Approved, subject := Some(user))]
      ensures !approved ==> rows == old(rows)
    {
      var rowcount := UpdatePending(userCode, Status.Approved, Some(user));
      approved := rowcount != 0;
    }

    method Deny(userCode: string) returns (denied: bool)
      requires Valid()
      modifies this
      ensures Valid() && (denied <==> AnyPending(old(rows), userCode))
      ensures denied ==>
        var h := PendingRow(old(rows), userCode);
        rows == old(rows)[h := old(rows)[h].(status := Status.Denied)]
      ensures !denied ==> rows == old(rows)
    {
      var rowcount := UpdatePending(userCode, Status.Denied, None);
      denied := rowcount != 0;
    }

    /** Deletes exactly the rows whose time has passed; a code that a poll at this time would still answer stays. */
    method SweepExpired(at: real)
      requires Valid()
      modifies this
      ensures Valid() && rows == Swept(old(rows), at)
      ensures forall h :: h in rows <==> h in old(rows) && at <= old(rows)[h].expiresAt
      ensures forall h :: h in rows ==> rows[h] == old(rows)[h]
    {
      rows := map h | h in rows && !(rows[h].expiresAt < at) :: rows[h];
    }

    /** `create`: draws user codes until one is free of the rows that the sweep left; `draws` holds such a draw. The
        device code is new. */
    method Create(hash: Hash, draws: seq<string>, now: real, sweepAt: real, interval: real, ttl: real)
      returns (userCode: string)
      requires Valid() && hash !in Swept(rows, sweepAt)
      requires exists k :: 0 <= k < |draws| && !Taken(Swept(rows, sweepAt), draws[k])
      modifies this
      ensures Valid() && !Taken(Swept(old(rows), sweepAt), userCode)
      ensures exists k :: 0 <= k < |draws| && draws[k] == userCode
                          && forall i :: 0 <= i < k ==> Taken(Swept(old(rows), sweepAt), draws[i])
      ensures rows == Swept(old(rows), sweepAt)[hash := Row(userCode, Status.Pending, None, interval, now + ttl, None)]
    {
      SweepExpired(sweepAt);
      var k := 0;
      while Taken(rows, draws[k])
        invariant 0 <= k < |draws| && rows == Swept(old(rows), sweepAt)
        invariant forall i :: 0 <= i < k ==> Taken(rows, draws[i])
        decreases |draws| - k
      {
        k := k + 1;
      }
      userCode := draws[k];
      rows := rows[hash := Row(userCode, Status.Pending, None, interval, now + ttl, None)];
    }

    method Touch(hash: Hash, now: real)
      requires Valid()
      modifies this
      ensures Valid() && rows == if hash in old(rows)
                                 then old(rows)[hash := old(rows)[hash].(lastPollAt := Some(now))] else old(rows)
    {
      if hash in rows { rows := rows[hash := rows[hash].(lastPollAt := Some(now))]; }
    }

    /** A poll after its SELECT returned `r`: its writes, then its commit or its rollback. */
    method SettlePoll(r: Reading) returns (outcome: Outcome)
      requires Valid()
      modifies this
      ensures Valid() && Settled(old(rows), r) == (outcome, rows)
    {
      var saved := rows;
      if r.now >= r.row.expiresAt {
        rows := rows - {r.hash};
        rows := saved;
        return Outcome.Expired;
      }
      var interval := r.row.interval;
      if r.row.lastPollAt.Some? && r.now - r.row.lastPollAt.value < interval {
        Touch(r.hash, r.now);
        rows := saved;
        return SlowDown(if interval >= DEFAULT_POLL_INTERVAL then interval else DEFAULT_POLL_INTERVAL);
      }
      Touch(r.hash, r.now);
      if r.row.status.Denied? {
        rows := saved;
        return AccessDenied;
      }
      if r.row.status.Complete? {
        rows := saved;
        return AlreadyClaimed;
      }
      if !r.row.status.Approved? { return StillPending; }
      if r.hash !in rows || !rows[r.hash].status.Approved? || rows[r.hash].subject.None? {
        rows := saved;
        return AlreadyClaimed;
      }
      outcome := Completed(rows[r.hash].subject.value);
      rows := rows[r.hash := rows[r.hash].(status := Status.Complete)];
    }
  }
}
