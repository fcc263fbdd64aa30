/** What each operation on tunnels answers and leaves, said of the tunnels themselves: which are live, whose they are,
    how old, and what is pinned to what. A listing is complete if it has every live token, as the dictionary's does. */
module TunnelAnswers {
  import opened Messages
  import opened TunnelTables
  import TunnelSpend

  ghost predicate Complete(s: State, listing: seq<Token>) {
    forall t :: t in s.tunnels ==> t in listing
  }

  /** The tunnel is registered and no older than `ttl` at that time. */
  ghost predicate LiveAt(s: State, token: Token, at: real, ttl: real) {
    token in s.tunnels && at - s.tunnels[token].createdAt <= ttl
  }

  /** Exactly the tunnels that are no older than `ttl` are left, with their records. */
  ghost predicate OnlyLive(s: State, t: State, at: real, ttl: real) {
    && (forall x :: x in t.tunnels <==> LiveAt(s, x, at, ttl))
    && (forall x :: x in t.tunnels ==> t.tunnels[x] == s.tunnels[x])
  }

  lemma {:induction false} SweptIsLive(s: State, listing: seq<Token>, at: real, ttl: real)
    requires Complete(s, listing)
    ensures OnlyLive(s, Sweep(s, listing, at, ttl), at, ttl)
  {
    forall x ensures x in Sweep(s, listing, at, ttl).tunnels <==> LiveAt(s, x, at, ttl)
             ensures x in Sweep(s, listing, at, ttl).tunnels ==> Sweep(s, listing, at, ttl).tunnels[x] == s.tunnels[x] {
      SweepIsExact(s, listing, at, ttl, x);
    }
  }

  // ---- Closing -------------------------------------------------------------------------------------------

  /** The requester may close the tunnel: it is live, and theirs or nobody asks whose it is. */
  ghost predicate Closable(s: State, token: Token, requester: Option<Owner>, at: real, ttl: real) {
    LiveAt(s, token, at, ttl) && (requester == None || requester == Some(s.tunnels[token].owner))
  }

  /** A close succeeds exactly if the token names a live tunnel and the requester is its owner or not given; then that
      tunnel goes, and in any case every other live tunnel stays exactly as it was. */
  lemma {:induction false} CloseAnswer(
    s: State, token: Token, requester: Option<Owner>, listing: seq<Token>, at: real, limits: Settings)
    requires Complete(s, listing)
    ensures var t := Step(s, Close(token, requester, listing, at), limits);
      var closes := Closable(s, token, requester, at, limits.ttl);
      && (MayClose(Sweep(s, listing, at, limits.ttl), token, requester) <==> closes)
      && (forall x :: x in t.tunnels <==> LiveAt(s, x, at, limits.ttl) && !(x == token && closes))
      && (forall x :: x in t.tunnels ==> t.tunnels[x] == s.tunnels[x])
  {
    SweptIsLive(s, listing, at, limits.ttl);
  }

  /** In particular nobody else's tunnel is touched. */
  lemma {:induction false} OthersStayOpen(
    s: State, token: Token, requester: Owner, listing: seq<Token>, at: real, limits: Settings, x: Token)
    requires Complete(s, listing) && LiveAt(s, x, at, limits.ttl) && s.tunnels[x].owner != requester
    ensures var t := Step(s, Close(token, Some(requester), listing, at), limits);
      x in t.tunnels && t.tunnels[x] == s.tunnels[x]
  {
    CloseAnswer(s, token, Some(requester), listing, at, limits);
  }

  // ---- Opening and looking up ----------------------------------------------------------------------------

  /** The live tunnels of an owner. */
  ghost function LiveOf(s: State, owner: Owner, at: real, ttl: real): set<Token> {
    set x | x in s.tunnels && LiveAt(s, x, at, ttl) && s.tunnels[x].owner == owner
  }

  lemma {:induction false} SweptOwned(s: State, listing: seq<Token>, owner: Owner, at: real, limits: Settings)
    requires Consistent(s, limits.maxPerUser) && Complete(s, listing)
    ensures Sweep(s, listing, at, limits.ttl).Live(owner) == LiveOf(s, owner, at, limits.ttl)
  {
    var w := Sweep(s, listing, at, limits.ttl);
    SweepConsistent(s, listing, at, limits.ttl, limits.maxPerUser);
    SweptIsLive(s, listing, at, limits.ttl);
    forall x ensures x in w.Live(owner) <==> x in LiveOf(s, owner, at, limits.ttl) {
      assert x in w.tunnels ==> x in TokensOf(w.byOwner, w.tunnels[x].owner);
      assert x in TokensOf(w.byOwner, owner) ==> x in w.tunnels && w.tunnels[x].owner == owner;
    }
  }

  /** An open is granted exactly if the owner has fewer live tunnels than the cap; then the new tunnel has nothing
      spent and no streams and may send at once only if no socket has to ack it. Live tunnels stay as they were. */
  lemma {:induction false} OpenAnswer(
    s: State, token: Token, owner: Owner, now: real, ws: Option<Socket>, listing: seq<Token>, at: real,
    limits: Settings)
    requires Consistent(s, limits.maxPerUser) && Complete(s, listing) && token !in s.issued
    ensures var t := Step(s, Open(token, owner, now, ws, listing, at), limits);
      var grants := |LiveOf(s, owner, at, limits.ttl)| < limits.maxPerUser;
      && (token in t.tunnels <==> grants)
      && (grants ==>
            t.tunnels[token]
            == Record(owner, now, TunnelSpend.State(TunnelSpend.Meter(0, now, 0), []), {}, ws, ws == None))
      && (forall x :: x != token ==> (x in t.tunnels <==> LiveAt(s, x, at, limits.ttl)))
      && (forall x :: x != token && x in t.tunnels ==> t.tunnels[x] == s.tunnels[x])
  {
    assert token !in s.tunnels;
    SweptIsLive(s, listing, at, limits.ttl);
    SweptOwned(s, listing, owner, at, limits);
  }

  /** A tunnel is found exactly if it is live at both readings of the clock. */
  lemma {:induction false} LookupAnswer(
    s: State, token: Token, now: real, listing: seq<Token>, at: real, limits: Settings)
    requires Complete(s, listing)
    ensures var t := Step(s, Lookup(token, now, listing, at), limits);
      && (token in t.tunnels <==> LiveAt(s, token, at, limits.ttl) && LiveAt(s, token, now, limits.ttl))
      && (forall x :: x != token ==> (x in t.tunnels <==> LiveAt(s, x, at, limits.ttl)))
      && (forall x :: x in t.tunnels ==> t.tunnels[x] == s.tunnels[x])
  {
    SweptIsLive(s, listing, at, limits.ttl);
  }

  // ---- Acks, streams and frames --------------------------------------------------------------------------

  /** An ack is taken exactly if one is awaited and unresolved and, for a yes, the tunnel is there; a yes pins the
      tunnel to the socket it came from, and nothing else of any tunnel changes. */
  lemma {:induction false} ResolveAnswer(s: State, token: Token, ws: Socket, ok: bool, limits: Settings)
    ensures var t := Step(s, ResolveAck(token, ws, ok), limits);
      var taken := token in s.acks && s.acks[token] == false && (ok ==> token in s.tunnels);
      && (AckWanted(s, token, ok) <==> taken) && t.tunnels.Keys == s.tunnels.Keys
      && (!taken ==> t == s) && (taken ==> t.acks == s.acks[token := true])
      && (taken && ok ==>
            t.tunnels[token] == s.tunnels[token].(ws := Some(ws), openAcked := true) && (token, ws) in t.accepted)
      && (forall x :: x in t.tunnels && !(taken && ok && x == token) ==> t.tunnels[x] == s.tunnels[x])
  {
  }

  /** An ack is awaited exactly for a tunnel that is there, and counts as unresolved from then on. */
  lemma {:induction false} AwaitBegins(s: State, token: Token, limits: Settings)
    ensures var t := Step(s, BeginAwait(token), limits);
      && t.tunnels == s.tunnels
      && (token in s.tunnels ==> token in t.acks && t.acks[token] == false)
      && (token !in s.tunnels ==> t.acks == s.acks)
      && (forall x :: x != token ==> (x in t.acks <==> x in s.acks) && (x in s.acks ==> t.acks[x] == s.acks[x]))
  {
  }

  /** When waiting for an ack ends, the ack is forgotten, and the tunnel goes if the wait was given up. */
  lemma {:induction false} AwaitAnswer(s: State, token: Token, gaveUp: bool, limits: Settings)
    ensures var t := Step(s, EndAwait(token, gaveUp), limits);
      && token !in t.acks
      && (forall x :: x in t.tunnels <==> x in s.tunnels && !(gaveUp && x == token))
      && (forall x :: x in t.tunnels ==> t.tunnels[x] == s.tunnels[x])
      && (forall x :: x in t.acks <==> x in s.acks && x != token)
  {
  }

  /** What opening a stream makes of its tunnel: the stream is there exactly if it was, or fewer than sixteen were. */
  ghost predicate StreamOpened(before: Record, after: Record, id: StreamId) {
    && (id in after.streams <==> id in before.streams || |before.streams| < 16)
    && (forall other :: other != id ==> (other in after.streams <==> other in before.streams))
    && after == before.(streams := after.streams)
  }

  /** Opening a stream looks the tunnel up first; on a live one it is opened within the cap of sixteen, and no other
      live tunnel changes. */
  lemma {:induction false} StreamAnswer(
    s: State, token: Token, id: StreamId, now: real, listing: seq<Token>, at: real, limits: Settings)
    requires Complete(s, listing)
    ensures var t := Step(s, OpenStream(token, id, now, listing, at), limits);
      && (token in t.tunnels <==> LiveAt(s, token, at, limits.ttl) && LiveAt(s, token, now, limits.ttl))
      && (token in t.tunnels ==> StreamOpened(s.tunnels[token], t.tunnels[token], id))
      && (forall x :: x != token ==> (x in t.tunnels <==> LiveAt(s, x, at, limits.ttl)))
      && (forall x :: x != token && x in t.tunnels ==> t.tunnels[x] == s.tunnels[x])
  {
    LookupAnswer(s, token, now, listing, at, limits);
  }

  /** Dropping a stream takes that stream from that tunnel and changes nothing else. */
  lemma {:induction false} DropAnswer(s: State, token: Token, id: StreamId, limits: Settings)
    ensures var t := Step(s, DropStream(token, id), limits);
      && t.tunnels.Keys == s.tunnels.Keys
      && (token in s.tunnels ==>
            && (forall other :: other in t.tunnels[token].streams <==> other in s.tunnels[token].streams && other != id)
            && t.tunnels[token] == s.tunnels[token].(streams := t.tunnels[token].streams))
      && (forall x :: x != token && x in t.tunnels ==> t.tunnels[x] == s.tunnels[x])
  {
  }

  /** A frame goes out exactly if the tunnel is there, its opening was acked, and it is pinned to a socket; it goes to
      that socket. */
  lemma {:induction false} SendAnswer(s: State, token: Token, limits: Settings)
    ensures var t := Step(s, SendFrame(token), limits);
      var sends := token in s.tunnels && s.tunnels[token].openAcked && s.tunnels[token].ws.Some?;
      && (CanSend(s, token) <==> sends) && t.tunnels == s.tunnels
      && t.sent == if sends then s.sent + [(token, s.tunnels[token].ws.value)] else s.sent
  {
  }

  // ---- Spending ------------------------------------------------------------------------------------------

  /** A call of `spend` is refused exactly if it would exceed the lifetime cap; otherwise it passes at once exactly if
      it fits what is left of a window less than a second old, or of a new one, and else it sleeps. It is charged at
      once only if it passes. */
  lemma {:induction false} SpendAnswer(m: TunnelSpend.Meter, n: nat, now: real, limit: nat, cap: nat)
    ensures var (after, verdict) := TunnelSpend.Begin(m, n, now, limit, cap);
      var used := if now - m.windowStart < 1.0 then m.used else 0;
      && (verdict.Refused? <==> m.total + n > cap)
      && (verdict.Admitted? <==> m.total + n <= cap && used + n <= limit)
      && (verdict.Asleep? <==> m.total + n <= cap && used + n > limit)
      && after.total == m.total + (if verdict.Admitted? then n else 0)
      && (verdict.Admitted? ==> after.used == used + n) && (verdict.Asleep? ==> after.used == used)
      && after.windowStart == (if !verdict.Refused? && now - m.windowStart >= 1.0 then now else m.windowStart)
      && (verdict.Refused? ==> after == m)
  {
  }

  /** A call that wakes is charged in full, in a window that starts then. */
  lemma {:induction false} WakeAnswer(m: TunnelSpend.Meter, n: nat, at: real)
    ensures TunnelSpend.Finish(m, n, at) == TunnelSpend.Meter(m.total + n, at, n)
  {
  }
}
