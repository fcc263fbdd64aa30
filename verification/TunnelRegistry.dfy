/** The tunnel registry object. A tunnel is a mutable record that the table shares with whoever looked it up: a call
    of `spend` keeps its record while it sleeps, even if the tunnel is dropped meanwhile. `View` forgets the sharing
    and gives the tables of TunnelTables: every method is one of its steps, so what it proves of every run holds
    here. */
module TunnelRegistry {
  import opened Messages
  import opened TunnelTables
  import TunnelSpend

  datatype OpenResult = Granted | CapExceeded | PortBlocked

  /** One tunnel's record. */
  class Tunnel {
    const owner: Owner
    const createdAt: real
    var bytesTotal: nat
    var windowStart: real
    var windowUsed: nat
    var streams: set<StreamId>
    var ws: Option<Socket>
    var openAcked: bool

    /** The sizes of the calls of `spend` asleep on this record. */
    ghost var sleeping: seq<nat>

    ghost function Value(): Record
      reads this
    {
      Record(owner, createdAt, TunnelSpend.State(TunnelSpend.Meter(bytesTotal, windowStart, windowUsed), sleeping),
             streams, ws, openAcked)
    }

    constructor (owner: Owner, now: real, ws: Option<Socket>)
      ensures Value() == Record(owner, now, TunnelSpend.Start(now), {}, ws, ws.None?)
    {
      this.owner, createdAt := owner, now;
      bytesTotal, windowStart, windowUsed, sleeping := 0, now, 0, [];
      streams, this.ws, openAcked := {}, ws, ws.None?;
    }

    method Charge(n: nat)
      modifies `bytesTotal, `windowUsed
      ensures bytesTotal == old(bytesTotal) + n && windowUsed == old(windowUsed) + n
    {
      windowUsed := windowUsed + n;
      bytesTotal := bytesTotal + n;
    }

    /** `spend` up to its sleep, or to its end if it does not sleep. */
    method BeginSpend(n: nat, now: real, limit: nat, cap: nat) returns (verdict: TunnelSpend.Verdict)
      modifies this
      ensures verdict == TunnelSpend.Begin(old(Value()).spend.meter, n, now, limit, cap).1
      ensures Value() ==
        old(Value()).(spend := TunnelSpend.Step(old(Value()).spend, TunnelSpend.Call(n, now), limit, cap))
    {
      if bytesTotal + n > cap { return TunnelSpend.Refused; }
      if now - windowStart >= 1.0 { windowStart, windowUsed := now, 0; }
      if windowUsed + n > limit {
        sleeping := sleeping + [n];
        return TunnelSpend.Asleep;
      }
      Charge(n);
      verdict := TunnelSpend.Admitted;
    }

    /** The sleeping call number `k`, of `n` bytes, wakes: it charges the record it kept. */
    method FinishSpend(ghost k: nat, n: nat, at: real, ghost limit: nat, ghost cap: nat)
      requires k < |sleeping| && sleeping[k] == n
      modifies this
      ensures Value() ==
        old(Value()).(spend := TunnelSpend.Step(old(Value()).spend, TunnelSpend.Wake(k, at), limit, cap))
    {
      windowStart, windowUsed := at, 0;
      Charge(n);
      sleeping := TunnelSpend.Remove(sleeping, k);
    }
  }

  /** A record but for its socket and its ack. */
  function Rebound(r: Record, pinned: Record): Record { r.(ws := pinned.ws, openAcked := pinned.openAcked) }

  class Registry {
    const limits: Settings

    var tunnels: map<Token, Tunnel>
    var byOwner: map<Owner, set<Token>>
    var acks: map<Token, bool>

    /** Every record made here, those of dropped tunnels included. */
    ghost var repr: set<Tunnel>
    ghost var issued: set<Token>
    ghost var accepted: set<(Token, Socket)>
    ghost var sent: seq<(Token, Socket)>

    ghost predicate Valid()
      reads this
    {
      && (forall t :: t in tunnels ==> tunnels[t] in repr)
      && (forall t, u :: t in tunnels && u in tunnels && tunnels[t] == tunnels[u] ==> t == u)
    }

    ghost function Records(): map<Token, Record>
      requires Valid()
      reads this, repr
    {
      map t | t in tunnels :: tunnels[t].Value()
    }

    ghost function View(): State
      requires Valid()
      reads this, repr
    {
      State(Records(), byOwner, acks, issued, accepted, sent)
    }

    constructor (limits: Settings)
      ensures Valid() && View() == START && this.limits == limits
    {
      this.limits := limits;
      tunnels, byOwner, acks := map[], map[], map[];
      repr, issued, accepted, sent := {}, {}, {}, [];
      new;
      assert Records() == map[];
    }

    /** Changing one record changes one entry of the view. */
    twostate lemma OneChanged(token: Token)
      requires old(Valid()) && Valid() && tunnels == old(tunnels) && token in tunnels && repr == old(repr)
      requires forall r :: r in repr && r != tunnels[token] ==> unchanged(r)
      ensures Records() == old(Records())[token := tunnels[token].Value()]
    {
      forall t | t in tunnels && t != token ensures tunnels[t].Value() == old(tunnels[t].Value()) {
        assert tunnels[t] in repr && tunnels[t] != tunnels[token];
      }
    }

    method DropTunnel(token: Token)
      requires Valid()
      modifies this, repr
      ensures Valid() && repr == old(repr) && View() == Drop(old(View()), token)
    {
      if token !in tunnels { return; }
      var record := tunnels[token];
      tunnels := tunnels - {token};
      if record.owner in byOwner { byOwner := byOwner[record.owner := byOwner[record.owner] - {token}]; }
      acks := acks - {token};
      record.streams := {};
      forall t | t in tunnels ensures tunnels[t].Value() == old(tunnels[t].Value()) { assert tunnels[t] != record; }
      assert Records() == old(Records()) - {token};
    }

    /** `listing` is the dictionary's tokens in its order, taken before the first of them is dropped. */
    method SweepExpired(listing: seq<Token>, now: real)
      requires Valid()
      modifies this, repr
      ensures Valid() && repr == old(repr) && View() == Sweep(old(View()), listing, now, limits.ttl)
    {
      assert listing[..0] == [];
      for n := 0 to |listing|
        invariant Valid() && repr == old(repr) && View() == Sweep(old(View()), listing[..n], now, limits.ttl)
      {
        assert listing[..n + 1][..n] == listing[..n];
        if listing[n] in tunnels && now - tunnels[listing[n]].createdAt > limits.ttl { DropTunnel(listing[n]); }
      }
      assert listing[..|listing|] == listing;
    }

    /** `open` after its sweep. */
    method Register(token: Token, owner: Owner, now: real, ws: Option<Socket>) returns (granted: bool)
      requires Valid() && token !in tunnels
      modifies this
      ensures Valid() && fresh(repr - old(repr))
      ensures View() == Opened(old(View()), token, owner, now, ws, limits.maxPerUser)
      ensures granted <==> token in tunnels
    {
      assert tunnels.Keys == Records().Keys;
      if |TokensOf(byOwner, owner) * tunnels.Keys| >= limits.maxPerUser { return false; }
      var record := new Tunnel(owner, now, ws);
      Enter(token, record);
      granted := true;
    }

    method Enter(token: Token, record: Tunnel)
      requires Valid() && token !in tunnels && record !in repr
      modifies `tunnels, `byOwner, `repr, `issued
      ensures Valid() && repr == old(repr) + {record} && token in tunnels
      ensures Records() == old(Records())[token := record.Value()] && issued == old(issued) + {token}
      ensures byOwner == old(byOwner)[record.owner := TokensOf(old(byOwner), record.owner) + {token}]
    {
      tunnels := tunnels[token := record];
      byOwner := byOwner[record.owner := TokensOf(byOwner, record.owner) + {token}];
      repr, issued := repr + {record}, issued + {token};
    }

    method OpenTunnel(
      token: Token, owner: Owner, portOk: bool, now: real, ws: Option<Socket>, listing: seq<Token>, sweptAt: real)
      returns (result: OpenResult)
      requires Valid() && token !in issued && token !in tunnels
      modifies this, repr
      ensures Valid() && fresh(repr - old(repr))
      ensures !portOk ==> result.PortBlocked? && View() == old(View())
      ensures portOk ==> View() == Step(old(View()), Open(token, owner, now, ws, listing, sweptAt), limits)
      ensures portOk ==> (result.Granted? <==> token in tunnels) && !result.PortBlocked?
    {
      if !portOk { return PortBlocked; }
      ghost var before := View();
      SweepIsExact(before, listing, sweptAt, limits.ttl, token);
      SweepExpired(listing, sweptAt);
      assert token !in Records();
      var granted := Register(token, owner, now, ws);
      result := if granted then Granted else CapExceeded;
    }

    method LookupTunnel(token: Token, now: real, listing: seq<Token>, sweptAt: real) returns (record: Option<Tunnel>)
      requires Valid()
      modifies this, repr
      ensures Valid() && repr == old(repr) && View() == Step(old(View()), Lookup(token, now, listing, sweptAt), limits)
      ensures record == if token in tunnels then Some(tunnels[token]) else None
      ensures record.Some? ==> now - record.value.createdAt <= limits.ttl
    {
      SweepExpired(listing, sweptAt);
      if token !in tunnels { return None; }
      if now - tunnels[token].createdAt > limits.ttl {
        DropTunnel(token);
        return None;
      }
      record := Some(tunnels[token]);
    }

    method CloseTunnel(
      token: Token, requester: Option<Owner>, listing: seq<Token>, sweptAt: real)
      returns (closed: bool)
      requires Valid()
      modifies this, repr
      ensures Valid() && repr == old(repr)
      ensures View() == Step(old(View()), Close(token, requester, listing, sweptAt), limits)
      ensures closed <==> MayClose(Sweep(old(View()), listing, sweptAt, limits.ttl), token, requester)
    {
      SweepExpired(listing, sweptAt);
      if token !in tunnels { return false; }
      if requester.Some? && tunnels[token].owner != requester.value { return false; }
      DropTunnel(token);
      closed := true;
    }

    method BeginAwaitAck(token: Token) returns (waiting: bool)
      requires Valid()
      modifies `acks
      ensures Valid() && View() == Awaiting(old(View()), token) && (waiting <==> token in tunnels)
    {
      if token !in tunnels { return false; }
      acks := acks[token := false];
      waiting := true;
    }

    method EndAwaitAck(token: Token, gaveUp: bool)
      requires Valid()
      modifies this, repr
      ensures Valid() && repr == old(repr) && View() == Awaited(old(View()), token, gaveUp)
    {
      if gaveUp { DropTunnel(token); }
      acks := acks - {token};
    }

    /** A live tunnel can send from now on, on this socket; no other tunnel changes. */
    method BindWs(token: Token, ws: Socket) returns (bound: bool)
      requires Valid()
      modifies repr
      ensures Valid() && (bound <==> token in tunnels)
      ensures bound ==> CanSend(View(), token) && Records()[token].ws == Some(ws)
      ensures bound ==> Records() == old(Records())[token := Rebound(old(Records())[token], Records()[token])]
      ensures !bound ==> Records() == old(Records())
    {
      if token !in tunnels { return false; }
      var record := tunnels[token];
      record.ws := Some(ws);
      record.openAcked := true;
      OneChanged(token);
      bound := true;
    }

    method Resolve(token: Token, ws: Socket, ok: bool) returns (taken: bool)
      requires Valid()
      modifies `acks, `accepted, repr
      ensures Valid()
      ensures View() == Acked(old(View()), token, ws, ok) && taken == AckWanted(old(View()), token, ok)
    {
      if token !in acks || acks[token] { return false; }
      if ok {
        var bound := BindWs(token, ws);
        if !bound { return false; }
        accepted := accepted + {(token, ws)};
      }
      acks := acks[token := true];
      taken := true;
    }

    /** `spend` up to its sleep. A call that falls asleep takes the record with it. */
    method BeginSpend(token: Token, n: nat, now: real) returns (verdict: TunnelSpend.Verdict, record: Option<Tunnel>)
      requires Valid()
      modifies repr
      ensures Valid() && View() == Charged(old(View()), token, TunnelSpend.Call(n, now), limits)
      ensures record == if token in tunnels then Some(tunnels[token]) else None
      ensures record.None? ==> verdict.Refused?
      ensures verdict.Asleep? ==> record.value.sleeping == old(tunnels[token].sleeping) + [n]
    {
      if token !in tunnels { return TunnelSpend.Refused, None; }
      record := Some(tunnels[token]);
      verdict := tunnels[token].BeginSpend(n, now, limits.bytesPerSecond, limits.totalBytes);
      OneChanged(token);
    }

    /** `spend` after its sleep charges the record it kept: if its tunnel is live, that tunnel's; if the tunnel has been
        dropped, no table changes. */
    method FinishSpend(record: Tunnel, ghost k: nat, n: nat, at: real)
      requires Valid() && record in repr && k < |record.sleeping| && record.sleeping[k] == n
      modifies record
      ensures Valid()
      ensures (forall t :: t in tunnels ==> tunnels[t] != record) ==> View() == old(View())
      ensures forall t :: t in tunnels && tunnels[t] == record ==>
        View() == Charged(old(View()), t, TunnelSpend.Wake(k, at), limits)
    {
      record.FinishSpend(k, n, at, limits.bytesPerSecond, limits.totalBytes);
      assert (forall t :: t in tunnels ==> tunnels[t] != record) ==> Records() == old(Records());
      forall t | t in tunnels && tunnels[t] == record ensures Records() == old(Records())[t := record.Value()] {
        OneChanged(t);
      }
    }

    method StreamQueue(token: Token, id: StreamId, now: real, listing: seq<Token>, sweptAt: real) returns (found: bool)
      requires Valid()
      modifies this, repr
      ensures Valid() && repr == old(repr)
      ensures View() == Step(old(View()), OpenStream(token, id, now, listing, sweptAt), limits)
      ensures found <==> token in tunnels && id in tunnels[token].streams
    {
      var record := LookupTunnel(token, now, listing, sweptAt);
      if record.None? { return false; }
      found := AddStream(token, id);
    }

    method AddStream(token: Token, id: StreamId) returns (found: bool)
      requires Valid() && token in tunnels
      modifies repr
      ensures Valid() && View() == WithStream(old(View()), token, id)
      ensures found <==> id in tunnels[token].streams
    {
      var record := tunnels[token];
      if id !in record.streams {
        if |record.streams| >= MAX_STREAMS_PER_TUNNEL { return false; }
        record.streams := record.streams + {id};
      } else {
        assert record.streams + {id} == record.streams;
      }
      OneChanged(token);
      found := true;
    }

    method DropStreamQueue(token: Token, id: StreamId)
      requires Valid()
      modifies repr
      ensures Valid() && View() == WithoutStream(old(View()), token, id)
    {
      if token !in tunnels { return; }
      var record := tunnels[token];
      record.streams := record.streams - {id};
      OneChanged(token);
    }

    /** `works`: the socket takes the frame. */
    method SendOn(token: Token, works: bool) returns (ok: bool)
      requires Valid()
      modifies `sent
      ensures Valid() && ok == (works && CanSend(old(View()), token))
      ensures View() == if ok then FrameSent(old(View()), token) else old(View())
    {
      if token !in tunnels || !tunnels[token].openAcked { return false; }
      var ws := tunnels[token].ws;
      if ws.None? || !works { return false; }
      sent := sent + [(token, ws.value)];
      ok := true;
    }

    method DetachSocket(ws: Socket, listing: seq<Token>)
      requires Valid()
      modifies this, repr
      ensures Valid() && repr == old(repr) && View() == Detach(old(View()), listing, ws)
    {
      assert listing[..0] == [];
      for n := 0 to |listing|
        invariant Valid() && repr == old(repr) && View() == Detach(old(View()), listing[..n], ws)
      {
        assert listing[..n + 1][..n] == listing[..n];
        if listing[n] in tunnels && tunnels[listing[n]].ws == Some(ws) { DropTunnel(listing[n]); }
      }
      assert listing[..|listing|] == listing;
    }
  }
}
