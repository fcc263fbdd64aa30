/** The tables of the tunnel registry, and what every reachable state of them satisfies. */
module TunnelTables {
  import opened Messages
  import TunnelSpend

  type Token = int
  type Owner = int
  type Socket = int
  type StreamId = string

  const MAX_STREAMS_PER_TUNNEL := 16

  function TokensOf(byOwner: map<Owner, set<Token>>, owner: Owner): set<Token> {
    if owner in byOwner then byOwner[owner] else {}
  }

  datatype Settings = Settings(maxPerUser: nat, ttl: real, bytesPerSecond: nat, totalBytes: nat)

  datatype Record = Record(
    owner: Owner,
    createdAt: real,
    spend: TunnelSpend.State,
    streams: set<StreamId>,
    ws: Option<Socket>,
    openAcked: bool)

  /** `spend` of a record holds its meter and, as history, the sizes of its sleeping calls of `spend`. `acks` says for
      each awaited ack whether it has been resolved. `issued`, `accepted` and `sent` are history:
      the tokens ever made, the sockets whose acks were accepted, the sockets frames were sent on. */
  datatype State = State(
    tunnels: map<Token, Record>,
    byOwner: map<Owner, set<Token>>,
    acks: map<Token, bool>,
    issued: set<Token>,
    accepted: set<(Token, Socket)>,
    sent: seq<(Token, Socket)>)
  {
    function Owned(owner: Owner): set<Token> { TokensOf(byOwner, owner) }

    function Live(owner: Owner): set<Token> { Owned(owner) * tunnels.Keys }
  }

  const START := State(map[], map[], map[], {}, {}, [])

  // ---- The operations ----------------------------------------------------------------------------------

  /** `_drop` */
  function Drop(s: State, token: Token): State {
    if token !in s.tunnels then s
    else
      var owner := s.tunnels[token].owner;
      s.(tunnels := s.tunnels - {token},
         byOwner := if owner in s.byOwner then s.byOwner[owner := s.byOwner[owner] - {token}] else s.byOwner,
         acks := s.acks - {token})
  }

  predicate Expired(r: Record, now: real, ttl: real) { now - r.createdAt > ttl }

  /** `_sweep`, with the tunnels listed in the order of the dictionary. */
  function Sweep(s: State, listing: seq<Token>, now: real, ttl: real): State {
    if listing == [] then s
    else
      var token := listing[|listing| - 1];
      var before := Sweep(s, listing[..|listing| - 1], now, ttl);
      if token in before.tunnels && Expired(before.tunnels[token], now, ttl) then Drop(before, token) else before
  }

  /** `detach_ws`: drops every listed tunnel pinned to the socket. */
  function Detach(s: State, listing: seq<Token>, ws: Socket): State {
    if listing == [] then s
    else
      var token := listing[|listing| - 1];
      var before := Detach(s, listing[..|listing| - 1], ws);
      if token in before.tunnels && before.tunnels[token].ws == Some(ws) then Drop(before, token) else before
  }

  /** `open` after its sweep: refused at the cap. */
  function Opened(s: State, token: Token, owner: Owner, now: real, ws: Option<Socket>, maxPerUser: nat): State {
    if |s.Live(owner)| >= maxPerUser then s
    else s.(tunnels := s.tunnels[token := Record(owner, now, TunnelSpend.Start(now), {}, ws, ws.None?)],
            byOwner := s.byOwner[owner := s.Owned(owner) + {token}],
            issued := s.issued + {token})
  }

  /** `lookup` after its sweep reads the clock once more. */
  function LookedUp(s: State, token: Token, now: real, ttl: real): State {
    if token in s.tunnels && Expired(s.tunnels[token], now, ttl) then Drop(s, token) else s
  }

  /** `close` after its sweep. */
  predicate MayClose(s: State, token: Token, requester: Option<Owner>) {
    token in s.tunnels && (requester.Some? ==> s.tunnels[token].owner == requester.value)
  }

  function Closed(s: State, token: Token, requester: Option<Owner>): State {
    if MayClose(s, token, requester) then Drop(s, token) else s
  }

  /** `await_ack` up to its await. */
  function Awaiting(s: State, token: Token): State {
    if token in s.tunnels then s.(acks := s.acks[token := false]) else s
  }

  /** `await_ack` after its await; `gaveUp` on a timeout or a cancellation. */
  function Awaited(s: State, token: Token, gaveUp: bool): State {
    var d := if gaveUp then Drop(s, token) else s;
    d.(acks := d.acks - {token})
  }

  predicate AckWanted(s: State, token: Token, ok: bool) {
    token in s.acks && !s.acks[token] && (ok ==> token in s.tunnels)
  }

  /** `resolve_ack`, with `bind_ws` */
  function Acked(s: State, token: Token, ws: Socket, ok: bool): State {
    if !AckWanted(s, token, ok) then s
    else
      var b := if ok then s.(tunnels := s.tunnels[token := s.tunnels[token].(ws := Some(ws), openAcked := true)],
                             accepted := s.accepted + {(token, ws)})
               else s;
      b.(acks := b.acks[token := true])
  }

  /** `stream_queue` after its lookup. */
  function WithStream(s: State, token: Token, id: StreamId): State {
    if token !in s.tunnels then s
    else if id !in s.tunnels[token].streams && |s.tunnels[token].streams| >= MAX_STREAMS_PER_TUNNEL then s
    else s.(tunnels := s.tunnels[token := s.tunnels[token].(streams := s.tunnels[token].streams + {id})])
  }

  function WithoutStream(s: State, token: Token, id: StreamId): State {
    if token !in s.tunnels then s
    else s.(tunnels := s.tunnels[token := s.tunnels[token].(streams := s.tunnels[token].streams - {id})])
  }

  /** A call of `spend` on a live tunnel begins, wakes or is cancelled. */
  function Charged(s: State, token: Token, a: TunnelSpend.Action, limits: Settings): State {
    if token !in s.tunnels then s
    else
      var r := s.tunnels[token];
      s.(tunnels := s.tunnels[token :=
        r.(spend := TunnelSpend.Step(r.spend, a, limits.bytesPerSecond, limits.totalBytes))])
  }

  predicate CanSend(s: State, token: Token) {
    token in s.tunnels && s.tunnels[token].openAcked && s.tunnels[token].ws.Some?
  }

  /** `send_frame`, where the socket takes the frame. */
  function FrameSent(s: State, token: Token): State {
    if CanSend(s, token) then s.(sent := s.sent + [(token, s.tunnels[token].ws.value)]) else s
  }

  // ---- Runs ------------------------------------------------------------------------------------------------

  datatype Action =
    | Open(token: Token, owner: Owner, now: real, ws: Option<Socket>, listing: seq<Token>, sweptAt: real)
    | Lookup(token: Token, now: real, listing: seq<Token>, sweptAt: real)
    | Close(token: Token, requester: Option<Owner>, listing: seq<Token>, sweptAt: real)
    | BeginAwait(token: Token)
    | EndAwait(token: Token, gaveUp: bool)
    | ResolveAck(token: Token, from: Socket, ok: bool)
    | OpenStream(token: Token, id: StreamId, now: real, listing: seq<Token>, sweptAt: real)
    | DropStream(token: Token, id: StreamId)
    | Spend(token: Token, part: TunnelSpend.Action)
    | SendFrame(token: Token)
    | DetachWs(gone: Socket, listing: seq<Token>)

  /** A token is never made twice. */
  function Step(s: State, a: Action, limits: Settings): State {
    match a
    case Open(token, owner, now, ws, listing, at) =>
      if token in s.issued then s
      else Opened(Sweep(s, listing, at, limits.ttl), token, owner, now, ws, limits.maxPerUser)
    case Lookup(token, now, listing, at) => LookedUp(Sweep(s, listing, at, limits.ttl), token, now, limits.ttl)
    case Close(token, requester, listing, at) => Closed(Sweep(s, listing, at, limits.ttl), token, requester)
    case BeginAwait(token) => Awaiting(s, token)
    case EndAwait(token, gaveUp) => Awaited(s, token, gaveUp)
    case ResolveAck(token, ws, ok) => Acked(s, token, ws, ok)
    case OpenStream(token, id, now, listing, at) =>
      WithStream(LookedUp(Sweep(s, listing, at, limits.ttl), token, now, limits.ttl), token, id)
    case DropStream(token, id) => WithoutStream(s, token, id)
    case Spend(token, part) => Charged(s, token, part, limits)
    case SendFrame(token) => FrameSent(s, token)
    case DetachWs(ws, listing) => Detach(s, listing, ws)
  }

  function Run(actions: seq<Action>, limits: Settings): State {
    if actions == [] then START else Step(Run(actions[..|actions| - 1], limits), actions[|actions| - 1], limits)
  }

  // ---- The invariant -----------------------------------------------------------------------------------------

  /** `_by_owner` and `_tunnels` agree both ways, within the cap. */
  ghost predicate OwnersAgree(tunnels: map<Token, Record>, byOwner: map<Owner, set<Token>>, maxPerUser: nat) {
    && (forall t :: t in tunnels ==> t in TokensOf(byOwner, tunnels[t].owner))
    && (forall o, t :: t in TokensOf(byOwner, o) ==> t in tunnels && tunnels[t].owner == o)
    && (forall o :: |TokensOf(byOwner, o)| <= maxPerUser)
  }

  /** And only live tunnels' acks are awaited. */
  ghost predicate TablesAgree(s: State, maxPerUser: nat) {
    OwnersAgree(s.tunnels, s.byOwner, maxPerUser) && forall t :: t in s.acks ==> t in s.tunnels
  }

  /** Streams are within their cap, and a tunnel that may send is pinned to a socket whose ack was accepted. */
  ghost predicate RecordsOk(s: State) {
    && (forall t :: t in s.tunnels ==> t in s.issued && |s.tunnels[t].streams| <= MAX_STREAMS_PER_TUNNEL)
    && (forall t :: CanSend(s, t) ==> (t, s.tunnels[t].ws.value) in s.accepted)
    && (forall i :: 0 <= i < |s.sent| ==> s.sent[i] in s.accepted)
  }

  ghost predicate Consistent(s: State, maxPerUser: nat) {
    TablesAgree(s, maxPerUser) && RecordsOk(s)
  }

  lemma {:induction false} Fewer(sub: set<Token>, all: set<Token>)
    requires sub <= all
    ensures |sub| <= |all|
  {
    if sub != all {
      assert all == sub + (all - sub);
    }
  }

  lemma {:induction false} OwnersWithout(
    tunnels: map<Token, Record>, byOwner: map<Owner, set<Token>>, token: Token, maxPerUser: nat)
    requires OwnersAgree(tunnels, byOwner, maxPerUser) && token in tunnels && tunnels[token].owner in byOwner
    ensures var owner := tunnels[token].owner;
      OwnersAgree(tunnels - {token}, byOwner[owner := byOwner[owner] - {token}], maxPerUser)
  {
    var owner := tunnels[token].owner;
    var fewer := byOwner[owner := byOwner[owner] - {token}];
    Fewer(byOwner[owner] - {token}, byOwner[owner]);
    forall o, t | t in TokensOf(fewer, o)
      ensures t in tunnels - {token} && tunnels[t].owner == o {
      assert t in TokensOf(byOwner, o);
    }
    forall o ensures |TokensOf(fewer, o)| <= maxPerUser {
      assert |TokensOf(byOwner, o)| <= maxPerUser;
    }
  }

  lemma {:induction false} TokensOfOne(byOwner: map<Owner, set<Token>>, owner: Owner, tokens: set<Token>, o: Owner)
    ensures TokensOf(byOwner[owner := tokens], o) == if o == owner then tokens else TokensOf(byOwner, o)
  {
  }

  lemma {:induction false} OwnersWith(
    tunnels: map<Token, Record>, byOwner: map<Owner, set<Token>>, token: Token, r: Record, maxPerUser: nat)
    requires OwnersAgree(tunnels, byOwner, maxPerUser) && token !in tunnels && |TokensOf(byOwner, r.owner)| < maxPerUser
    ensures OwnersAgree(tunnels[token := r], byOwner[r.owner := TokensOf(byOwner, r.owner) + {token}], maxPerUser)
  {
    var mine := TokensOf(byOwner, r.owner);
    var more, grown := byOwner[r.owner := mine + {token}], tunnels[token := r];
    forall o
      ensures |TokensOf(more, o)| <= maxPerUser
      ensures forall t :: t in TokensOf(more, o) ==> t in grown && grown[t].owner == o {
      TokensOfOne(byOwner, r.owner, mine + {token}, o);
      assert |TokensOf(byOwner, o)| <= maxPerUser && token !in TokensOf(byOwner, o);
    }
    forall t | t in grown ensures t in TokensOf(more, grown[t].owner) {
      TokensOfOne(byOwner, r.owner, mine + {token}, grown[t].owner);
      assert t != token ==> t in TokensOf(byOwner, tunnels[t].owner);
    }
  }

  lemma {:induction false} DropConsistent(s: State, token: Token, maxPerUser: nat)
    requires Consistent(s, maxPerUser)
    ensures Consistent(Drop(s, token), maxPerUser)
  {
    if token in s.tunnels {
      assert token in TokensOf(s.byOwner, s.tunnels[token].owner);
      OwnersWithout(s.tunnels, s.byOwner, token, maxPerUser);
      assert forall t :: CanSend(Drop(s, token), t) ==> CanSend(s, t);
    }
  }

  lemma {:induction false} SweepConsistent(s: State, listing: seq<Token>, now: real, ttl: real, maxPerUser: nat)
    requires Consistent(s, maxPerUser)
    ensures Consistent(Sweep(s, listing, now, ttl), maxPerUser) && Sweep(s, listing, now, ttl).issued == s.issued
  {
    if listing != [] {
      var n := |listing| - 1;
      SweepConsistent(s, listing[..n], now, ttl, maxPerUser);
      DropConsistent(Sweep(s, listing[..n], now, ttl), listing[n], maxPerUser);
    }
  }

  lemma {:induction false} DetachConsistent(s: State, listing: seq<Token>, ws: Socket, maxPerUser: nat)
    requires Consistent(s, maxPerUser)
    ensures Consistent(Detach(s, listing, ws), maxPerUser) && Detach(s, listing, ws).issued == s.issued
  {
    if listing != [] {
      var n := |listing| - 1;
      DetachConsistent(s, listing[..n], ws, maxPerUser);
      DropConsistent(Detach(s, listing[..n], ws), listing[n], maxPerUser);
    }
  }

  lemma {:induction false} OpenedAgree(
    s: State, token: Token, owner: Owner, now: real, ws: Option<Socket>, maxPerUser: nat)
    requires TablesAgree(s, maxPerUser) && token !in s.tunnels
    ensures TablesAgree(Opened(s, token, owner, now, ws, maxPerUser), maxPerUser)
  {
    AllLive(s, owner, maxPerUser);
    if |s.Live(owner)| < maxPerUser {
      OwnersWith(s.tunnels, s.byOwner, token, Record(owner, now, TunnelSpend.Start(now), {}, ws, ws.None?), maxPerUser);
    }
  }

  lemma {:induction false} AllLive(s: State, owner: Owner, maxPerUser: nat)
    requires OwnersAgree(s.tunnels, s.byOwner, maxPerUser)
    ensures s.Live(owner) == s.Owned(owner)
  {
    forall t | t in s.Owned(owner) ensures t in s.tunnels.Keys { assert t in TokensOf(s.byOwner, owner); }
  }

  lemma {:induction false} OpenedRecords(
    s: State, token: Token, owner: Owner, now: real, ws: Option<Socket>, maxPerUser: nat)
    requires RecordsOk(s) && token !in s.tunnels
    ensures RecordsOk(Opened(s, token, owner, now, ws, maxPerUser))
  {
  }

  lemma {:induction false} OpenedConsistent(
    s: State, token: Token, owner: Owner, now: real, ws: Option<Socket>, maxPerUser: nat)
    requires Consistent(s, maxPerUser) && token !in s.issued
    ensures Consistent(Opened(s, token, owner, now, ws, maxPerUser), maxPerUser)
  {
    OpenedAgree(s, token, owner, now, ws, maxPerUser);
    OpenedRecords(s, token, owner, now, ws, maxPerUser);
  }

  lemma {:induction false} AckedConsistent(s: State, token: Token, ws: Socket, ok: bool, maxPerUser: nat)
    requires Consistent(s, maxPerUser)
    ensures Consistent(Acked(s, token, ws, ok), maxPerUser)
  {
  }

  lemma {:induction false} EditedConsistent(s: State, token: Token, r: Record, maxPerUser: nat)
    requires Consistent(s, maxPerUser) && token in s.tunnels && |r.streams| <= MAX_STREAMS_PER_TUNNEL
    requires r == s.tunnels[token].(streams := r.streams, spend := r.spend)
    ensures Consistent(s.(tunnels := s.tunnels[token := r]), maxPerUser)
  {
  }

  lemma {:induction false} StreamConsistent(s: State, token: Token, id: StreamId, maxPerUser: nat)
    requires Consistent(s, maxPerUser)
    ensures Consistent(WithStream(s, token, id), maxPerUser) && Consistent(WithoutStream(s, token, id), maxPerUser)
  {
  }

  lemma {:induction false} AwaitConsistent(s: State, token: Token, gaveUp: bool, maxPerUser: nat)
    requires Consistent(s, maxPerUser)
    ensures Consistent(Awaiting(s, token), maxPerUser) && Consistent(Awaited(s, token, gaveUp), maxPerUser)
  {
    DropConsistent(s, token, maxPerUser);
    AcksConsistent(s, s.acks[token := false], maxPerUser);
    AcksConsistent(s, s.acks - {token}, maxPerUser);
    AcksConsistent(Drop(s, token), Drop(s, token).acks - {token}, maxPerUser);
  }

  lemma {:induction false} AcksConsistent(s: State, acks: map<Token, bool>, maxPerUser: nat)
    requires Consistent(s, maxPerUser)
    ensures (forall t :: t in acks ==> t in s.tunnels) ==> Consistent(s.(acks := acks), maxPerUser)
  {
  }

  lemma {:induction false} SentConsistent(s: State, token: Token, maxPerUser: nat)
    requires Consistent(s, maxPerUser)
    ensures Consistent(FrameSent(s, token), maxPerUser)
  {
  }

  lemma {:induction false} ChargedConsistent(s: State, token: Token, a: TunnelSpend.Action, limits: Settings)
    requires Consistent(s, limits.maxPerUser)
    ensures Consistent(Charged(s, token, a, limits), limits.maxPerUser)
  {
    if token in s.tunnels {
      EditedConsistent(s, token, Charged(s, token, a, limits).tunnels[token], limits.maxPerUser);
    }
  }

  lemma {:induction false} StepConsistent(s: State, a: Action, limits: Settings)
    requires Consistent(s, limits.maxPerUser)
    ensures Consistent(Step(s, a, limits), limits.maxPerUser)
  {
    var most := limits.maxPerUser;
    match a
    case Open(token, owner, now, ws, listing, at) =>
      SweepConsistent(s, listing, at, limits.ttl, most);
      if token !in s.issued { OpenedConsistent(Sweep(s, listing, at, limits.ttl), token, owner, now, ws, most); }
    case Lookup(token, _, listing, at) =>
      SweepConsistent(s, listing, at, limits.ttl, most);
      DropConsistent(Sweep(s, listing, at, limits.ttl), token, most);
    case Close(token, _, listing, at) =>
      SweepConsistent(s, listing, at, limits.ttl, most);
      DropConsistent(Sweep(s, listing, at, limits.ttl), token, most);
    case BeginAwait(token) => AwaitConsistent(s, token, false, most);
    case EndAwait(token, gaveUp) => AwaitConsistent(s, token, gaveUp, most);
    case ResolveAck(token, ws, ok) => AckedConsistent(s, token, ws, ok, most);
    case OpenStream(token, id, now, listing, at) =>
      SweepConsistent(s, listing, at, limits.ttl, most);
      DropConsistent(Sweep(s, listing, at, limits.ttl), token, most);
      StreamConsistent(LookedUp(Sweep(s, listing, at, limits.ttl), token, now, limits.ttl), token, id, most);
    case DropStream(token, id) => StreamConsistent(s, token, id, most);
    case Spend(token, part) => ChargedConsistent(s, token, part, limits);
    case SendFrame(token) => SentConsistent(s, token, most);
    case DetachWs(ws, listing) => DetachConsistent(s, listing, ws, most);
  }

  /** In every reachable state the tables agree, all caps hold, and every frame ever sent for a token went to a
      socket whose ack for that token had been accepted. */
  lemma {:induction false} AlwaysConsistent(actions: seq<Action>, limits: Settings)
    ensures Consistent(Run(actions, limits), limits.maxPerUser)
  {
    if actions != [] {
      var n := |actions| - 1;
      AlwaysConsistent(actions[..n], limits);
      StepConsistent(Run(actions[..n], limits), actions[n], limits);
    }
  }

  // ---- What a sweep and a detach leave -------------------------------------------------------------------------

  /** A sweep over all tunnels drops exactly the expired ones and touches no other record. */
  lemma {:induction false} SweepIsExact(s: State, listing: seq<Token>, now: real, ttl: real, t: Token)
    ensures var swept := Sweep(s, listing, now, ttl);
      && (t in swept.tunnels <==> t in s.tunnels && !(t in listing && Expired(s.tunnels[t], now, ttl)))
      && (t in swept.tunnels ==> swept.tunnels[t] == s.tunnels[t])
  {
    if listing != [] {
      var n := |listing| - 1;
      SweepIsExact(s, listing[..n], now, ttl, t);
      SweepIsExact(s, listing[..n], now, ttl, listing[n]);
      assert listing == listing[..n] + [listing[n]];
    }
  }

  /** When a socket goes, exactly the tunnels pinned to it go with it. */
  lemma {:induction false} DetachIsExact(s: State, listing: seq<Token>, ws: Socket, t: Token)
    ensures var left := Detach(s, listing, ws);
      && (t in left.tunnels <==> t in s.tunnels && !(t in listing && s.tunnels[t].ws == Some(ws)))
      && (t in left.tunnels ==> left.tunnels[t] == s.tunnels[t])
  {
    if listing != [] {
      var n := |listing| - 1;
      DetachIsExact(s, listing[..n], ws, t);
      DetachIsExact(s, listing[..n], ws, listing[n]);
      assert listing == listing[..n] + [listing[n]];
    }
  }

  // ---- The byte cap of every live tunnel -------------------------------------------------------------------------

  /** What happened to a tunnel's `spend` while it was live. */
  function SpendsOf(actions: seq<Action>, limits: Settings, token: Token): seq<TunnelSpend.Action> {
    if actions == [] then []
    else
      var n := |actions| - 1;
      var a := actions[n];
      var before := SpendsOf(actions[..n], limits, token);
      if a.Spend? && a.token == token && token in Run(actions[..n], limits).tunnels then before + [a.part] else before
  }

  /** The record a step leaves: the one that was there, charged if the step says so, or a new one. */
  ghost predicate Follows(s: State, t: State, a: Action, limits: Settings, token: Token)
    requires token in t.tunnels
  {
    var r := t.tunnels[token];
    if token in s.tunnels then
      && r.createdAt == s.tunnels[token].createdAt
      && r.spend == if a.Spend? && a.token == token
         then TunnelSpend.Step(s.tunnels[token].spend, a.part, limits.bytesPerSecond, limits.totalBytes)
         else s.tunnels[token].spend
    else a.Open? && token !in s.issued && r.spend == TunnelSpend.Start(r.createdAt)
  }

  /** The tunnel is gone, or charged as it was. */
  ghost predicate SameSpend(s: State, t: State, token: Token) {
    token in t.tunnels ==>
      && token in s.tunnels && t.tunnels[token].createdAt == s.tunnels[token].createdAt
      && t.tunnels[token].spend == s.tunnels[token].spend
  }

  lemma {:induction false} SweepSame(s: State, listing: seq<Token>, at: real, ttl: real, token: Token)
    ensures SameSpend(s, Sweep(s, listing, at, ttl), token)
  {
    SweepIsExact(s, listing, at, ttl, token);
  }

  lemma {:induction false} DropSame(
    s: State, other: Token, now: real, ttl: real, requester: Option<Owner>, token: Token)
    ensures SameSpend(s, LookedUp(s, other, now, ttl), token) && SameSpend(s, Closed(s, other, requester), token)
  {
  }

  lemma {:induction false} AckSame(s: State, other: Token, ws: Socket, flag: bool, token: Token)
    ensures SameSpend(s, Awaiting(s, other), token) && SameSpend(s, Awaited(s, other, flag), token)
    ensures SameSpend(s, Acked(s, other, ws, flag), token)
  {
  }

  lemma {:induction false} StreamSame(s: State, other: Token, id: StreamId, token: Token)
    ensures SameSpend(s, WithStream(s, other, id), token) && SameSpend(s, WithoutStream(s, other, id), token)
  {
  }

  lemma {:induction false} OpenedSpend(
    s: State, added: Token, owner: Owner, now: real, ws: Option<Socket>, most: nat, token: Token)
    requires added !in s.tunnels
    ensures var t := Opened(s, added, owner, now, ws, most);
      if token == added && token in t.tunnels
      then t.tunnels[token].spend == TunnelSpend.Start(t.tunnels[token].createdAt)
      else SameSpend(s, t, token)
  {
  }

  lemma {:induction false} OpenFollows(s: State, a: Action, limits: Settings, token: Token)
    requires Consistent(s, limits.maxPerUser) && a.Open? && token in Step(s, a, limits).tunnels
    ensures Follows(s, Step(s, a, limits), a, limits, token)
  {
    if a.token !in s.issued {
      assert a.token !in s.tunnels;
      SweepSame(s, a.listing, a.sweptAt, limits.ttl, a.token);
      SweepSame(s, a.listing, a.sweptAt, limits.ttl, token);
      OpenedSpend(Sweep(s, a.listing, a.sweptAt, limits.ttl), a.token, a.owner, a.now, a.ws, limits.maxPerUser, token);
    }
  }

  lemma {:induction false} StepFollows(s: State, a: Action, limits: Settings, token: Token)
    requires Consistent(s, limits.maxPerUser) && token in Step(s, a, limits).tunnels
    ensures Follows(s, Step(s, a, limits), a, limits, token)
  {
    match a
    case Open(_, _, _, _, _, _) => OpenFollows(s, a, limits, token);
    case Lookup(other, now, listing, at) =>
      SweepSame(s, listing, at, limits.ttl, token);
      DropSame(Sweep(s, listing, at, limits.ttl), other, now, limits.ttl, None, token);
    case Close(other, requester, listing, at) =>
      SweepSame(s, listing, at, limits.ttl, token);
      DropSame(Sweep(s, listing, at, limits.ttl), other, at, limits.ttl, requester, token);
    case BeginAwait(other) => AckSame(s, other, 0, false, token);
    case EndAwait(other, gaveUp) => AckSame(s, other, 0, gaveUp, token);
    case ResolveAck(other, ws, ok) => AckSame(s, other, ws, ok, token);
    case OpenStream(other, id, now, listing, at) =>
      SweepSame(s, listing, at, limits.ttl, token);
      DropSame(Sweep(s, listing, at, limits.ttl), other, now, limits.ttl, None, token);
      StreamSame(LookedUp(Sweep(s, listing, at, limits.ttl), other, now, limits.ttl), other, id, token);
    case DropStream(other, id) => StreamSame(s, other, id, token);
    case Spend(_, _) =>
    case SendFrame(_) =>
    case DetachWs(ws, listing) => DetachIsExact(s, listing, ws, token);
  }

  lemma {:induction false} IssuedGrows(s: State, a: Action, limits: Settings)
    requires Consistent(s, limits.maxPerUser)
    ensures s.issued <= Step(s, a, limits).issued
  {
    match a
    case Open(_, _, _, _, listing, at) => SweepConsistent(s, listing, at, limits.ttl, limits.maxPerUser);
    case Lookup(_, _, listing, at) => SweepConsistent(s, listing, at, limits.ttl, limits.maxPerUser);
    case Close(_, _, listing, at) => SweepConsistent(s, listing, at, limits.ttl, limits.maxPerUser);
    case OpenStream(_, _, _, listing, at) => SweepConsistent(s, listing, at, limits.ttl, limits.maxPerUser);
    case DetachWs(ws, listing) => DetachConsistent(s, listing, ws, limits.maxPerUser);
    case _ =>
  }

  lemma {:induction false} NeverLive(actions: seq<Action>, limits: Settings, token: Token)
    requires token !in Run(actions, limits).issued
    ensures SpendsOf(actions, limits, token) == []
  {
    if actions != [] {
      var n := |actions| - 1;
      var s := Run(actions[..n], limits);
      AlwaysConsistent(actions[..n], limits);
      IssuedGrows(s, actions[n], limits);
      NeverLive(actions[..n], limits, token);
    }
  }

  /** In every reachable state a live tunnel has been charged exactly as its own calls of `spend` say. */
  lemma {:induction false} SpentAsCalled(actions: seq<Action>, limits: Settings, token: Token)
    requires token in Run(actions, limits).tunnels
    ensures var r := Run(actions, limits).tunnels[token];
      r.spend
      == TunnelSpend.Run(r.createdAt, SpendsOf(actions, limits, token), limits.bytesPerSecond, limits.totalBytes)
  {
    var n := |actions| - 1;
    var s, a := Run(actions[..n], limits), actions[n];
    AlwaysConsistent(actions[..n], limits);
    StepFollows(s, a, limits, token);
    if token in s.tunnels {
      SpentAsCalled(actions[..n], limits, token);
      if a.Spend? && a.token == token {
        TunnelSpend.RunNext(s.tunnels[token].createdAt, SpendsOf(actions[..n], limits, token), a.part,
                            limits.bytesPerSecond, limits.totalBytes);
      }
    } else {
      NeverLive(actions[..n], limits, token);
    }
  }

  /** So no live tunnel exceeds the byte cap by more than its concurrent calls allow: at most `k` of at most `m`
      bytes each. */
  lemma {:induction false} TunnelWithinCap(actions: seq<Action>, limits: Settings, token: Token, k: nat, m: nat)
    requires token in Run(actions, limits).tunnels && k > 0
    requires TunnelSpend.Modest(Run(actions, limits).tunnels[token].createdAt, SpendsOf(actions, limits, token),
                                limits.bytesPerSecond, limits.totalBytes, k, m)
    ensures Run(actions, limits).tunnels[token].spend.meter.total <= limits.totalBytes + (k - 1) * m
  {
    SpentAsCalled(actions, limits, token);
    TunnelSpend.OvershootBounded(Run(actions, limits).tunnels[token].createdAt, SpendsOf(actions, limits, token),
                                 limits.bytesPerSecond, limits.totalBytes, k, m);
  }
}
