/** The relay slice of apps/directory/server.js: one set of sessions, three indexes into it, and the
    capabilities that may open a session. Sessions are objects, and the indexes alias them. */
module Relay {
  import opened Common

  const RELAY_AUTH_TTL_MS: nat := 60 * 1000
  const RELAY_IDLE_TTL_MS: nat := 60 * 1000
  const RELAY_HANDSHAKE_TTL_MS: nat := 30 * 1000

  type Ip = string
  type HostId = string
  type Token = string

  datatype Endpoint = Endpoint(ip: Ip, port: nat)
  datatype Auth = Auth(hostId: HostId, clientWireIp: Ip, connectId: string, expiresAt: nat)
  datatype Eligible = Eligible(connectId: string, expiresAt: nat, replied: set<Endpoint>)

  /** What the directory's store says of a host when a Hello asks for it. */
  datatype HostRecord = HostRecord(publicIp: Ip, publicUdpPort: nat, active: bool, aim: Endpoint)

  /** A datagram as the fixed-size handshake parser sees it; everything it rejects is media. */
  datatype Packet = Hello(token: Option<Token>) | HelloAck(directoryAuth: bool) | Punch | Media

  datatype Refusal = UnknownToken | WireMismatch | Superseded | HostUnknown | HostInactive

  /** What becomes of a client's datagram. */
  datatype Outcome = Forwarded(to: Endpoint) | Refused(why: Refusal) | Answered(connectId: string) | Ignored

  // ------------------------------------------------------------------ capabilities minted so far

  datatype Mint = Mint(hostId: HostId, token: Token)

  /** The capability minted last for a host. */
  function NewestFor(mints: seq<Mint>, hostId: HostId): Option<Token>
    decreases |mints|
  {
    if mints == [] then None
    else if mints[|mints| - 1].hostId == hostId then Some(mints[|mints| - 1].token)
    else NewestFor(mints[..|mints| - 1], hostId)
  }

  ghost predicate TokensFresh(mints: seq<Mint>) {
    forall i, j | 0 <= i < j < |mints| :: mints[i].token != mints[j].token
  }

  ghost predicate SupersededIn(mints: seq<Mint>, token: Token) {
    exists i, j | 0 <= i < j < |mints| :: mints[i].token == token && mints[j].hostId == mints[i].hostId
  }

  lemma {:induction false} NewestWasMintedLast(mints: seq<Mint>, hostId: HostId) returns (i: nat)
    requires NewestFor(mints, hostId).Some?
    ensures i < |mints| && mints[i] == Mint(hostId, NewestFor(mints, hostId).value)
    ensures forall j | i < j < |mints| :: mints[j].hostId != hostId
    decreases |mints|
  {
    if mints[|mints| - 1].hostId == hostId {
      i := |mints| - 1;
    } else {
      i := NewestWasMintedLast(mints[..|mints| - 1], hostId);
    }
  }

  lemma NewestAfter(mints: seq<Mint>, m: Mint, hostId: HostId)
    ensures NewestFor(mints + [m], hostId) == if m.hostId == hostId then Some(m.token) else NewestFor(mints, hostId)
  {
    assert (mints + [m])[..|mints|] == mints;
  }

  /** Once a newer capability was minted for the same host, an older one is never the newest again,
      whatever is minted afterwards. */
  lemma SupersededForever(mints: seq<Mint>, later: seq<Mint>, token: Token, hostId: HostId)
    requires TokensFresh(mints + later) && SupersededIn(mints, token)
    ensures NewestFor(mints + later, hostId) != Some(token)
  {
    var all := mints + later;
    var i, j :| 0 <= i < j < |mints| && mints[i].token == token && mints[j].hostId == mints[i].hostId;
    assert all[i] == mints[i] && all[j] == mints[j];
    if NewestFor(all, hostId) == Some(token) {
      var k := NewestWasMintedLast(all, hostId);
    }
  }

  /** Every capability that can still be presented is the newest minted for its host. */
  ghost predicate Capable(mints: seq<Mint>, authByToken: map<Token, Auth>, latestByHost: map<HostId, Token>) {
    && TokensFresh(mints)
    && (forall token | token in authByToken ::
          var hostId := authByToken[token].hostId;
          NewestFor(mints, hostId) == Some(token) && hostId in latestByHost && latestByHost[hostId] == token)
    && (forall hostId | hostId in latestByHost :: NewestFor(mints, hostId) == Some(latestByHost[hostId]))
  }

  function WithoutHost(authByToken: map<Token, Auth>, hostId: HostId): map<Token, Auth> {
    map token | token in authByToken && authByToken[token].hostId != hostId :: authByToken[token]
  }

  function WithoutHosts(authByToken: map<Token, Auth>, hostIds: seq<HostId>): map<Token, Auth> {
    map token | token in authByToken && authByToken[token].hostId !in hostIds :: authByToken[token]
  }

  function LatestWithout(latestByHost: map<HostId, Token>, hostIds: seq<HostId>): map<HostId, Token> {
    map hostId | hostId in latestByHost && hostId !in hostIds :: latestByHost[hostId]
  }

  lemma WithoutNone(authByToken: map<Token, Auth>, latestByHost: map<HostId, Token>)
    ensures WithoutHosts(authByToken, []) == authByToken && LatestWithout(latestByHost, []) == latestByHost
  {
    assert WithoutHosts(authByToken, []) == authByToken;
    assert LatestWithout(latestByHost, []) == latestByHost;
  }

  lemma WithoutOneMore(authByToken: map<Token, Auth>, latestByHost: map<HostId, Token>, hostIds: seq<HostId>, h: HostId)
    ensures WithoutHosts(authByToken, hostIds + [h]) == WithoutHost(WithoutHosts(authByToken, hostIds), h)
    ensures LatestWithout(latestByHost, hostIds + [h]) == LatestWithout(latestByHost, hostIds) - {h}
  {
  }

  lemma ClosingKeepsCapable(mints: seq<Mint>, authByToken: map<Token, Auth>, latestByHost: map<HostId, Token>,
                            hostId: HostId)
    requires Capable(mints, authByToken, latestByHost)
    ensures Capable(mints, WithoutHost(authByToken, hostId), latestByHost - {hostId})
  {
  }

  lemma MintKeepsCapable(mints: seq<Mint>, authByToken: map<Token, Auth>, latestByHost: map<HostId, Token>,
                         token: Token, auth: Auth)
    requires Capable(mints, authByToken, latestByHost) && forall m | m in mints :: m.token != token
    ensures Capable(mints + [Mint(auth.hostId, token)], WithoutHost(authByToken, auth.hostId)[token := auth],
                    latestByHost[auth.hostId := token])
  {
    forall hostId
      ensures NewestFor(mints + [Mint(auth.hostId, token)], hostId)
              == if hostId == auth.hostId then Some(token) else NewestFor(mints, hostId)
    {
      NewestAfter(mints, Mint(auth.hostId, token), hostId);
    }
  }

  /** Replacing the host's latest capability removes the only one it could still have. */
  lemma ReplacingIsEnough(mints: seq<Mint>, authByToken: map<Token, Auth>, latestByHost: map<HostId, Token>,
                          token: Token, auth: Auth)
    requires Capable(mints, authByToken, latestByHost) && forall m | m in mints :: m.token != token
    ensures var hostId := auth.hostId;
            WithoutHost(authByToken, hostId)[token := auth] ==
              if hostId in latestByHost && latestByHost[hostId] != token
              then authByToken[token := auth] - {latestByHost[hostId]} else authByToken[token := auth]
  {
    var hostId := auth.hostId;
    if hostId in latestByHost {
      var i := NewestWasMintedLast(mints, hostId);
      assert mints[i] in mints;
    }
    forall t | t in authByToken
      ensures t != token && (hostId in latestByHost && t == latestByHost[hostId] ==> authByToken[t].hostId == hostId)
    {
      var i := NewestWasMintedLast(mints, authByToken[t].hostId);
      assert mints[i] in mints;
      if hostId in latestByHost && t == latestByHost[hostId] {
        var k := NewestWasMintedLast(mints, hostId);
        assert mints[k].token == mints[i].token;
      }
    }
  }

  /** A capability superseded by a newer mint for its host never binds again: whatever else was minted, it is
      refused as unknown. */
  lemma SupersededIsRefused(mints: seq<Mint>, auths: map<Token, Auth>, latest: map<HostId, Token>,
                            hosts: map<HostId, HostRecord>, from: Endpoint, token: Token, now: nat)
    requires Capable(mints, auths, latest) && SupersededIn(mints, token)
    ensures BindRefusal(auths, latest, hosts, from, token, now) == Some(UnknownToken)
  {
    if token in auths {
      assert mints + [] == mints;
      SupersededForever(mints, [], token, auths[token].hostId);
      assert false;
    }
  }

  // ------------------------------------------------------------------ sessions

  class RelaySession {
    const connectId: string
    const token: Token
    const hostId: HostId
    const client: Endpoint
    const createdAt: nat
    var host: Endpoint
    var active: bool
    var ackMs: Option<int>
    var lastClientAt: nat
    var lastHostAt: nat
    var dropped: bool

    constructor (auth: Auth, token: Token, client: Endpoint, host: Endpoint, now: nat)
      ensures connectId == auth.connectId && this.token == token && hostId == auth.hostId && this.client == client
      ensures createdAt == lastClientAt == lastHostAt == now && this.host == host
      ensures !active && ackMs == None && !dropped
    {
      connectId, this.token, hostId, this.client := auth.connectId, token, auth.hostId, client;
      createdAt, lastClientAt, lastHostAt, this.host := now, now, now, host;
      active, ackMs, dropped := false, None, false;
    }

    /** What the sweep closes: a handshake the host never acknowledged, or a client gone silent. */
    predicate Finished(now: nat)
      reads this`active, this`lastClientAt
    {
      || (!active && now - createdAt > RELAY_HANDSHAKE_TTL_MS)
      || now - lastClientAt > RELAY_IDLE_TTL_MS
    }
  }

  ghost predicate NoneDropped(sessions: set<RelaySession>)
    reads sessions`dropped
  {
    forall s | s in sessions :: !s.dropped
  }

  ghost predicate ClientsIndexed(sessions: set<RelaySession>, byClient: map<Endpoint, RelaySession>) {
    && (forall s | s in sessions :: s.client in byClient && byClient[s.client] == s)
    && (forall key | key in byClient :: byClient[key] in sessions && byClient[key].client == key)
  }

  ghost predicate HostsLeased(sessions: set<RelaySession>, lease: map<HostId, RelaySession>) {
    && (forall s | s in sessions :: s.hostId in lease && lease[s.hostId] == s)
    && (forall hostId | hostId in lease :: lease[hostId] in sessions && lease[hostId].hostId == hostId)
  }

  /** The host index finds this session at its host's wire address. */
  ghost predicate FoundFromHost(byHost: map<Endpoint, RelaySession>, s: RelaySession)
    reads s`host
  {
    s.host in byHost && byHost[s.host] == s
  }

  ghost function Unfound(sessions: set<RelaySession>, byHost: map<Endpoint, RelaySession>): set<RelaySession>
    reads sessions`host
  {
    set s | s in sessions && !FoundFromHost(byHost, s)
  }

  /** One way only: a session whose host shares its wire address with another's may not be found here. Those that
      are not are the ones recorded as stranded. */
  ghost predicate HostsIndexed(sessions: set<RelaySession>, byHost: map<Endpoint, RelaySession>,
                               stranded: set<RelaySession>)
    reads sessions`host
  {
    && (forall key | key in byHost :: byHost[key] in sessions && byHost[key].host == key)
    && stranded == Unfound(sessions, byHost)
  }

  ghost function Kept(byHost: map<Endpoint, RelaySession>, sessions: set<RelaySession>): map<Endpoint, RelaySession> {
    map key | key in byHost && byHost[key] in sessions :: byHost[key]
  }

  ghost function Found(byHost: map<Endpoint, RelaySession>, key: Endpoint): set<RelaySession> {
    if key in byHost then {byHost[key]} else {}
  }

  ghost function Without(byHost: map<Endpoint, RelaySession>, s: RelaySession): map<Endpoint, RelaySession> {
    map key | key in byHost && byHost[key] != s :: byHost[key]
  }

  lemma DropKeepsIndexes(sessions: set<RelaySession>, byClient: map<Endpoint, RelaySession>,
                         lease: map<HostId, RelaySession>, s: RelaySession)
    requires ClientsIndexed(sessions, byClient) && HostsLeased(sessions, lease) && s in sessions
    ensures ClientsIndexed(sessions - {s}, byClient - {s.client})
    ensures HostsLeased(sessions - {s}, lease - {s.hostId})
  {
  }

  lemma DropKeepsHosts(sessions: set<RelaySession>, byHost: map<Endpoint, RelaySession>,
                       stranded: set<RelaySession>, s: RelaySession)
    requires HostsIndexed(sessions, byHost, stranded) && s in sessions
    ensures HostsIndexed(sessions - {s}, Kept(byHost, sessions - {s}), stranded - {s})
    ensures Kept(byHost, sessions - {s}) ==
              if s.host in byHost && byHost[s.host] == s then byHost - {s.host} else byHost
  {
  }

  lemma AllKept(sessions: set<RelaySession>, byHost: map<Endpoint, RelaySession>, stranded: set<RelaySession>)
    requires HostsIndexed(sessions, byHost, stranded)
    ensures Kept(byHost, sessions) == byHost && stranded * sessions == stranded
  {
  }

  lemma KeptTwice(byHost: map<Endpoint, RelaySession>, stranded: set<RelaySession>,
                  some: set<RelaySession>, fewer: set<RelaySession>)
    requires fewer <= some
    ensures Kept(Kept(byHost, some), fewer) == Kept(byHost, fewer)
    ensures stranded * some * fewer == stranded * fewer
  {
  }

  /** Live sessions are pairwise distinct by host and by client endpoint. */
  lemma LiveSessionsAreDistinct(sessions: set<RelaySession>, byClient: map<Endpoint, RelaySession>,
                                lease: map<HostId, RelaySession>, s: RelaySession, t: RelaySession)
    requires ClientsIndexed(sessions, byClient) && HostsLeased(sessions, lease)
    requires s in sessions && t in sessions && s != t
    ensures s.hostId != t.hostId && s.client != t.client
  {
    assert lease[s.hostId] == s && lease[t.hostId] == t;
    assert byClient[s.client] == s && byClient[t.client] == t;
  }

  lemma AdmitKeepsIndexes(sessions: set<RelaySession>, byClient: map<Endpoint, RelaySession>,
                          lease: map<HostId, RelaySession>, s: RelaySession)
    requires ClientsIndexed(sessions, byClient) && HostsLeased(sessions, lease)
    requires s.hostId !in lease && s.client !in byClient
    ensures ClientsIndexed(sessions + {s}, byClient[s.client := s])
    ensures HostsLeased(sessions + {s}, lease[s.hostId := s])
  {
  }

  /** A new session takes its host's address in the index: the one found there until now is not found any more. */
  lemma AdmitStrands(sessions: set<RelaySession>, byHost: map<Endpoint, RelaySession>,
                     stranded: set<RelaySession>, s: RelaySession)
    requires HostsIndexed(sessions, byHost, stranded) && s !in sessions
    ensures HostsIndexed(sessions + {s}, byHost[s.host := s], stranded + Found(byHost, s.host))
  {
  }

  /** Whom a bind leaves stranded: those who were, and the one found at its host's address, as far as they stay. */
  ghost function StrandedAfter(stranded: set<RelaySession>, byHost: map<Endpoint, RelaySession>,
                               others: set<RelaySession>, aim: Endpoint): set<RelaySession> {
    (stranded + Found(byHost, aim)) * others
  }

  lemma OneLessDue(sessions: set<RelaySession>, due: set<RelaySession>, rest: set<RelaySession>, s: RelaySession)
    requires s in rest
    ensures sessions - (due - (rest - {s}))
         == if s in due then sessions - (due - rest) - {s} else sessions - (due - rest)
  {
  }

  lemma StrandedTogether(stranded: set<RelaySession>, byHost: map<Endpoint, RelaySession>,
                         others: set<RelaySession>, aim: Endpoint)
    ensures stranded * others + Found(Kept(byHost, others), aim) == StrandedAfter(stranded, byHost, others, aim)
  {
  }

  /** The sessions that neither hold this host nor use this client address. */
  ghost function Others(sessions: set<RelaySession>, hostId: HostId, client: Endpoint): set<RelaySession> {
    set s | s in sessions && s.hostId != hostId && s.client != client
  }

  ghost function OffHost(sessions: set<RelaySession>, hostId: HostId): (r: set<RelaySession>)
    ensures r <= sessions
  {
    set s | s in sessions && s.hostId != hostId
  }

  lemma UnclosedOneMore(sessions: set<RelaySession>, hostIds: seq<HostId>, h: HostId)
    ensures Unclosed(sessions, hostIds + [h]) == OffHost(Unclosed(sessions, hostIds), h)
    ensures |sessions - Unclosed(sessions, hostIds + [h])|
         == |sessions - Unclosed(sessions, hostIds)| + |Unclosed(sessions, hostIds) - Unclosed(sessions, hostIds + [h])|
  {
    var some, fewer := Unclosed(sessions, hostIds), Unclosed(sessions, hostIds + [h]);
    assert sessions - fewer == (sessions - some) + (some - fewer);
  }

  ghost function Unclosed(sessions: set<RelaySession>, hostIds: seq<HostId>): (r: set<RelaySession>)
    ensures r <= sessions
  {
    set s | s in sessions && s.hostId !in hostIds
  }

  /** The first reason a Hello is turned away, if there is one. */
  ghost function BindRefusal(auths: map<Token, Auth>, latest: map<HostId, Token>, hosts: map<HostId, HostRecord>,
                             from: Endpoint, token: Token, now: nat): Option<Refusal> {
    if token !in auths || now > auths[token].expiresAt then Some(UnknownToken)
    else
      var auth := auths[token];
      if auth.clientWireIp != from.ip then Some(WireMismatch)
      else if auth.hostId !in latest || latest[auth.hostId] != token then Some(Superseded)
      else if auth.hostId !in hosts || hosts[auth.hostId].publicIp == "" || hosts[auth.hostId].publicUdpPort == 0
      then Some(HostUnknown)
      else if !hosts[auth.hostId].active then Some(HostInactive)
      else None
  }

  /** A Hello that does not merely repeat the capability of the session already at its address. */
  ghost predicate IsNewHello(byClient: map<Endpoint, RelaySession>, from: Endpoint, packet: Packet) {
    && packet.Hello? && packet.token.Some?
    && !(from in byClient && byClient[from].token == packet.token.value)
  }

  /** An address whose connect is still relay-eligible and that was not answered from this endpoint yet. */
  predicate AwaitsPunch(eligibleByIp: map<Ip, Eligible>, from: Endpoint, now: nat) {
    && from.ip in eligibleByIp && now <= eligibleByIp[from.ip].expiresAt
    && from !in eligibleByIp[from.ip].replied
  }

  function Answering(eligibleByIp: map<Ip, Eligible>, from: Endpoint): map<Ip, Eligible>
    requires from.ip in eligibleByIp
  {
    var e := eligibleByIp[from.ip];
    eligibleByIp[from.ip := e.(replied := e.replied + {from})]
  }

  ghost predicate IsNewSession(s: RelaySession, auth: Auth, token: Token, client: Endpoint, now: nat)
    reads s
  {
    && s.hostId == auth.hostId && s.connectId == auth.connectId && s.token == token && s.client == client
    && !s.active && s.createdAt == s.lastClientAt == s.lastHostAt == now
  }

  lemma BindStrandsIff(byHost: map<Endpoint, RelaySession>, others: set<RelaySession>, s: RelaySession,
                       bound: RelaySession, aim: Endpoint)
    requires s in others && bound !in others && FoundFromHost(byHost, s)
    ensures FoundFromHost(Kept(byHost, others)[aim := bound], s) <==> s.host != aim
  {
    assert s.host in Kept(byHost, others);
  }

  /** Of the sessions the index found from their host before, exactly those at this address are not found now. */
  ghost predicate StrandsOnly(before: map<Endpoint, RelaySession>, after: map<Endpoint, RelaySession>,
                              sessions: set<RelaySession>, aim: Endpoint)
    reads sessions`host
  {
    forall s | s in sessions && FoundFromHost(before, s) :: FoundFromHost(after, s) <==> s.host != aim
  }

  lemma StrandedByBind(byHost: map<Endpoint, RelaySession>, others: set<RelaySession>,
                       bound: RelaySession, aim: Endpoint)
    requires bound !in others
    ensures StrandsOnly(byHost, Kept(byHost, others)[aim := bound], others, aim)
  {
    forall s | s in others && FoundFromHost(byHost, s)
      ensures FoundFromHost(Kept(byHost, others)[aim := bound], s) <==> s.host != aim
    {
      BindStrandsIff(byHost, others, s, bound, aim);
    }
  }

  /** There are exactly as many live sessions as leased hosts: one each. */
  lemma {:induction false} OneSessionPerHost(sessions: set<RelaySession>, lease: map<HostId, RelaySession>)
    requires HostsLeased(sessions, lease)
    ensures |sessions| == |lease.Keys|
    decreases |sessions|
  {
    if s :| s in sessions {
      OneSessionPerHost(sessions - {s}, lease - {s.hostId});
      assert (lease - {s.hostId}).Keys == lease.Keys - {s.hostId};
    } else {
      assert lease.Keys == {};
    }
  }

  // ------------------------------------------------------------------ the relay

  class Relay {
    var sessions: set<RelaySession>
    var byClient: map<Endpoint, RelaySession>
    var byHost: map<Endpoint, RelaySession>
    var lease: map<HostId, RelaySession>
    var authByToken: map<Token, Auth>
    var latestByHost: map<HostId, Token>
    var eligibleByIp: map<Ip, Eligible>
    ghost var mints: seq<Mint>
    /** The live sessions not found from their host, kept step by step. */
    ghost var stranded: set<RelaySession>

    /** The set is authoritative and the three maps are only indexes into it. */
    ghost predicate Indexed()
      reads this`sessions, this`byClient, this`byHost, this`lease, this`stranded, sessions`host, sessions`dropped
    {
      && NoneDropped(sessions) && ClientsIndexed(sessions, byClient)
      && HostsLeased(sessions, lease) && HostsIndexed(sessions, byHost, stranded)
    }

    ghost predicate Valid()
      reads this, sessions
    {
      Indexed() && Capable(mints, authByToken, latestByHost)
    }

    constructor ()
      ensures Valid() && sessions == {} && byHost == map[] && mints == [] && stranded == {}
      ensures authByToken == map[] && latestByHost == map[]
    {
      sessions, byClient, byHost, lease := {}, map[], map[], map[];
      authByToken, latestByHost, eligibleByIp, mints, stranded := map[], map[], map[], [], {};
    }

    /** Idempotent; an index entry goes only when it still points at this session. */
    method DropSession(s: RelaySession)
      requires Indexed() && (s in sessions || s.dropped)
      modifies this`sessions, this`byClient, this`byHost, this`lease, this`stranded, s`dropped
      ensures Indexed() && s.dropped && sessions == old(sessions) - {s} && stranded == old(stranded) - {s}
      ensures byHost == Kept(old(byHost), sessions)
    {
      if s.dropped {
        AllKept(sessions, byHost, stranded);
        return;
      }
      DropKeepsIndexes(sessions, byClient, lease, s);
      DropKeepsHosts(sessions, byHost, stranded, s);
      s.dropped := true;
      Forget(s);
    }

    /** Each entry goes only if it is this session's. */
    method Forget(s: RelaySession)
      requires s.client in byClient && byClient[s.client] == s && s.hostId in lease && lease[s.hostId] == s
      modifies this`sessions, this`byClient, this`byHost, this`lease, this`stranded
      ensures sessions == old(sessions) - {s} && stranded == old(stranded) - {s}
      ensures byClient == old(byClient) - {s.client} && lease == old(lease) - {s.hostId}
      ensures byHost == if FoundFromHost(old(byHost), s) then old(byHost) - {s.host} else old(byHost)
    {
      sessions := sessions - {s};
      stranded := stranded - {s};
      if s.client in byClient && byClient[s.client] == s {
        byClient := byClient - {s.client};
      }
      if s.host in byHost && byHost[s.host] == s {
        byHost := byHost - {s.host};
      }
      if s.hostId in lease && lease[s.hostId] == s {
        lease := lease - {s.hostId};
      }
    }

    /** A heartbeat moved the host's wire address: its session follows it, both ways, and a session of
        another host that was found there is closed. */
    method FollowHostWire(hostId: HostId, aim: Endpoint)
      requires Indexed()
      modifies this`sessions, this`byClient, this`byHost, this`lease, this`stranded, sessions`host, sessions`dropped
      ensures Indexed()
      ensures hostId !in old(lease) || old(lease[hostId].host) == aim ==>
                sessions == old(sessions) && byHost == old(byHost) && stranded == old(stranded)
      ensures hostId in old(lease) && old(lease[hostId].host) != aim ==>
                var s := old(lease)[hostId];
                && s in sessions && s.host == aim
                && sessions == old(sessions) - Found(old(byHost), aim)
                && byHost == Without(Kept(old(byHost), sessions), s)[aim := s]
                && stranded == old(stranded) * sessions - {s}
      ensures forall s | s in old(sessions) && s.hostId != hostId :: s.host == old(s.host)
    {
      if hostId !in lease {
        return;
      }
      var s := lease[hostId];
      if s.host == aim {
        return;
      }
      DropSquatter(s, aim);
      MoveHost(s, aim);
    }

    method DropSquatter(s: RelaySession, aim: Endpoint)
      requires Indexed() && s in sessions && s.host != aim
      modifies this`sessions, this`byClient, this`byHost, this`lease, this`stranded, sessions`dropped
      ensures Indexed() && s in sessions && aim !in byHost
      ensures sessions == old(sessions) - Found(old(byHost), aim)
      ensures byHost == Kept(old(byHost), sessions) && stranded == old(stranded) * sessions
    {
      if aim in byHost && byHost[aim] != s && !byHost[aim].dropped {
        DropSession(byHost[aim]);
      } else {
        AllKept(sessions, byHost, stranded);
      }
    }

    method MoveHost(s: RelaySession, aim: Endpoint)
      requires Indexed() && s in sessions && aim !in byHost
      modifies this`byHost, this`stranded, s`host
      ensures Indexed() && s.host == aim && byHost == Without(old(byHost), s)[aim := s]
      ensures stranded == old(stranded) - {s}
    {
      Readdress(s, aim);
      assert forall t | t in sessions && t != s :: FoundFromHost(byHost, t) <==> old(FoundFromHost(byHost, t));
    }

    method Readdress(s: RelaySession, aim: Endpoint)
      requires forall key | key in byHost && byHost[key] == s :: key == s.host
      modifies this`byHost, this`stranded, s`host
      ensures s.host == aim && byHost == Without(old(byHost), s)[aim := s] && stranded == old(stranded) - {s}
    {
      if s.host in byHost && byHost[s.host] == s {
        byHost := byHost - {s.host};
      }
      assert byHost == Without(old(byHost), s);
      s.host := aim;
      byHost := byHost[aim := s];
      stranded := stranded - {s};
    }

    /** Mints a capability for a connect that may be relayed; the host's previous one is gone at once. */
    method MintCapability(hostId: HostId, token: Token, clientWireIp: Ip, connectId: string, now: nat)
      requires Valid() && forall m | m in mints :: m.token != token
      modifies this`authByToken, this`latestByHost, this`eligibleByIp, this`mints
      ensures Valid() && mints == old(mints) + [Mint(hostId, token)]
      ensures authByToken == WithoutHost(old(authByToken), hostId)
                               [token := Auth(hostId, clientWireIp, connectId, now + RELAY_AUTH_TTL_MS)]
      ensures latestByHost == old(latestByHost)[hostId := token]
      ensures eligibleByIp == old(eligibleByIp)[clientWireIp := Eligible(connectId, now + RELAY_AUTH_TTL_MS, {})]
    {
      var auth := Auth(hostId, clientWireIp, connectId, now + RELAY_AUTH_TTL_MS);
      MintKeepsCapable(mints, authByToken, latestByHost, token, auth);
      ReplacingIsEnough(mints, authByToken, latestByHost, token, auth);
      Issue(token, auth);
      eligibleByIp := eligibleByIp[clientWireIp := Eligible(connectId, now + RELAY_AUTH_TTL_MS, {})];
    }

    method Issue(token: Token, auth: Auth)
      modifies this`authByToken, this`latestByHost, this`mints
      ensures mints == old(mints) + [Mint(auth.hostId, token)]
      ensures latestByHost == old(latestByHost)[auth.hostId := token]
      ensures authByToken == if auth.hostId in old(latestByHost) && old(latestByHost)[auth.hostId] != token
                             then old(authByToken)[token := auth] - {old(latestByHost)[auth.hostId]}
                             else old(authByToken)[token := auth]
    {
      authByToken := authByToken[token := auth];
      if auth.hostId in latestByHost && latestByHost[auth.hostId] != token {
        authByToken := authByToken - {latestByHost[auth.hostId]};
      }
      latestByHost := latestByHost[auth.hostId := token];
      mints := mints + [Mint(auth.hostId, token)];
    }

    /** A Hello with a usable capability is what creates a session, and the newest connect wins: whatever
        session held the host, or the client's address, is closed first. What the host index does not promise:
        a session found from its host before is found afterwards if and only if the new one's host is not
        behind the same wire address. */
    method BindSession(from: Endpoint, token: Token, hosts: map<HostId, HostRecord>, now: nat)
      returns (refused: Option<Refusal>, bound: RelaySession?)
      requires Valid()
      modifies this`sessions, this`byClient, this`byHost, this`lease, this`stranded, sessions`dropped
      ensures Valid()
      ensures refused == BindRefusal(authByToken, latestByHost, hosts, from, token, now)
      ensures refused != Some(Superseded)
      ensures refused.Some? ==>
                bound == null && sessions == old(sessions) && byHost == old(byHost) && stranded == old(stranded)
      ensures refused.None? ==>
                && bound != null && fresh(bound) && token in authByToken
                && NewestFor(mints, bound.hostId) == Some(token)
                && IsNewSession(bound, authByToken[token], token, from, now)
                && sessions == Others(old(sessions), bound.hostId, from) + {bound}
                && sessions - {bound} == Others(old(sessions), bound.hostId, from)
                && bound.hostId in hosts && bound.host == hosts[bound.hostId].aim
                && byHost == Kept(old(byHost), Others(old(sessions), bound.hostId, from))[bound.host := bound]
      ensures refused.None? ==>
                && FoundFromHost(byHost, bound)
                && StrandsOnly(old(byHost), byHost, sessions - {bound}, bound.host)
                && stranded == StrandedAfter(old(stranded), old(byHost), sessions - {bound}, bound.host)
    {
      bound := null;
      if token !in authByToken || now > authByToken[token].expiresAt {
        return Some(UnknownToken), null;
      }
      var auth := authByToken[token];
      if auth.clientWireIp != from.ip {
        return Some(WireMismatch), null;
      }
      if auth.hostId !in latestByHost || latestByHost[auth.hostId] != token {
        return Some(Superseded), null;
      }
      if auth.hostId !in hosts || hosts[auth.hostId].publicIp == "" || hosts[auth.hostId].publicUdpPort == 0 {
        return Some(HostUnknown), null;
      }
      if !hosts[auth.hostId].active {
        return Some(HostInactive), null;
      }
      refused := None;
      bound := Replace(auth, token, from, hosts[auth.hostId].aim, now);
    }

    method Replace(auth: Auth, token: Token, from: Endpoint, aim: Endpoint, now: nat) returns (bound: RelaySession)
      requires Indexed()
      modifies this`sessions, this`byClient, this`byHost, this`lease, this`stranded, sessions`dropped
      ensures Indexed() && fresh(bound) && IsNewSession(bound, auth, token, from, now) && bound.host == aim
      ensures sessions == Others(old(sessions), auth.hostId, from) + {bound}
      ensures byHost == Kept(old(byHost), Others(old(sessions), auth.hostId, from))[aim := bound]
      ensures FoundFromHost(byHost, bound)
      ensures StrandsOnly(old(byHost), byHost, Others(old(sessions), auth.hostId, from), aim)
      ensures stranded == StrandedAfter(old(stranded), old(byHost), Others(old(sessions), auth.hostId, from), aim)
    {
      MakeRoom(auth.hostId, from);
      bound := new RelaySession(auth, token, from, aim, now);
      StrandedByBind(old(byHost), sessions, bound, aim);
      StrandedTogether(old(stranded), old(byHost), sessions, aim);
      Admit(bound);
    }

    method MakeRoom(hostId: HostId, client: Endpoint)
      requires Indexed()
      modifies this`sessions, this`byClient, this`byHost, this`lease, this`stranded, sessions`dropped
      ensures Indexed() && hostId !in lease && client !in byClient
      ensures sessions == Others(old(sessions), hostId, client)
      ensures byHost == Kept(old(byHost), sessions) && stranded == old(stranded) * sessions
    {
      var closed := DropLease(hostId);
      ghost var some := sessions;
      DropClient(client);
      KeptTwice(old(byHost), old(stranded), some, sessions);
    }

    method DropLease(hostId: HostId) returns (closed: nat)
      requires Indexed()
      modifies this`sessions, this`byClient, this`byHost, this`lease, this`stranded, sessions`dropped
      ensures Indexed() && hostId !in lease
      ensures sessions == OffHost(old(sessions), hostId)
      ensures closed == |old(sessions) - sessions| && (closed == 0 <==> hostId !in old(lease)) && closed <= 1
      ensures byHost == Kept(old(byHost), sessions) && stranded == old(stranded) * sessions
    {
      closed := 0;
      if hostId in lease && !lease[hostId].dropped {
        ghost var gone := lease[hostId];
        DropSession(lease[hostId]);
        closed := 1;
        assert old(sessions) - sessions == {gone};
      } else {
        assert old(sessions) - sessions == {};
        AllKept(sessions, byHost, stranded);
      }
    }

    method DropClient(client: Endpoint)
      requires Indexed()
      modifies this`sessions, this`byClient, this`byHost, this`lease, this`stranded, sessions`dropped
      ensures Indexed() && client !in byClient && lease.Keys <= old(lease.Keys)
      ensures sessions == set s | s in old(sessions) && s.client != client
      ensures byHost == Kept(old(byHost), sessions) && stranded == old(stranded) * sessions
    {
      if client in byClient && !byClient[client].dropped {
        DropSession(byClient[client]);
      } else {
        AllKept(sessions, byHost, stranded);
      }
    }

    method Admit(s: RelaySession)
      requires Indexed() && !s.dropped && s.hostId !in lease && s.client !in byClient
      modifies this`sessions, this`byClient, this`byHost, this`lease, this`stranded
      ensures Indexed() && sessions == old(sessions) + {s} && byHost == old(byHost)[s.host := s]
      ensures stranded == old(stranded) + Found(old(byHost), s.host)
    {
      AdmitKeepsIndexes(sessions, byClient, lease, s);
      AdmitStrands(sessions, byHost, stranded, s);
      Record(s);
    }

    method Record(s: RelaySession)
      modifies this`sessions, this`byClient, this`byHost, this`lease, this`stranded
      ensures sessions == old(sessions) + {s} && stranded == old(stranded) + Found(old(byHost), s.host)
      ensures byClient == old(byClient)[s.client := s] && byHost == old(byHost)[s.host := s]
      ensures lease == old(lease)[s.hostId := s]
    {
      stranded := stranded + Found(byHost, s.host);
      sessions := sessions + {s};
      byClient := byClient[s.client := s];
      byHost := byHost[s.host := s];
      lease := lease[s.hostId := s];
    }

    /** Everything that expires: capabilities, eligible addresses, and sessions that are finished. */
    method Sweep(now: nat)
      requires Valid()
      modifies this`sessions, this`byClient, this`byHost, this`lease, this`stranded, this`authByToken, this`eligibleByIp
      modifies sessions`dropped
      ensures Valid()
      ensures authByToken == map t | t in old(authByToken) && now <= old(authByToken)[t].expiresAt ::
                               old(authByToken)[t]
      ensures eligibleByIp == map ip | ip in old(eligibleByIp) && now <= old(eligibleByIp)[ip].expiresAt ::
                                       old(eligibleByIp)[ip]
      ensures sessions == set s | s in old(sessions) && !s.Finished(now)
      ensures byHost == Kept(old(byHost), sessions) && stranded == old(stranded) * sessions
    {
      authByToken := map t | t in authByToken && now <= authByToken[t].expiresAt :: authByToken[t];
      eligibleByIp := map ip | ip in eligibleByIp && now <= eligibleByIp[ip].expiresAt :: eligibleByIp[ip];
      CloseFinished(now);
    }

    method CloseFinished(now: nat)
      requires Indexed()
      modifies this`sessions, this`byClient, this`byHost, this`lease, this`stranded, sessions`dropped
      ensures Indexed()
      ensures sessions == set s | s in old(sessions) && !s.Finished(now)
      ensures byHost == Kept(old(byHost), sessions) && stranded == old(stranded) * sessions
    {
      ghost var due := set s | s in sessions && s.Finished(now);
      var rest := sessions;
      AllKept(sessions, byHost, stranded);
      while rest != {}
        invariant Indexed() && rest <= sessions && sessions == old(sessions) - (due - rest)
        invariant byHost == Kept(old(byHost), sessions) && stranded == old(stranded) * sessions
      {
        var s :| s in rest;
        OneLessDue(old(sessions), due, rest, s);
        rest := rest - {s};
        if s.Finished(now) {
          ghost var some := sessions;
          DropSession(s);
          KeptTwice(old(byHost), old(stranded), some, sessions);
        }
      }
    }

    /** Closes what is open for these hosts now: their sessions, and the capabilities that could open one. */
    method CloseHostsNow(hostIds: seq<HostId>) returns (relays: nat)
      requires Valid()
      modifies this`sessions, this`byClient, this`byHost, this`lease, this`stranded, this`authByToken, this`latestByHost
      modifies sessions`dropped
      ensures Valid()
      ensures sessions == Unclosed(old(sessions), hostIds)
      ensures relays == |old(sessions) - sessions|
      ensures authByToken == WithoutHosts(old(authByToken), hostIds)
      ensures latestByHost == LatestWithout(old(latestByHost), hostIds)
      ensures byHost == Kept(old(byHost), sessions) && stranded == old(stranded) * sessions
    {
      relays := 0;
      AllKept(sessions, byHost, stranded);
      WithoutNone(authByToken, latestByHost);
      for i := 0 to |hostIds|
        invariant Valid() && sessions == Unclosed(old(sessions), hostIds[..i])
        invariant relays == |old(sessions) - sessions|
        invariant authByToken == WithoutHosts(old(authByToken), hostIds[..i])
        invariant latestByHost == LatestWithout(old(latestByHost), hostIds[..i])
        invariant byHost == Kept(old(byHost), sessions) && stranded == old(stranded) * sessions
      {
        ghost var some := sessions;
        var closed := CloseHost(hostIds[i]);
        relays := relays + closed;
        assert hostIds[..i + 1] == hostIds[..i] + [hostIds[i]];
        WithoutOneMore(old(authByToken), old(latestByHost), hostIds[..i], hostIds[i]);
        KeptTwice(old(byHost), old(stranded), some, sessions);
        UnclosedOneMore(old(sessions), hostIds[..i], hostIds[i]);
      }
      assert hostIds[..|hostIds|] == hostIds;
    }

    method CloseHost(hostId: HostId) returns (closed: nat)
      requires Valid()
      modifies this`sessions, this`byClient, this`byHost, this`lease, this`stranded, this`authByToken, this`latestByHost
      modifies sessions`dropped
      ensures Valid()
      ensures sessions == OffHost(old(sessions), hostId)
      ensures closed == |old(sessions) - sessions|
      ensures authByToken == WithoutHost(old(authByToken), hostId)
      ensures latestByHost == old(latestByHost) - {hostId}
      ensures byHost == Kept(old(byHost), sessions) && stranded == old(stranded) * sessions
    {
      closed := CloseSessionsOf(hostId);
      assert Capable(mints, authByToken, latestByHost);
      DropCapabilities(hostId);
      assert Indexed();
    }

    method CloseSessionsOf(hostId: HostId) returns (closed: nat)
      requires Indexed()
      modifies this`sessions, this`byClient, this`byHost, this`lease, this`stranded, sessions`dropped
      ensures Indexed() && sessions == OffHost(old(sessions), hostId)
      ensures closed == |old(sessions) - sessions|
      ensures byHost == Kept(old(byHost), sessions) && stranded == old(stranded) * sessions
    {
      closed := DropLease(hostId);
      var more := SearchFindsNone(hostId);
      closed := closed + more;
    }

    method DropCapabilities(hostId: HostId)
      requires Capable(mints, authByToken, latestByHost)
      modifies this`authByToken, this`latestByHost
      ensures Capable(mints, authByToken, latestByHost)
      ensures authByToken == WithoutHost(old(authByToken), hostId)
      ensures latestByHost == old(latestByHost) - {hostId}
    {
      ClosingKeepsCapable(mints, authByToken, latestByHost, hostId);
      authByToken := WithoutHost(authByToken, hostId);
      latestByHost := latestByHost - {hostId};
    }

    /** The lease found the host's only session, so the search of the whole set that follows drops nothing. */
    method SearchFindsNone(hostId: HostId) returns (closed: nat)
      requires Indexed() && hostId !in lease
      ensures closed == 0
    {
      closed := 0;
      var rest := sessions;
      while rest != {}
        invariant rest <= sessions
      {
        var s :| s in rest;
        rest := rest - {s};
        if s.hostId == hostId {
          assert false;
        }
      }
    }

    // ---------------------------------------------------------------- datagrams

    method ForwardToHost(s: RelaySession, now: nat) returns (to: Endpoint)
      modifies s`lastClientAt
      ensures s.lastClientAt == now && to == s.host
    {
      s.lastClientAt := now;
      to := s.host;
    }

    /** A Hello with a readable capability: the one its session was bound with, or it has to bind anew. */
    method OnHello(from: Endpoint, token: Token, hosts: map<HostId, HostRecord>, now: nat)
      returns (outcome: Outcome, via: RelaySession?)
      requires Valid()
      modifies this`sessions, this`byClient, this`byHost, this`lease, this`stranded
      modifies sessions`dropped, sessions`lastClientAt
      ensures Valid()
      ensures via != null ==>
                && via in sessions && via.client == from && via.token == token && via.lastClientAt == now
                && outcome == Forwarded(via.host)
      ensures via == null || via in old(sessions) ==> sessions == old(sessions) && stranded == old(stranded)
      ensures via != null && via !in old(sessions) ==>
                && NewestFor(mints, via.hostId) == Some(token)
                && sessions == Others(old(sessions), via.hostId, from) + {via}
                && stranded == StrandedAfter(old(stranded), old(byHost), sessions - {via}, via.host)
      ensures if from in old(byClient) && old(byClient)[from].token == token then via == old(byClient)[from]
              else
                var refusal := BindRefusal(authByToken, latestByHost, hosts, from, token, now);
                if refusal.Some? then via == null && outcome == Refused(refusal.value)
                else via != null && via !in old(sessions)
    {
      if from in byClient && !byClient[from].dropped && byClient[from].token == token {
        via := byClient[from];
        var to := ForwardToHost(via, now);
        outcome := Forwarded(to);
        return;
      }
      var refused;
      refused, via := BindSession(from, token, hosts, now);
      if via == null {
        outcome := Refused(refused.value);
        return;
      }
      var to := ForwardToHost(via, now);
      outcome := Forwarded(to);
    }

    /** A datagram on the client-facing port. A Hello is read before the established path, and one whose
        capability cannot be read is dropped; nothing but a Hello opens anything. */
    method OnClientPacket(from: Endpoint, packet: Packet, hosts: map<HostId, HostRecord>, now: nat)
      returns (outcome: Outcome, via: RelaySession?)
      requires Valid()
      modifies this`sessions, this`byClient, this`byHost, this`lease, this`stranded, this`eligibleByIp
      modifies sessions`dropped, sessions`lastClientAt
      ensures Valid()
      ensures outcome.Forwarded? <==> via != null
      ensures via != null ==> via in sessions && via.client == from && via.lastClientAt == now && outcome.to == via.host
      ensures via != null && packet.Hello? ==> packet.token == Some(via.token)
      ensures via != null && via !in old(sessions) ==>
                packet.Hello? && packet.token.Some? && NewestFor(mints, via.hostId) == packet.token
      ensures via == null || via in old(sessions) ==> sessions == old(sessions) && stranded == old(stranded)
      ensures via != null && via !in old(sessions) ==>
                stranded == StrandedAfter(old(stranded), old(byHost), sessions - {via}, via.host)
      ensures IsNewHello(old(byClient), from, packet) ==>
                var refusal := BindRefusal(authByToken, latestByHost, hosts, from, packet.token.value, now);
                if refusal.Some? then outcome == Refused(refusal.value) else via != null && via !in old(sessions)
      ensures !IsNewHello(old(byClient), from, packet) ==>
                && !outcome.Refused?
                && (via != null <==> from in old(byClient) && packet != Hello(None))
      ensures outcome.Answered? <==>
                packet.Punch? && from !in old(byClient) && AwaitsPunch(old(eligibleByIp), from, now)
      ensures eligibleByIp == if outcome.Answered? then Answering(old(eligibleByIp), from) else old(eligibleByIp)
    {
      if packet.Hello? {
        if packet.token.None? {
          return Ignored, null;
        }
        outcome, via := OnHello(from, packet.token.value, hosts, now);
        return;
      }
      if from in byClient && !byClient[from].dropped {
        via := byClient[from];
        var to := ForwardToHost(via, now);
        outcome := Forwarded(to);
        return;
      }
      via := null;
      outcome := Ignored;
      if packet.Punch? {
        outcome := AnswerPunch(from, now);
      }
    }

    /** A punch carries no token: it is answered once per endpoint while its address is eligible. */
    method AnswerPunch(from: Endpoint, now: nat) returns (outcome: Outcome)
      modifies this`eligibleByIp
      ensures if AwaitsPunch(old(eligibleByIp), from, now)
              then outcome == Answered(old(eligibleByIp)[from.ip].connectId)
                   && eligibleByIp == Answering(old(eligibleByIp), from)
              else outcome == Ignored && eligibleByIp == old(eligibleByIp)
    {
      if from.ip !in eligibleByIp || now > eligibleByIp[from.ip].expiresAt {
        return Ignored;
      }
      var eligible := eligibleByIp[from.ip];
      if from in eligible.replied {
        return Ignored;
      }
      eligibleByIp := eligibleByIp[from.ip := eligible.(replied := eligible.replied + {from})];
      return Answered(eligible.connectId);
    }

    /** A datagram from a host's wire address, for whichever session is indexed there. */
    method OnHostPacket(from: Endpoint, packet: Packet, now: nat) returns (to: Option<Endpoint>)
      requires Valid()
      modifies sessions`active, sessions`ackMs, sessions`lastHostAt
      ensures Valid()
      ensures to.Some? <==> from in byHost
      ensures from in byHost ==>
                var s := byHost[from];
                && to == Some(s.client) && s.lastHostAt == now
                && (s.active <==> old(s.active) || packet == HelloAck(true))
                && (s.active && !old(s.active) ==> s.ackMs == Some(now - s.createdAt))
                && (old(s.active) ==> s.ackMs == old(s.ackMs))
      ensures forall s | s in stranded :: s.active == old(s.active) && s.lastHostAt == old(s.lastHostAt)
      ensures forall s | s in sessions && to != Some(s.client) ::
                s.active == old(s.active) && s.ackMs == old(s.ackMs) && s.lastHostAt == old(s.lastHostAt)
    {
      if from !in byHost || byHost[from].dropped {
        return None;
      }
      var s := byHost[from];
      s.lastHostAt := now;
      if !s.active && packet.HelloAck? && packet.directoryAuth {
        s.active := true;
        s.ackMs := Some(now - s.createdAt);
      }
      return Some(s.client);
    }
  }

  const SHARED := Endpoint("203.0.113.9", 43000)
  const VIEWERS: Ip := "198.51.100.1"
  const TWO_HOSTS := map["a" := HostRecord("203.0.113.9", 43000, true, SHARED),
                         "b" := HostRecord("203.0.113.9", 43000, true, SHARED)]

  const FIRST_AUTH := Auth("a", VIEWERS, "c1", RELAY_AUTH_TTL_MS)
  const SECOND_AUTH := Auth("b", VIEWERS, "c2", RELAY_AUTH_TTL_MS)

  lemma BothMayBind(auths: map<Token, Auth>, latest: map<HostId, Token>)
    requires "1" in auths && auths["1"] == FIRST_AUTH && "a" in latest && latest["a"] == "1"
    requires "2" in auths && auths["2"] == SECOND_AUTH && "b" in latest && latest["b"] == "2"
    ensures BindRefusal(auths, latest, TWO_HOSTS, Endpoint(VIEWERS, 1), "1", 0) == None
    ensures BindRefusal(auths, latest, TWO_HOSTS, Endpoint(VIEWERS, 2), "2", 0) == None
  {
    assert "a"[0] != "b"[0];
    assert TWO_HOSTS["a"] == TWO_HOSTS["b"] == HostRecord("203.0.113.9", 43000, true, SHARED);
  }

  method OneCapability() returns (r: Relay)
    ensures fresh(r) && r.Valid() && r.sessions == {} && r.byHost == map[] && r.mints == [Mint("a", "1")]
    ensures r.authByToken == map["1" := FIRST_AUTH] && r.latestByHost == map["a" := "1"]
  {
    r := new Relay();
    r.MintCapability("a", "1", VIEWERS, "c1", 0);
  }

  method TwoCapabilities() returns (r: Relay)
    ensures fresh(r) && r.Valid() && r.sessions == {} && r.byHost == map[]
    ensures BindRefusal(r.authByToken, r.latestByHost, TWO_HOSTS, Endpoint(VIEWERS, 1), "1", 0) == None
    ensures BindRefusal(r.authByToken, r.latestByHost, TWO_HOSTS, Endpoint(VIEWERS, 2), "2", 0) == None
    ensures "1" in r.authByToken && r.authByToken["1"].hostId == "a"
    ensures "2" in r.authByToken && r.authByToken["2"].hostId == "b"
  {
    assert "a"[0] != "b"[0] && "1"[0] != "2"[0];
    r := OneCapability();
    r.MintCapability("b", "2", VIEWERS, "c2", 0);
    BothMayBind(r.authByToken, r.latestByHost);
  }

  /** A viewer of another host behind the same wire address binds: the session that was there stays live, and
      is not found from its host any more. */
  method BindBehindSameAddress(r: Relay, first: RelaySession, from: Endpoint, token: Token,
                               hosts: map<HostId, HostRecord>, now: nat) returns (second: RelaySession)
    requires r.Valid() && r.sessions == {first} && FoundFromHost(r.byHost, first) && from != first.client
    requires BindRefusal(r.authByToken, r.latestByHost, hosts, from, token, now) == None
    requires var hostId := r.authByToken[token].hostId; hostId != first.hostId && hosts[hostId].aim == first.host
    modifies r`sessions, r`byClient, r`byHost, r`lease, r`stranded, first`dropped
    ensures r.Valid() && second != first && r.sessions == {first, second} && second.host == first.host
    ensures !FoundFromHost(r.byHost, first) && FoundFromHost(r.byHost, second)
  {
    var _, bound := r.BindSession(from, token, hosts, now);
    second := bound;
    assert first in Others({first}, second.hostId, from);
    assert r.sessions - {second} == {first};
  }

  /** Two hosts behind one wire address, one viewer each: both sessions are live, and the first can no longer
      be found from its host. */
  method TwoHostsOneAddress() returns (r: Relay, first: RelaySession, second: RelaySession)
    ensures r.Valid() && first != second && r.sessions == {first, second} && first.host == second.host
    ensures !FoundFromHost(r.byHost, first) && FoundFromHost(r.byHost, second)
  {
    assert "a"[0] != "b"[0];
    r := TwoCapabilities();
    var _, bound := r.BindSession(Endpoint(VIEWERS, 1), "1", TWO_HOSTS, 0);
    first := bound;
    assert r.sessions == {first};
    second := BindBehindSameAddress(r, first, Endpoint(VIEWERS, 2), "2", TWO_HOSTS, 0);
  }

  /** Whatever datagrams, mints, heartbeats, sweeps and closures came before: each live session is found under
      its own client key and host lease, and every entry of the three maps points to a live session whose
      current key is that entry's. */
  lemma WhatAlwaysHolds(r: Relay, s: RelaySession, key: Endpoint, hostId: HostId)
    requires r.Valid()
    ensures s in r.sessions ==>
              && !s.dropped && s.client in r.byClient && r.byClient[s.client] == s
              && s.hostId in r.lease && r.lease[s.hostId] == s
              && (FoundFromHost(r.byHost, s) <==> s !in r.stranded)
    ensures key in r.byClient ==> r.byClient[key] in r.sessions && r.byClient[key].client == key
    ensures key in r.byHost ==> r.byHost[key] in r.sessions && r.byHost[key].host == key
    ensures hostId in r.lease ==> r.lease[hostId] in r.sessions && r.lease[hostId].hostId == hostId
    ensures |r.sessions| == |r.lease.Keys|
  {
    OneSessionPerHost(r.sessions, r.lease);
  }
}
