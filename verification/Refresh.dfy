/** Token refreshes that overlap with other handlers (internal/server/handlers/token.go behind
    the middleware of auth.go): a refresh authenticates, issues and revokes in three steps, and
    anything may happen in between. When exactly does an agent end up with one token? */
module Refreshes {
  import opened Options
  import opened Deployments
  import opened Tables
  import opened Servers
  import opened Lifecycle

  /** A refresh: the token it presented, whose it was, when it authenticated, the token it
      issued (its raw value is the moment of issue) and whether it has ended. */
  datatype Rotation = Rotation(raw: nat, agent: AgentId, begun: nat, issued: Option<nat>, ended: bool)

  /** `registered` remembers when each agent last registered; `rotations` keeps all refreshes,
      under the moment they began. */
  datatype State = State(server: Server, registered: map<AgentId, nat>, rotations: map<nat, Rotation>)

  datatype Action =
    | Begin(raw: Option<nat>)   // the middleware authenticates
    | Issue(id: nat)            // the handler stores a new token
    | Revoke(id: nat)           // the handler revokes the presented one
    | Other(e: Event)           // any other handler, as one step

  ghost predicate Init(s: State) {
    Servers.Init(s.server) && s.registered == map[] && s.rotations == map[]
  }

  function Revoked(db: Db, raw: nat, now: nat): Db {
    if Digest(raw) in db.tokens then AfterRevoke(db, db.tokens[Digest(raw)].id, now) else db
  }

  ghost predicate Next(c: Config, s: State, action: Action, s': State) {
    var now, db := s.server.clock, s.server.db;
    match action
    case Begin(raw) =>
      s' == s.(server := AfterRequest(s.server, raw),
               rotations := match Authenticate(db, now, raw)
                 case Granted(agent) => s.rotations[now := Rotation(raw.value, agent, now, None, false)]
                 case Denied(_) => s.rotations)
    case Issue(id) =>
      && id in s.rotations && !s.rotations[id].ended && s.rotations[id].issued.None?
      && var p := s.rotations[id];
         s' == s.(server := Tick(s.server.(db := AfterIssue(db, c, p.agent, now))),
                  rotations := s.rotations[id :=
                    if CanCreateToken(db, Digest(now), NewToken(c, p.agent, now)) then p.(issued := Some(now))
                    else p.(ended := true)])
    case Revoke(id) =>
      && id in s.rotations && !s.rotations[id].ended && s.rotations[id].issued.Some?
      && var p := s.rotations[id];
         s' == s.(server := Tick(s.server.(db := Revoked(db, p.raw, now))),
             rotations := s.rotations[id := p.(ended := true)])
    case Other(e) =>
      && !e.Refresh?
      && s' == s.(server := After(s.server, c, e),
                  registered := if e.Register? && Refusal(c, e.req).None?
                                then s.registered[RegisteredId(s.server, e.req) := now] else s.registered)
  }

  // ── The schedule ─────────────────────────────────────────────────────────

  /** A refresh of the agent that issued its token after the agent's last registration. */
  ghost predicate Since(s: State, agent: AgentId, id: nat) {
    && agent in s.registered && id in s.rotations && s.rotations[id].agent == agent
    && s.rotations[id].issued.Some? && s.rotations[id].issued.value > s.registered[agent]
  }

  /** All these refreshes have ended. */
  ghost predicate Quiet(s: State, agent: AgentId) {
    forall id :: Since(s, agent, id) ==> s.rotations[id].ended
  }

  /** They all authenticated after that registration too, and no two presented the same token. */
  ghost predicate Orderly(s: State, agent: AgentId)
    requires agent in s.registered
  {
    && (forall id :: Since(s, agent, id) ==> s.rotations[id].begun > s.registered[agent])
    && (forall i, j :: Since(s, agent, i) && Since(s, agent, j) && s.rotations[i].raw == s.rotations[j].raw ==> i == j)
  }

  // ── What every step keeps ────────────────────────────────────────────────

  /** Issued to the agent at its last registration or by a refresh since. */
  ghost predicate Fresh(s: State, agent: AgentId, raw: nat)
    requires agent in s.registered
  {
    raw == s.registered[agent] || exists id :: Since(s, agent, id) && s.rotations[id].issued.value == raw
  }

  /** Revoked by a refresh since. */
  ghost predicate Spent(s: State, agent: AgentId, raw: nat) {
    exists id :: Since(s, agent, id) && s.rotations[id].ended && s.rotations[id].raw == raw
  }

  ghost predicate RotationOk(s: State, id: nat)
    requires id in s.rotations
  {
    var p := s.rotations[id];
    && p.begun == id < s.server.clock && p.raw < id && p.agent < id
    && (p.issued.Some? ==> id < p.issued.value < s.server.clock)
    && (p.agent in s.server.db.agents ==> Digest(p.raw) in s.server.db.tokens)
    && (Digest(p.raw) in s.server.db.tokens ==> s.server.db.tokens[Digest(p.raw)].agent == p.agent)
  }

  predicate SameIssue(p: Rotation, q: Rotation) {
    p.issued.Some? && p.issued == q.issued
  }

  ghost predicate RotationsOk(s: State) {
    && (forall id :: id in s.rotations ==> RotationOk(s, id))
    && (forall i, j :: i in s.rotations && j in s.rotations && SameIssue(s.rotations[i], s.rotations[j]) ==> i == j)
  }

  /** The agent's unrevoked tokens are the fresh ones that are not spent. */
  ghost predicate Accounted(s: State, agent: AgentId) {
    && agent in s.registered && s.registered[agent] < s.server.clock
    && (forall h :: Unrevoked(s.server.db, h, agent) <==> Fresh(s, agent, h.raw) && !Spent(s, agent, h.raw))
    && (forall id :: id in s.rotations && s.rotations[id].agent == agent && s.rotations[id].begun > s.registered[agent]
          ==> Fresh(s, agent, s.rotations[id].raw))
  }

  ghost predicate RInv(s: State) {
    Inv(s.server) && RotationsOk(s) && forall agent :: agent in s.server.db.agents ==> Accounted(s, agent)
  }

  /** Nothing that concerns the agent changed. */
  ghost predicate SameFor(s: State, s': State, agent: AgentId) {
    && agent in s.registered && agent in s'.registered && s'.registered[agent] == s.registered[agent]
    && s.server.clock <= s'.server.clock
    && (forall id :: id in s'.rotations && s'.rotations[id].agent == agent <==>
        id in s.rotations && s.rotations[id].agent == agent)
    && (forall id :: id in s.rotations && s.rotations[id].agent == agent ==> s'.rotations[id] == s.rotations[id])
    && (forall h :: Unrevoked(s'.server.db, h, agent) <==> Unrevoked(s.server.db, h, agent))
  }

  lemma SameForKeeps(s: State, s': State, agent: AgentId)
    requires Accounted(s, agent) && SameFor(s, s', agent)
    ensures Accounted(s', agent)
  {
    forall id ensures Since(s', agent, id) <==> Since(s, agent, id) {
    }
    forall raw ensures Fresh(s', agent, raw) <==> Fresh(s, agent, raw) {
    }
    forall raw ensures Spent(s', agent, raw) <==> Spent(s, agent, raw) {
    }
  }

  lemma SameUnrevoked(db: Db, db': Db, agent: AgentId)
    requires db'.tokens == db.tokens
    ensures forall h :: Unrevoked(db', h, agent) <==> Unrevoked(db, h, agent)
  {
  }

  lemma RequestFrame(s: Server, raw: Option<nat>)
    requires Inv(s)
    ensures var s' := AfterRequest(s, raw);
      Inv(s') && s'.db.tokens == s.db.tokens && s'.db.agents.Keys == s.db.agents.Keys && s'.clock == s.clock + 1
  {
    RequestKeeps(s, raw);
  }

  lemma BeginRotations(s: State, p: Rotation, s': State)
    requires Inv(s.server) && RotationsOk(s) && Unrevoked(s.server.db, Digest(p.raw), p.agent)
    requires p == Rotation(p.raw, p.agent, s.server.clock, None, false)
    requires s'.server.clock == s.server.clock + 1 && s'.server.db.tokens == s.server.db.tokens
    requires s'.server.db.agents.Keys == s.server.db.agents.Keys && s'.rotations == s.rotations[s.server.clock := p]
    ensures RotationsOk(s')
  {
    forall id | id in s'.rotations ensures RotationOk(s', id) {
      assert id != s.server.clock ==> RotationOk(s, id);
    }
  }

  lemma BeginKeeps(c: Config, s: State, raw: Option<nat>, s': State)
    requires RInv(s) && Next(c, s, Begin(raw), s')
    ensures RInv(s')
  {
    RequestFrame(s.server, raw);
    var auth := Authenticate(s.server.db, s.server.clock, raw);
    if auth.Granted? {
      assert Unrevoked(s.server.db, Digest(raw.value), auth.agent);
      BeginRotations(s, Rotation(raw.value, auth.agent, s.server.clock, None, false), s');
    } else {
      TickRotations(s, s');
    }
    forall agent | agent in s'.server.db.agents ensures Accounted(s', agent) {
      SameUnrevoked(s.server.db, s'.server.db, agent);
      BeginAccounted(s, raw, s', agent);
    }
  }

  /** Tokens keep their agents, and stay as long as these do; no old one comes back. */
  ghost predicate TokensStay(s: Server, s': Server) {
    && (forall h :: h in s.db.tokens && s.db.tokens[h].agent in s'.db.agents ==> h in s'.db.tokens)
    && (forall h :: h in s'.db.tokens && h.raw < s.clock ==>
        h in s.db.tokens && s'.db.tokens[h].agent == s.db.tokens[h].agent)
  }

  lemma TickRotations(s: State, s': State)
    requires RotationsOk(s) && s'.rotations == s.rotations && s.server.clock <= s'.server.clock
    requires forall agent :: agent in s'.server.db.agents ==> agent in s.server.db.agents || agent >= s.server.clock
    requires TokensStay(s.server, s'.server)
    ensures RotationsOk(s')
  {
    forall id | id in s'.rotations ensures RotationOk(s', id) {
      assert RotationOk(s, id);
    }
  }

  lemma BeginAccounted(s: State, raw: Option<nat>, s': State, agent: AgentId)
    requires RotationsOk(s) && Accounted(s, agent) && s'.registered == s.registered
    requires s'.server.clock == s.server.clock + 1
    requires forall h :: Unrevoked(s'.server.db, h, agent) <==> Unrevoked(s.server.db, h, agent)
    requires s'.rotations == match Authenticate(s.server.db, s.server.clock, raw)
      case Granted(a) => s.rotations[s.server.clock := Rotation(raw.value, a, s.server.clock, None, false)]
      case Denied(_) => s.rotations
    ensures Accounted(s', agent)
  {
    assert s.server.clock in s.rotations ==> RotationOk(s, s.server.clock);
    if Authenticate(s.server.db, s.server.clock, raw) == Granted(agent) {
      assert Unrevoked(s.server.db, Digest(raw.value), agent);
      BegunFor(s, s', agent);
    } else {
      SameForKeeps(s, s', agent);
    }
  }

  /** A new refresh presents an unrevoked token, so a fresh one. */
  lemma BegunFor(s: State, s': State, agent: AgentId)
    requires Accounted(s, agent) && s'.registered == s.registered && s.server.clock !in s.rotations
    requires s.server.clock in s'.rotations && s'.server.clock > s.server.clock
    requires var p := s'.rotations[s.server.clock];
      && s'.rotations == s.rotations[s.server.clock := p]
      && p.agent == agent && p.issued.None? && Unrevoked(s.server.db, Digest(p.raw), agent)
    requires forall h :: Unrevoked(s'.server.db, h, agent) <==> Unrevoked(s.server.db, h, agent)
    ensures Accounted(s', agent)
  {
    forall id ensures Since(s', agent, id) <==> Since(s, agent, id) {
    }
    forall raw ensures Fresh(s', agent, raw) <==> Fresh(s, agent, raw) {
    }
    forall raw ensures Spent(s', agent, raw) <==> Spent(s, agent, raw) {
    }
  }

  // ── Issue ────────────────────────────────────────────────────────────────

  lemma IssueInv(s: Server, c: Config, agent: AgentId)
    requires Inv(s)
    ensures Inv(Tick(s.(db := AfterIssue(s.db, c, agent, s.clock))))
  {
    MachinesKept(s.db, AfterIssue(s.db, c, agent, s.clock));
  }

  lemma IssueRotations(c: Config, s: State, id: nat, s': State)
    requires Inv(s.server) && RotationsOk(s) && Next(c, s, Issue(id), s')
    ensures RotationsOk(s') && Inv(s'.server)
  {
    IssueInv(s.server, c, s.rotations[id].agent);
    forall i | i in s'.rotations ensures RotationOk(s', i) {
      assert RotationOk(s, i);
    }
    forall i, j | i in s'.rotations && j in s'.rotations && SameIssue(s'.rotations[i], s'.rotations[j]) ensures i == j {
      assert RotationOk(s, i) && RotationOk(s, j);
      assert i != id && j != id ==> SameIssue(s.rotations[i], s.rotations[j]);
    }
  }

  /** The refresh gives its agent a new token that is fresh and not spent. */
  lemma IssueAccounted(s: State, s': State, id: nat)
    requires RotationsOk(s) && id in s.rotations && s.rotations[id].issued.None? && !s.rotations[id].ended
    requires Accounted(s, s.rotations[id].agent)
    requires s'.registered == s.registered && s'.server.clock == s.server.clock + 1
    requires s'.rotations == s.rotations[id := s.rotations[id].(issued := Some(s.server.clock))]
    requires Digest(s.server.clock) !in s.server.db.tokens
    requires forall h :: Unrevoked(s'.server.db, h, s.rotations[id].agent) <==>
      Unrevoked(s.server.db, h, s.rotations[id].agent) || h == Digest(s.server.clock)
    ensures Accounted(s', s.rotations[id].agent)
  {
    var agent, now := s.rotations[id].agent, s.server.clock;
    forall raw ensures Fresh(s', agent, raw) <==> Fresh(s, agent, raw) || raw == now {
      IssueFresh(s, s', id, raw);
    }
    forall raw ensures Spent(s', agent, raw) <==> Spent(s, agent, raw) {
      IssueSpent(s, s', id, raw);
    }
    assert !Spent(s, agent, now) by {
      forall i | Since(s, agent, i) ensures s.rotations[i].raw < now {
        assert RotationOk(s, i);
      }
    }
  }

  lemma IssueFresh(s: State, s': State, id: nat, raw: nat)
    requires id in s.rotations && s.rotations[id].issued.None? && s.rotations[id].agent in s.registered
    requires s'.registered == s.registered && s.registered[s.rotations[id].agent] < s.server.clock
    requires s'.rotations == s.rotations[id := s.rotations[id].(issued := Some(s.server.clock))]
    ensures Fresh(s', s.rotations[id].agent, raw) <==> Fresh(s, s.rotations[id].agent, raw) || raw == s.server.clock
  {
    var agent := s.rotations[id].agent;
    assert Since(s', agent, id) && s'.rotations[id].issued.value == s.server.clock;
    forall i | Since(s, agent, i) ensures Since(s', agent, i) && s'.rotations[i] == s.rotations[i] {
    }
    forall i | Since(s', agent, i) && i != id ensures Since(s, agent, i) && s'.rotations[i] == s.rotations[i] {
    }
  }

  lemma IssueSpent(s: State, s': State, id: nat, raw: nat)
    requires id in s.rotations && s.rotations[id].issued.None? && !s.rotations[id].ended
    requires s'.registered == s.registered
    requires s'.rotations == s.rotations[id := s.rotations[id].(issued := Some(s.server.clock))]
    ensures Spent(s', s.rotations[id].agent, raw) <==> Spent(s, s.rotations[id].agent, raw)
  {
    var agent := s.rotations[id].agent;
    forall i | Since(s, agent, i) ensures Since(s', agent, i) && s'.rotations[i] == s.rotations[i] {
    }
    forall i | Since(s', agent, i) && i != id ensures Since(s, agent, i) && s'.rotations[i] == s.rotations[i] {
    }
  }

  lemma IssuedOnly(s: Server, c: Config, to: AgentId, agent: AgentId, h: Digest)
    requires Inv(s)
    ensures Unrevoked(AfterIssue(s.db, c, to, s.clock), h, agent) <==>
      Unrevoked(s.db, h, agent) || (to in s.db.agents && agent == to && h == Digest(s.clock))
  {
    if to in s.db.agents {
      IssueSucceeds(s, c, to);
    }
  }

  lemma IssueFor(c: Config, s: State, id: nat, s': State, agent: AgentId)
    requires RInv(s) && Next(c, s, Issue(id), s') && agent in s.server.db.agents
    ensures Accounted(s', agent)
  {
    var p := s.rotations[id];
    forall h ensures Unrevoked(s'.server.db, h, agent) <==>
      Unrevoked(s.server.db, h, agent) || (agent == p.agent && h == Digest(s.server.clock))
    {
      IssuedOnly(s.server, c, p.agent, agent, h);
    }
    if agent == p.agent {
      assert CanCreateToken(s.server.db, Digest(s.server.clock), NewToken(c, agent, s.server.clock));
      IssueAccounted(s, s', id);
    } else {
      SameForKeeps(s, s', agent);
    }
  }

  lemma IssueKeeps(c: Config, s: State, id: nat, s': State)
    requires RInv(s) && Next(c, s, Issue(id), s')
    ensures RInv(s')
  {
    IssueRotations(c, s, id, s');
    forall agent | agent in s'.server.db.agents ensures Accounted(s', agent) {
      IssueFor(c, s, id, s', agent);
    }
  }

  // ── Revoke ───────────────────────────────────────────────────────────────

  /** Revoking by id revokes the one token that was presented. */
  lemma RevokedOnly(s: Server, raw: nat, now: nat, agent: AgentId, h: Digest)
    requires Inv(s)
    ensures Unrevoked(Revoked(s.db, raw, now), h, agent) <==> Unrevoked(s.db, h, agent) && h != Digest(raw)
  {
  }

  lemma RevokeInv(s: Server, raw: nat)
    requires Inv(s)
    ensures Inv(Tick(s.(db := Revoked(s.db, raw, s.clock))))
  {
    MachinesKept(s.db, Revoked(s.db, raw, s.clock));
  }

  lemma RevokeRotations(c: Config, s: State, id: nat, s': State)
    requires Inv(s.server) && RotationsOk(s) && Next(c, s, Revoke(id), s')
    ensures RotationsOk(s') && Inv(s'.server)
  {
    RevokeInv(s.server, s.rotations[id].raw);
    forall i | i in s'.rotations ensures RotationOk(s', i) {
      assert RotationOk(s, i);
    }
    forall i, j | i in s'.rotations && j in s'.rotations && SameIssue(s'.rotations[i], s'.rotations[j]) ensures i == j {
      assert SameIssue(s.rotations[i], s.rotations[j]);
    }
  }

  lemma RevokeAccounted(s: State, s': State, id: nat)
    requires RotationsOk(s) && id in s.rotations && s.rotations[id].issued.Some? && Accounted(s, s.rotations[id].agent)
    requires s'.registered == s.registered && s'.server.clock == s.server.clock + 1
    requires s'.rotations == s.rotations[id := s.rotations[id].(ended := true)]
    requires forall h :: Unrevoked(s'.server.db, h, s.rotations[id].agent) <==>
      Unrevoked(s.server.db, h, s.rotations[id].agent) && h != Digest(s.rotations[id].raw)
    ensures Accounted(s', s.rotations[id].agent)
  {
    var p := s.rotations[id];
    forall raw ensures Fresh(s', p.agent, raw) <==> Fresh(s, p.agent, raw) {
      SameFresh(s, s', id, raw);
    }
    forall raw ensures Spent(s', p.agent, raw) <==> Spent(s, p.agent, raw) || (Since(s, p.agent, id) && raw == p.raw) {
      RevokeSpent(s, s', id, raw);
    }
    if !Since(s, p.agent, id) {
      OldIsStale(s, id);
    }
  }

  /** A refresh that issued before the last registration presented a token that is not fresh. */
  lemma OldIsStale(s: State, id: nat)
    requires RotationsOk(s) && id in s.rotations && s.rotations[id].agent in s.registered
    requires s.rotations[id].begun <= s.registered[s.rotations[id].agent] ||
        (s.rotations[id].issued.Some? && !Since(s, s.rotations[id].agent, id))
    ensures !Fresh(s, s.rotations[id].agent, s.rotations[id].raw)
  {
    assert RotationOk(s, id);
  }

  lemma SameFresh(s: State, s': State, id: nat, raw: nat)
    requires id in s.rotations && s.rotations[id].agent in s.registered
    requires s'.registered == s.registered && s'.rotations == s.rotations[id := s.rotations[id].(ended := true)]
    ensures Fresh(s', s.rotations[id].agent, raw) <==> Fresh(s, s.rotations[id].agent, raw)
  {
    var agent := s.rotations[id].agent;
    forall i ensures Since(s', agent, i) <==> Since(s, agent, i) {
    }
  }

  lemma RevokeSpent(s: State, s': State, id: nat, raw: nat)
    requires id in s.rotations
    requires s'.registered == s.registered && s'.rotations == s.rotations[id := s.rotations[id].(ended := true)]
    ensures Spent(s', s.rotations[id].agent, raw) <==>
      Spent(s, s.rotations[id].agent, raw) || (Since(s, s.rotations[id].agent, id) && raw == s.rotations[id].raw)
  {
    var agent := s.rotations[id].agent;
    forall i ensures Since(s', agent, i) <==> Since(s, agent, i) {
    }
    assert s'.rotations[id].ended;
    if Spent(s, agent, raw) {
      var i :| Since(s, agent, i) && s.rotations[i].ended && s.rotations[i].raw == raw;
      assert Since(s', agent, i) && s'.rotations[i].ended && s'.rotations[i].raw == raw;
    }
  }

  lemma RevokeKeeps(c: Config, s: State, id: nat, s': State)
    requires RInv(s) && Next(c, s, Revoke(id), s')
    ensures RInv(s')
  {
    RevokeRotations(c, s, id, s');
    var p, now := s.rotations[id], s.server.clock;
    assert RotationOk(s, id);
    forall agent | agent in s'.server.db.agents ensures Accounted(s', agent) {
      forall h ensures Unrevoked(s'.server.db, h, agent) <==> Unrevoked(s.server.db, h, agent) && h != Digest(p.raw) {
        RevokedOnly(s.server, p.raw, now, agent, h);
      }
      if agent == p.agent {
        RevokeAccounted(s, s', id);
      } else {
        SameForKeeps(s, s', agent);
      }
    }
  }

  // ── Other handlers ───────────────────────────────────────────────────────

  lemma RegisterAccounted(c: Config, s: State, req: Registration, s': State, agent: AgentId)
    requires RInv(s) && Next(c, s, Other(Register(req)), s') && Refusal(c, req).None?
    requires agent in s'.server.db.agents
    ensures Accounted(s', agent)
  {
    forall h ensures Unrevoked(s'.server.db, h, agent) <==>
      if agent == RegisteredId(s.server, req) then h == Digest(s.server.clock) else Unrevoked(s.server.db, h, agent)
    {
      RegisterLeavesOne(s.server, c, req, agent, h);
    }
    RegisterEffect(s.server, c, req);
    if agent == RegisteredId(s.server, req) {
      forall id ensures !Since(s', agent, id) {
        assert id in s.rotations ==> RotationOk(s, id);
      }
    } else {
      SameForKeeps(s, s', agent);
    }
  }

  lemma EventTokensStay(s: Server, c: Config, e: Event)
    requires Inv(s) && !e.Refresh?
    ensures TokensStay(s, After(s, c, e))
    ensures forall agent :: agent in After(s, c, e).db.agents ==> agent in s.db.agents || agent >= s.clock
  {
    forall agent | agent in After(s, c, e).db.agents ensures agent in s.db.agents || agent >= s.clock {
      if agent !in s.db.agents && agent < s.clock {
        NotRevived(s, c, e, agent);
      }
    }
    match e
    case Register(req) =>
      if Refusal(c, req).None? {
        RegisterEffect(s, c, req);
      }
    case Delete(_) =>
    case _ => OtherTokens(s, c, e);
  }

  lemma OtherAccounted(c: Config, s: State, e: Event, s': State, agent: AgentId)
    requires RInv(s) && Next(c, s, Other(e), s') && !(e.Register? && Refusal(c, e.req).None?)
    requires agent in s'.server.db.agents
    ensures Accounted(s', agent)
  {
    if agent !in s.server.db.agents {
      NotRevived(s.server, c, e, agent);
    }
    if !e.Delete? && !e.Register? {
      OtherTokens(s.server, c, e);
    }
    assert forall h :: Unrevoked(s'.server.db, h, agent) <==> Unrevoked(s.server.db, h, agent);
    SameForKeeps(s, s', agent);
  }

  lemma OtherKeeps(c: Config, s: State, e: Event, s': State)
    requires RInv(s) && Next(c, s, Other(e), s')
    ensures RInv(s')
  {
    StepKeeps(s.server, c, e);
    TokensStep(s.server, c, e);
    EventTokensStay(s.server, c, e);
    TickRotations(s, s');
    forall agent | agent in s'.server.db.agents ensures Accounted(s', agent) {
      if e.Register? && Refusal(c, e.req).None? {
        RegisterAccounted(c, s, e.req, s', agent);
      } else {
        OtherAccounted(c, s, e, s', agent);
      }
    }
  }

  lemma NextKeeps(c: Config, s: State, action: Action, s': State)
    requires RInv(s) && Next(c, s, action, s')
    ensures RInv(s')
  {
    match action
    case Begin(raw) => BeginKeeps(c, s, raw, s');
    case Issue(id) => IssueKeeps(c, s, id, s');
    case Revoke(id) => RevokeKeeps(c, s, id, s');
    case Other(e) => OtherKeeps(c, s, e, s');
  }

  // ── One token exactly if the schedule is orderly ─────────────────────────

  function Tokens(db: Db, agent: AgentId): set<Digest> {
    set h | h in db.tokens && Unrevoked(db, h, agent)
  }

  function Image(ids: set<nat>, f: nat -> Digest): set<Digest> {
    set id | id in ids :: f(id)
  }

  lemma {:induction false} ImageSize(ids: set<nat>, f: nat -> Digest)
    ensures |Image(ids, f)| <= |ids|
    ensures (forall i, j :: i in ids && j in ids && f(i) == f(j) ==> i == j) ==> |Image(ids, f)| == |ids|
    decreases ids
  {
    if ids != {} {
      var id :| id in ids;
      var rest := ids - {id};
      ImageSize(rest, f);
      assert Image(ids, f) == Image(rest, f) + {f(id)};
    }
  }

  lemma Difference(a: set<Digest>, b: set<Digest>)
    ensures |a - b| >= |a| - |b|
    ensures b <= a ==> |a - b| == |a| - |b|
  {
    assert a == (a - b) + (a * b);
    assert b == (b - a) + (a * b);
    assert b <= a ==> a * b == b;
  }

  ghost function Counted(s: State, agent: AgentId): set<nat> {
    set id | id in s.rotations && Since(s, agent, id)
  }

  function IssuedBy(s: State): nat -> Digest {
    id => if id in s.rotations && s.rotations[id].issued.Some? then Digest(s.rotations[id].issued.value) else Digest(0)
  }

  function PresentedBy(s: State): nat -> Digest {
    id => if id in s.rotations then Digest(s.rotations[id].raw) else Digest(0)
  }

  /** All fresh tokens: one more than there were refreshes. */
  ghost function FreshTokens(s: State, agent: AgentId): set<Digest>
    requires agent in s.registered
  {
    {Digest(s.registered[agent])} + Image(Counted(s, agent), IssuedBy(s))
  }

  lemma FreshSize(s: State, agent: AgentId)
    requires RotationsOk(s) && agent in s.registered
    ensures |FreshTokens(s, agent)| == |Counted(s, agent)| + 1
    ensures forall h :: h in FreshTokens(s, agent) <==> Fresh(s, agent, h.raw)
  {
    var ids := Counted(s, agent);
    forall i, j | i in ids && j in ids && IssuedBy(s)(i) == IssuedBy(s)(j) ensures i == j {
      assert SameIssue(s.rotations[i], s.rotations[j]);
    }
    ImageSize(ids, IssuedBy(s));
    forall h ensures h in FreshTokens(s, agent) <==> Fresh(s, agent, h.raw) {
      if Fresh(s, agent, h.raw) && h.raw != s.registered[agent] {
        var id :| Since(s, agent, id) && s.rotations[id].issued.value == h.raw;
        assert id in ids && IssuedBy(s)(id) == h;
      }
    }
  }

  /** Once all refreshes have ended, the tokens left are the fresh ones not presented. */
  lemma TokensLeft(s: State, agent: AgentId)
    requires RInv(s) && agent in s.server.db.agents && Quiet(s, agent)
    ensures Tokens(s.server.db, agent) == FreshTokens(s, agent) - Image(Counted(s, agent), PresentedBy(s))
  {
    FreshSize(s, agent);
    var spent := Image(Counted(s, agent), PresentedBy(s));
    forall h ensures h in spent <==> Spent(s, agent, h.raw) {
      if Spent(s, agent, h.raw) {
        var id :| Since(s, agent, id) && s.rotations[id].ended && s.rotations[id].raw == h.raw;
        assert id in Counted(s, agent) && PresentedBy(s)(id) == h;
      }
    }
    assert Accounted(s, agent);
  }

  lemma OrderlyLeavesOne(s: State, agent: AgentId)
    requires RInv(s) && agent in s.server.db.agents && Quiet(s, agent) && agent in s.registered && Orderly(s, agent)
    ensures |Tokens(s.server.db, agent)| == 1
  {
    TokensLeft(s, agent);
    FreshSize(s, agent);
    var ids := Counted(s, agent);
    var spent := Image(ids, PresentedBy(s));
    ImageSize(ids, PresentedBy(s));
    forall h | h in spent ensures h in FreshTokens(s, agent) {
      var id :| id in ids && PresentedBy(s)(id) == h;
      assert Accounted(s, agent);
    }
    Difference(FreshTokens(s, agent), spent);
  }

  /** A member whose value is outside `all`, or is another member's too, takes nothing away. */
  lemma Superfluous(all: set<Digest>, ids: set<nat>, f: nat -> Digest, id: nat)
    requires id in ids && (f(id) !in all || exists j :: j in ids && j != id && f(j) == f(id))
    ensures |all - Image(ids, f)| >= |all| - |ids| + 1
  {
    var rest := ids - {id};
    ImageSize(rest, f);
    assert Image(ids, f) == Image(rest, f) + {f(id)};
    if f(id) in all {
      var j :| j in ids && j != id && f(j) == f(id);
      assert j in rest && f(id) in Image(rest, f);
    }
    assert all - Image(ids, f) == all - Image(rest, f);
    Difference(all, Image(rest, f));
  }

  /** A refresh whose token counts for nothing leaves an extra one. */
  lemma ExtraToken(s: State, agent: AgentId, id: nat)
    requires RInv(s) && agent in s.server.db.agents && Quiet(s, agent) && Since(s, agent, id)
    requires
      || !Fresh(s, agent, s.rotations[id].raw)
      || exists j :: j != id && Since(s, agent, j) && s.rotations[j].raw == s.rotations[id].raw
    ensures |Tokens(s.server.db, agent)| >= 2
  {
    TokensLeft(s, agent);
    FreshSize(s, agent);
    var ids, f := Counted(s, agent), PresentedBy(s);
    if Fresh(s, agent, s.rotations[id].raw) {
      var j :| j != id && Since(s, agent, j) && s.rotations[j].raw == s.rotations[id].raw;
      assert j in ids && f(j) == f(id);
    }
    Superfluous(FreshTokens(s, agent), ids, f, id);
  }

  ghost predicate Behaviour(c: Config, states: seq<State>, actions: seq<Action>) {
    && |states| == |actions| + 1
    && Init(states[0])
    && forall i :: 0 <= i < |actions| ==> Next(c, states[i], actions[i], states[i + 1])
  }

  lemma {:induction false} Reachable(c: Config, states: seq<State>, actions: seq<Action>, i: nat)
    requires Behaviour(c, states, actions) && i < |states|
    ensures RInv(states[i])
  {
    if i > 0 {
      Reachable(c, states, actions, i - 1);
      NextKeeps(c, states[i - 1], actions[i - 1], states[i]);
    }
  }

  /** In every history with any overlap of refreshes, registrations and other handlers, when the
      refreshes of an agent since its last registration have ended: it has exactly one unrevoked
      token if and only if they all authenticated after that registration and no two of them
      presented the same token; otherwise it has more. */
  lemma OneTokenExactly(c: Config, states: seq<State>, actions: seq<Action>, i: nat, agent: AgentId)
    requires Behaviour(c, states, actions) && i < |states|
    requires agent in states[i].server.db.agents && Quiet(states[i], agent)
    ensures agent in states[i].registered
    ensures |Tokens(states[i].server.db, agent)| == 1 <==> Orderly(states[i], agent)
    ensures |Tokens(states[i].server.db, agent)| >= 1
  {
    Reachable(c, states, actions, i);
    OneTokenIff(states[i], agent);
  }

  lemma OneTokenIff(s: State, agent: AgentId)
    requires RInv(s) && agent in s.server.db.agents && Quiet(s, agent)
    ensures agent in s.registered
    ensures |Tokens(s.server.db, agent)| == 1 <==> Orderly(s, agent)
    ensures |Tokens(s.server.db, agent)| >= 1
  {
    assert Accounted(s, agent);
    if Orderly(s, agent) {
      OrderlyLeavesOne(s, agent);
    } else if id :| Since(s, agent, id) && s.rotations[id].begun <= s.registered[agent] {
      OldIsStale(s, id);
      ExtraToken(s, agent, id);
    } else {
      var i, j :| Since(s, agent, i) && Since(s, agent, j) && s.rotations[i].raw == s.rotations[j].raw && i != j;
      ExtraToken(s, agent, i);
    }
  }

  // ── Three schedules ──────────────────────────────────────────────────────

  /** The server after a refresh of the agent has issued, and after it has revoked. */
  function Issued(s: Server, c: Config, agent: AgentId): Server {
    Tick(s.(db := AfterIssue(s.db, c, agent, s.clock)))
  }

  function Revoking(s: Server, raw: nat): Server {
    Tick(s.(db := Revoked(s.db, raw, s.clock)))
  }

  /** Two refreshes of one token that both issue before either revokes: two tokens. */
  lemma OverlappingRefreshes(s: Server, c: Config, raw: Option<nat>)
    requires Inv(s) && Authenticate(s.db, s.clock, raw).Granted?
    ensures var agent := Authenticate(s.db, s.clock, raw).agent;
      !OneToken(Revoking(Revoking(Issued(Issued(s, c, agent), c, agent), raw.value), raw.value).db)
  {
    var agent := Authenticate(s.db, s.clock, raw).agent;
    var s1 := Issued(s, c, agent);
    var s2 := Issued(s1, c, agent);
    var h, k := Digest(s.clock), Digest(s.clock + 1);
    IssueInv(s, c, agent);
    IssueInv(s1, c, agent);
    IssuedOnly(s, c, agent, agent, h);
    IssuedOnly(s1, c, agent, agent, h);
    IssuedOnly(s1, c, agent, agent, k);
    StaysAfter(s2, raw.value, agent, h);
    StaysAfter(s2, raw.value, agent, k);
    RevokeInv(s2, raw.value);
    StaysAfter(Revoking(s2, raw.value), raw.value, agent, h);
    StaysAfter(Revoking(s2, raw.value), raw.value, agent, k);
  }

  lemma StaysAfter(s: Server, raw: nat, agent: AgentId, h: Digest)
    requires Inv(s)
    ensures Unrevoked(Revoking(s, raw).db, h, agent) <==> Unrevoked(s.db, h, agent) && h != Digest(raw)
  {
    RevokedOnly(s, raw, s.clock, agent, h);
  }

  /** A refresh that authenticated before its machine registered again and issues after that:
      two tokens as well. */
  lemma RefreshAcrossRegistration(s: Server, c: Config, raw: Option<nat>, req: Registration)
    requires Inv(s) && Authenticate(s.db, s.clock, raw).Granted? && Refusal(c, req).None?
    requires RegisteredId(s, req) == Authenticate(s.db, s.clock, raw).agent
    ensures var agent := Authenticate(s.db, s.clock, raw).agent;
      !OneToken(Revoking(Issued(AfterRegister(s, c, req), c, agent), raw.value).db)
  {
    var agent := Authenticate(s.db, s.clock, raw).agent;
    var s1 := AfterRegister(s, c, req);
    RegisterKeeps(s, c, req);
    var h, k := Digest(s.clock), Digest(s1.clock);
    RegisterLeavesOne(s, c, req, agent, h);
    RegisteredAgent(s, c, req);
    IssueInv(s1, c, agent);
    IssuedOnly(s1, c, agent, agent, h);
    IssuedOnly(s1, c, agent, agent, k);
    StaysAfter(Issued(s1, c, agent), raw.value, agent, h);
    StaysAfter(Issued(s1, c, agent), raw.value, agent, k);
  }

  lemma RegisteredAgent(s: Server, c: Config, req: Registration)
    requires Inv(s) && Refusal(c, req).None?
    ensures var s' := AfterRegister(s, c, req);
      RegisteredId(s, req) in s'.db.agents && s'.clock == s.clock + 1
  {
    RegisterEffect(s, c, req);
  }

  /** Overlap alone does no harm: a whole refresh of the new token between the two steps of the
      refresh that issued it leaves one token. */
  lemma NestedRefreshes(s: Server, c: Config, raw: Option<nat>)
    requires Inv(s) && OneToken(s.db) && Authenticate(s.db, s.clock, raw).Granted?
    ensures var agent := Authenticate(s.db, s.clock, raw).agent;
      OneToken(Revoking(Revoking(Issued(Issued(s, c, agent), c, agent), s.clock), raw.value).db)
  {
    var agent := Authenticate(s.db, s.clock, raw).agent;
    var s1 := Issued(s, c, agent);
    var s2 := Issued(s1, c, agent);
    var s3 := Revoking(s2, s.clock);
    var s4 := Revoking(s3, raw.value);
    IssueInv(s, c, agent);
    IssueInv(s1, c, agent);
    RevokeInv(s2, s.clock);
    assert Unrevoked(s.db, Digest(raw.value), agent);
    forall a, h | Unrevoked(s4.db, h, a)
      ensures if a == agent then h == Digest(s.clock + 1) else Unrevoked(s.db, h, a)
    {
      StaysAfter(s3, raw.value, a, h);
      StaysAfter(s2, s.clock, a, h);
      IssuedOnly(s1, c, agent, a, h);
      IssuedOnly(s, c, agent, a, h);
    }
  }
}
