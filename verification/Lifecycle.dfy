/** What holds over whole histories of the server's handlers, run one at a time: tokens,
    the identity of a machine, and which deployments an assignment creates. */
module Lifecycle {
  import opened Options
  import opened Strings
  import opened Runner
  import opened Deployments
  import opened Tables
  import opened Servers

  ghost function AfterAll(s: Server, c: Config, es: seq<Event>): Server {
    if es == [] then s else After(AfterAll(s, c, es[..|es| - 1]), c, es[|es| - 1])
  }

  lemma {:induction false} AllKeep(s: Server, c: Config, es: seq<Event>)
    requires Inv(s)
    ensures Inv(AfterAll(s, c, es))
  {
    if es != [] {
      AllKeep(s, c, es[..|es| - 1]);
      StepKeeps(AfterAll(s, c, es[..|es| - 1]), c, es[|es| - 1]);
    }
  }

  // ── Tokens ───────────────────────────────────────────────────────────────

  /** What an event can do to the tokens that existed before it: revoke them or drop them. */
  ghost predicate TokensAge(s: Server, s': Server) {
    && s.clock <= s'.clock
    && forall h :: h in s'.db.tokens && h.raw < s.clock ==>
         && h in s.db.tokens
         && s'.db.tokens[h].expiresAt == s.db.tokens[h].expiresAt
         && (s.db.tokens[h].revokedAt.Some? ==> s'.db.tokens[h].revokedAt.Some?)
  }

  /** A push leaves tokens, connections and clock alone, and of agents changes the status only. */
  lemma PushFrame(s: Server, agent: AgentId, force: bool)
    ensures var s' := AfterPush(s, agent, force);
      && s'.db.tokens == s.db.tokens && s'.db.playbooks == s.db.playbooks && s'.clock == s.clock &&
          s'.connected == s.connected
  {
  }

  lemma OtherTokens(s: Server, c: Config, e: Event)
    requires !e.Register? && !e.Refresh? && !e.Delete?
    ensures After(s, c, e).db.tokens == s.db.tokens && s.clock <= After(s, c, e).clock
  {
    match e
    case Connect(raw) =>
      var auth := Authenticate(s.db, s.clock, raw);
      if auth.Granted? && auth.agent in s.db.agents {
        var a := s.db.agents[auth.agent].(status := AgentConnected, lastActivityAt := s.clock);
        PushFrame(s.(connected := s.connected + {auth.agent}, db := AfterSaveAgent(s.db, a)), auth.agent, false);
      }
    case Assign(playbook, agent) =>
      PushFrame(s.(db := SetPlaybook(s.db, agent, playbook)), agent, true);
    case _ =>
  }

  lemma RefreshTokens(s: Server, c: Config, raw: Option<nat>)
    requires Inv(s)
    ensures TokensAge(s, AfterRefresh(s, c, raw))
  {
    var auth := Authenticate(s.db, s.clock, raw);
    if auth.Granted? {
      SeenKeeps(s, auth.agent);
      RotationTokens(s.(db := Seen(s.db, auth.agent, s.clock)), c, auth.agent, raw.value);
    }
  }

  lemma RegisterTokens(s: Server, c: Config, req: Registration)
    requires Inv(s)
    ensures TokensAge(s, AfterRegister(s, c, req))
  {
    if Refusal(c, req).None? {
      RegisterEffect(s, c, req);
    }
  }

  lemma TokensStep(s: Server, c: Config, e: Event)
    requires Inv(s)
    ensures TokensAge(s, After(s, c, e))
  {
    match e
    case Register(req) => RegisterTokens(s, c, req);
    case Refresh(raw) => RefreshTokens(s, c, raw);
    case Delete(_) =>
    case _ => OtherTokens(s, c, e);
  }

  /** An accepted registration leaves its agent exactly the token it answers with, and every
      other agent the tokens it had. */
  lemma RegisterLeavesOne(s: Server, c: Config, req: Registration, agent: AgentId, h: Digest)
    requires Inv(s) && Refusal(c, req).None?
    ensures Unrevoked(AfterRegister(s, c, req).db, h, agent) <==>
      if agent == RegisteredId(s, req) then h == Digest(s.clock) else Unrevoked(s.db, h, agent)
  {
    RegisterEffect(s, c, req);
    FindSpec(s.db, MachineOf(req.metadata));
  }

  /** A refresh replaces the presented token by the one it answers with. */
  lemma RefreshReplaces(s: Server, c: Config, raw: Option<nat>, agent: AgentId, h: Digest)
    requires Inv(s) && Authenticate(s.db, s.clock, raw).Granted?
    ensures Unrevoked(AfterRefresh(s, c, raw).db, h, agent) <==>
      || (h == Digest(s.clock) && agent == Authenticate(s.db, s.clock, raw).agent)
      || (Unrevoked(s.db, h, agent) && h != Digest(raw.value))
  {
    var auth := Authenticate(s.db, s.clock, raw);
    SeenKeeps(s, auth.agent);
    RotationTokens(s.(db := Seen(s.db, auth.agent, s.clock)), c, auth.agent, raw.value);
  }

  /** Every event, run as one step, keeps at most one unrevoked token per agent. */
  lemma OneTokenStep(s: Server, c: Config, e: Event)
    requires Inv(s) && OneToken(s.db)
    ensures OneToken(After(s, c, e).db)
  {
    var db := After(s, c, e).db;
    forall agent, h, k | Unrevoked(db, h, agent) && Unrevoked(db, k, agent) ensures h == k {
      UnrevokedBefore(s, c, e, agent, h);
      UnrevokedBefore(s, c, e, agent, k);
    }
  }

  /** Which unrevoked tokens an event leaves: its own new one or, unless it replaced them, old ones. */
  lemma UnrevokedBefore(s: Server, c: Config, e: Event, agent: AgentId, h: Digest)
    requires Inv(s) && OneToken(s.db) && Unrevoked(After(s, c, e).db, h, agent)
    ensures if Renews(s, c, e, agent) then h == Digest(s.clock) else Unrevoked(s.db, h, agent)
  {
    match e
    case Register(req) =>
      if Refusal(c, req).None? {
        RegisterLeavesOne(s, c, req, agent, h);
      }
    case Refresh(raw) =>
      if Authenticate(s.db, s.clock, raw).Granted? {
        RefreshReplaces(s, c, raw, agent, h);
        assert Unrevoked(s.db, Digest(raw.value), Authenticate(s.db, s.clock, raw).agent);
      }
    case Delete(_) =>
    case _ => OtherTokens(s, c, e);
  }

  /** The event gives the agent a new token for all it had. */
  ghost predicate Renews(s: Server, c: Config, e: Event, agent: AgentId) {
    match e
    case Register(req) => Refusal(c, req).None? && RegisteredId(s, req) == agent
    case Refresh(raw) => Authenticate(s.db, s.clock, raw) == Granted(agent)
    case _ => false
  }

  lemma {:induction false} OneTokenAlways(s: Server, c: Config, es: seq<Event>)
    requires Inv(s) && OneToken(s.db)
    ensures OneToken(AfterAll(s, c, es).db)
  {
    if es != [] {
      OneTokenAlways(s, c, es[..|es| - 1]);
      AllKeep(s, c, es[..|es| - 1]);
      OneTokenStep(AfterAll(s, c, es[..|es| - 1]), c, es[|es| - 1]);
    }
  }

  /** In every reachable state: at most one unrevoked token per agent, and no token row
      without its agent. */
  lemma TokenDiscipline(s: Server, c: Config, es: seq<Event>)
    requires Init(s)
    ensures var db := AfterAll(s, c, es).db;
      && (forall agent, h, k :: Unrevoked(db, h, agent) && Unrevoked(db, k, agent) ==> h == k)
      && (forall h :: h in db.tokens ==> db.tokens[h].agent in db.agents)
  {
    AllKeep(s, c, es);
    OneTokenAlways(s, c, es);
  }

  predicate Rejected(s: Server, raw: nat) {
    Authenticate(s.db, s.clock, Some(raw)).Denied?
  }

  /** A token drawn in the past that is rejected now is rejected after any history. */
  lemma {:induction false} RejectedForever(s: Server, c: Config, es: seq<Event>, raw: nat)
    requires Inv(s) && raw < s.clock && Rejected(s, raw)
    ensures Rejected(AfterAll(s, c, es), raw) && raw < AfterAll(s, c, es).clock
  {
    if es != [] {
      var front := es[..|es| - 1];
      RejectedForever(s, c, front, raw);
      AllKeep(s, c, front);
      TokensStep(AfterAll(s, c, front), c, es[|es| - 1]);
    }
  }

  /** Between the two steps of a refresh both tokens name the agent: the old one as it did
      before, the new one until it expires. After both only the new one does. */
  lemma RefreshHasNoGap(s: Server, c: Config, raw: Option<nat>, t: nat)
    requires Inv(s) && Authenticate(s.db, s.clock, raw).Granted?
    ensures var agent := Authenticate(s.db, s.clock, raw).agent;
      var between := RefreshIssues(s.db, c, agent, s.clock);
      var after := AfterRefresh(s, c, raw).db;
      && Authenticate(between, t, raw) == Authenticate(s.db, t, raw)
      && (t <= Expiry(c, s.clock) ==>
            Authenticate(between, t, Some(s.clock)) == Granted(agent) == Authenticate(after, t, Some(s.clock)))
      && Authenticate(after, t, raw) == Denied(Revoked)
  {
    var agent := Authenticate(s.db, s.clock, raw).agent;
    SeenKeeps(s, agent);
    var s1 := s.(db := Seen(s.db, agent, s.clock));
    IssueSucceeds(s1, c, agent);
    RotationTokens(s1, c, agent, raw.value);
  }

  /** What a refresh answers: the moment's token, and it is good until it expires. */
  lemma RefreshAnswers(s: Server, c: Config, raw: Option<nat>)
    requires Inv(s)
    ensures Authenticate(s.db, s.clock, raw).Granted? ==>
      var agent := Authenticate(s.db, s.clock, raw).agent;
      && CanCreateToken(Seen(s.db, agent, s.clock), Digest(s.clock), NewToken(c, agent, s.clock))
      && (s.clock + 1 <= Expiry(c, s.clock) ==>
            Authenticate(AfterRefresh(s, c, raw).db, s.clock + 1, Some(s.clock)) == Granted(agent))
  {
    if Authenticate(s.db, s.clock, raw).Granted? {
      SeenKeeps(s, Authenticate(s.db, s.clock, raw).agent);
      RefreshHasNoGap(s, c, raw, s.clock + 1);
    }
  }

  // ── The identity of a machine ────────────────────────────────────────────

  /** The event may change which playbook an agent is assigned. */
  predicate Reassigns(e: Event, id: AgentId) {
    (e.Assign? || e.Patch?) && e.agent == id
  }

  /** What an agent's record keeps. */
  ghost predicate SameIdentity(s: Server, s': Server, id: AgentId) {
    && id in s.db.agents && id in s'.db.agents
    && Machine(s'.db.agents[id]) == Machine(s.db.agents[id])
    && s'.db.agents[id].registeredAt == s.db.agents[id].registeredAt
  }

  ghost predicate SameAssignment(s: Server, s': Server, id: AgentId) {
    id in s.db.agents && id in s'.db.agents && s'.db.agents[id].playbook == s.db.agents[id].playbook
  }

  lemma PushIdentity(s: Server, agent: AgentId, force: bool, id: AgentId)
    requires IdsOk(s) && id in s.db.agents
    ensures SameIdentity(s, AfterPush(s, agent, force), id) && SameAssignment(s, AfterPush(s, agent, force), id)
  {
  }

  lemma ConnectIdentity(s: Server, raw: Option<nat>, id: AgentId)
    requires Inv(s) && id in s.db.agents
    ensures SameIdentity(s, AfterConnect(s, raw), id) && SameAssignment(s, AfterConnect(s, raw), id)
  {
    var auth := Authenticate(s.db, s.clock, raw);
    if auth.Granted? && auth.agent in s.db.agents {
      var a := s.db.agents[auth.agent].(status := AgentConnected, lastActivityAt := s.clock);
      PushIdentity(s.(connected := s.connected + {auth.agent}, db := AfterSaveAgent(s.db, a)), auth.agent, false, id);
    }
  }

  lemma AssignIdentity(s: Server, playbook: PlaybookId, agent: AgentId, id: AgentId)
    requires Inv(s) && id in s.db.agents
    ensures SameIdentity(s, AfterAssign(s, playbook, agent), id)
    ensures id != agent ==> SameAssignment(s, AfterAssign(s, playbook, agent), id)
  {
    PlaybookKeeps(s, agent, playbook);
    PushIdentity(s.(db := SetPlaybook(s.db, agent, playbook)), agent, true, id);
  }

  lemma RegisterIdentity(s: Server, c: Config, req: Registration, id: AgentId)
    requires Inv(s) && id in s.db.agents
    ensures SameIdentity(s, AfterRegister(s, c, req), id) && SameAssignment(s, AfterRegister(s, c, req), id)
  {
    if Refusal(c, req).None? {
      RegisterEffect(s, c, req);
      FindSpec(s.db, MachineOf(req.metadata));
    }
  }

  lemma IdentityStep(s: Server, c: Config, e: Event, id: AgentId)
    requires Inv(s) && id in s.db.agents && e != Delete(id)
    ensures SameIdentity(s, After(s, c, e), id)
    ensures !Reassigns(e, id) ==> SameAssignment(s, After(s, c, e), id)
  {
    match e
    case Register(req) => RegisterIdentity(s, c, req, id);
    case Connect(raw) => ConnectIdentity(s, raw, id);
    case Assign(playbook, agent) => AssignIdentity(s, playbook, agent, id);
    case Refresh(raw) => RefreshIdentity(s, c, raw, id);
    case Deliver(agent, m) => MessageIdentity(s, agent, m, id);
    case Patch(agent, playbook, status) => PatchIdentity(s, agent, playbook, status, id);
    case Request(raw) => RequestIdentity(s, raw, id);
    case Disconnect(agent) => DisconnectIdentity(s, agent, id);
    case Delete(_) =>
    case Wait(_) =>
  }

  lemma MessageIdentity(s: Server, agent: AgentId, m: Message, id: AgentId)
    requires Inv(s) && id in s.db.agents
    ensures SameIdentity(s, AfterMessage(s, agent, m), id) && SameAssignment(s, AfterMessage(s, agent, m), id)
  {
  }

  lemma PatchIdentity(s: Server, agent: AgentId, playbook: PlaybookId, status: Option<AgentStatus>, id: AgentId)
    requires Inv(s) && id in s.db.agents
    ensures SameIdentity(s, AfterPatch(s, agent, playbook, status), id)
    ensures id != agent ==> SameAssignment(s, AfterPatch(s, agent, playbook, status), id)
  {
  }

  lemma RequestIdentity(s: Server, raw: Option<nat>, id: AgentId)
    requires Inv(s) && id in s.db.agents
    ensures SameIdentity(s, AfterRequest(s, raw), id) && SameAssignment(s, AfterRequest(s, raw), id)
  {
  }

  lemma DisconnectIdentity(s: Server, agent: AgentId, id: AgentId)
    requires Inv(s) && id in s.db.agents
    ensures SameIdentity(s, AfterDisconnect(s, agent), id) && SameAssignment(s, AfterDisconnect(s, agent), id)
  {
  }

  lemma RefreshIdentity(s: Server, c: Config, raw: Option<nat>, id: AgentId)
    requires Inv(s) && id in s.db.agents
    ensures SameIdentity(s, AfterRefresh(s, c, raw), id) && SameAssignment(s, AfterRefresh(s, c, raw), id)
  {
  }

  /** Only a registration makes an agent, and never one whose identifier was given out before. */
  lemma NotRevived(s: Server, c: Config, e: Event, id: AgentId)
    requires Inv(s) && id !in s.db.agents && (e.Register? ==> id < s.clock)
    ensures id !in After(s, c, e).db.agents
  {
    match e
    case Register(req) =>
      if Refusal(c, req).None? {
        FindSpec(s.db, MachineOf(req.metadata));
        RegisterEffect(s, c, req);
      }
    case Connect(raw) => ConnectAgents(s, raw);
    case _ =>
  }

  lemma ConnectAgents(s: Server, raw: Option<nat>)
    requires Inv(s)
    ensures AfterConnect(s, raw).db.agents.Keys == s.db.agents.Keys
  {
  }

  /** Through any history in which it is not deleted, an agent keeps its machine and its
      registration time, and its playbook too when nobody assigns it another. */
  lemma {:induction false} IdentityKept(s: Server, c: Config, es: seq<Event>, id: AgentId)
    requires Inv(s) && id in s.db.agents && Delete(id) !in es
    ensures SameIdentity(s, AfterAll(s, c, es), id)
    ensures (forall i :: 0 <= i < |es| ==> !Reassigns(es[i], id)) ==> SameAssignment(s, AfterAll(s, c, es), id)
  {
    if es != [] {
      var front := es[..|es| - 1];
      IdentityKept(s, c, front, id);
      AllKeep(s, c, front);
      IdentityStep(AfterAll(s, c, front), c, es[|es| - 1], id);
    }
  }

  /** No reachable state has two agents for one machine. */
  lemma OneAgentPerMachine(s: Server, c: Config, es: seq<Event>, i: AgentId, j: AgentId)
    requires Init(s)
    ensures var agents := AfterAll(s, c, es).db.agents;
      i in agents && j in agents && Machine(agents[i]) == Machine(agents[j]) != "" ==> i == j
  {
    AllKeep(s, c, es);
    var db := AfterAll(s, c, es).db;
    if i in db.agents && j in db.agents && Machine(db.agents[i]) == Machine(db.agents[j]) != "" {
      assert IsMachine(db, Machine(db.agents[i]), i) && IsMachine(db, Machine(db.agents[i]), j);
    }
  }

  /** A registration answers with an agent that exists exactly if the machine id it sends is that
      agent's and is not empty; so a machine without an id becomes a new agent every time. */
  lemma AnswersOwnAgent(s: Server, req: Registration, id: AgentId)
    requires Inv(s) && id in s.db.agents
    ensures RegisteredId(s, req) == id <==>
      && "machine_id" in req.metadata && "machine_id" in s.db.agents[id].metadata
      && TrimSpace(req.metadata["machine_id"]) == TrimSpace(s.db.agents[id].metadata["machine_id"]) != ""
  {
    FindSpec(s.db, MachineOf(req.metadata));
    assert MachineOf(req.metadata) == Machine(s.db.agents[id]) != "" ==> IsMachine(s.db, MachineOf(req.metadata), id);
  }

  /** Registering a known machine answers with its agent. */
  lemma KnownMachine(s: Server, req: Registration, id: AgentId)
    requires Inv(s) && IsMachine(s.db, MachineOf(req.metadata), id)
    ensures RegisteredId(s, req) == id
  {
    AnswersOwnAgent(s, req, id);
  }

  /** Without a machine id, no deployment of any existing agent is found again. */
  lemma NamelessMachine(s: Server, c: Config, req: Registration)
    requires Inv(s) && Refusal(c, req).None? && MachineOf(req.metadata) == ""
    ensures var id := RegisteredId(s, req);
      && id !in s.db.agents && id in AfterRegister(s, c, req).db.agents
      && AfterRegister(s, c, req).db.agents[id].playbook == ""
      && forall dep :: dep in s.db.deployments && s.db.deployments[dep].agent in s.db.agents ==>
           s.db.deployments[dep].agent != id
  {
    FindSpec(s.db, "");
    RegisterEffect(s, c, req);
  }

  /** A connect with a good token resumes the agent's active deployment where it stands. */
  lemma ConnectResumes(s: Server, raw: nat, id: AgentId, d: Deployment)
    requires Inv(s) && id in s.db.agents && Authenticate(s.db, s.clock, Some(raw)) == Granted(id)
    requires Latest(s.db.deployments, id) == Some(d) && Active(d)
    requires d.playbook == s.db.agents[id].playbook != "" && d.playbook in s.db.playbooks
    ensures var s' := AfterConnect(s, Some(raw));
      && id in s'.connected
      && s'.pushes == s.pushes + [(id, Push(d.id, d.resume))]
      && s'.db.deployments == s.db.deployments[d.id := Resumed(d)]
  {
    LatestRow(s, id);
  }

  /** The token of a fresh registration is good until it expires. */
  lemma RegisteredToken(s: Server, c: Config, req: Registration, wait: nat)
    requires Inv(s) && Refusal(c, req).None? && s.clock + 1 + wait <= Expiry(c, s.clock)
    ensures var r := After(AfterRegister(s, c, req), c, Wait(wait));
      && Inv(r) && r.pushes == s.pushes && r.db.deployments == s.db.deployments && r.db.playbooks == s.db.playbooks
      && Authenticate(r.db, r.clock, Some(s.clock)) == Granted(RegisteredId(s, req))
  {
    RegisterEffect(s, c, req);
    RegisterKeeps(s, c, req);
    TickKeeps(AfterRegister(s, c, req), wait);
  }

  lemma RegisterThenConnect(s: Server, c: Config, id: AgentId, req: Registration, wait: nat, d: Deployment)
    requires Inv(s) && Refusal(c, req).None? && IsMachine(s.db, MachineOf(req.metadata), id)
    requires s.clock + 1 + wait <= Expiry(c, s.clock)
    requires Latest(s.db.deployments, id) == Some(d) && Active(d)
    requires d.playbook == s.db.agents[id].playbook != "" && d.playbook in s.db.playbooks
    ensures var u := AfterConnect(After(AfterRegister(s, c, req), c, Wait(wait)), Some(s.clock));
      && RegisteredId(s, req) == id
      && SameIdentity(s, u, id) && SameAssignment(s, u, id)
      && u.pushes == s.pushes + [(id, Push(d.id, d.resume))]
      && u.db.deployments == s.db.deployments[d.id := Resumed(d)]
  {
    KnownMachine(s, req, id);
    RegisterIdentity(s, c, req, id);
    RegisteredToken(s, c, req, wait);
    var r := After(AfterRegister(s, c, req), c, Wait(wait));
    ConnectResumes(r, s.clock, id, d);
    ConnectIdentity(r, Some(s.clock), id);
  }

  /** After a reboot: whatever happened since, as long as the agent was neither deleted nor
      reassigned, registering its machine again and connecting with the token it gets (before
      that expires) resumes the agent's active deployment, under the same agent id. */
  lemma RebootFindsDeployment(s: Server, c: Config, es: seq<Event>, id: AgentId, req: Registration, wait: nat,
      d: Deployment)
    requires Inv(s) && id in s.db.agents && Delete(id) !in es
    requires forall i :: 0 <= i < |es| ==> !Reassigns(es[i], id)
    requires Refusal(c, req).None? && MachineOf(req.metadata) == Machine(s.db.agents[id]) != ""
    requires var t := AfterAll(s, c, es);
      && t.clock + 1 + wait <= Expiry(c, t.clock)
      && Latest(t.db.deployments, id) == Some(d) && Active(d)
      && d.playbook == s.db.agents[id].playbook != "" && d.playbook in t.db.playbooks
    ensures var t := AfterAll(s, c, es);
      var u := AfterConnect(After(AfterRegister(t, c, req), c, Wait(wait)), Some(t.clock));
      && RegisteredId(t, req) == id
      && SameIdentity(s, u, id) && SameAssignment(s, u, id)
      && u.pushes == t.pushes + [(id, Push(d.id, d.resume))]
      && u.db.deployments == t.db.deployments[d.id := Resumed(d)]
  {
    var t := AfterAll(s, c, es);
    AllKeep(s, c, es);
    IdentityKept(s, c, es, id);
    assert IsMachine(t.db, Machine(s.db.agents[id]), id);
    RegisterThenConnect(t, c, id, req, wait, d);
  }
}
