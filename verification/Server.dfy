/** The server's handlers (internal/server/handlers/auth.go, token.go, ws.go, admin.go and
    internal/server/service/manager.go): registration, tokens, connections, agent messages,
    and the push of a playbook. Each handler is one step on the tables. */
module Servers {
  import opened Options
  import opened Strings
  import opened Playbooks
  import opened Runner
  import opened Deployments
  import opened Tables

  /** `clock` is the present moment. It also supplies new identifiers and new raw tokens, so
      these never repeat; every handler moves it on. `pushes` logs the playbooks handed to the
      hub for an agent. */
  datatype Server = Server(db: Db, connected: set<AgentId>, clock: nat, pushes: seq<(AgentId, Push)>)

  datatype Config = Config(secrets: seq<string>, tokenExpiryHours: int)

  datatype Registration = Registration(hostname: string, platform: string, secret: string, metadata: map<string,
      string>)

  const HOUR: nat := 3_600_000_000_000

  // ── Authentication ───────────────────────────────────────────────────────

  datatype AuthError = Missing | Unknown | Revoked | Expired
  datatype Auth = Denied(error: AuthError) | Granted(agent: AgentId)

  /** agentIDFromToken; a request without a token has `None`. */
  function Authenticate(db: Db, now: nat, raw: Option<nat>): Auth {
    if raw.None? then Denied(Missing)
    else if Digest(raw.value) !in db.tokens then Denied(Unknown)
    else
      var tok := db.tokens[Digest(raw.value)];
      if tok.revokedAt.Some? then Denied(Revoked)
      else if tok.expiresAt.Some? && now > tok.expiresAt.value then Denied(Expired)
      else Granted(tok.agent)
  }

  function Expiry(c: Config, now: nat): int {
    now + (if c.tokenExpiryHours == 0 then 720 else c.tokenExpiryHours) * HOUR
  }

  function NewToken(c: Config, agent: AgentId, now: nat): Token {
    Token(now, agent, Some(Expiry(c, now)), None)
  }

  /** issueAgentToken: the raw token is `now`, and so is the row's id. */
  function AfterIssue(db: Db, c: Config, agent: AgentId, now: nat): Db {
    var tok := NewToken(c, agent, now);
    if CanCreateToken(db, Digest(now), tok) then db.(tokens := db.tokens[Digest(now) := tok]) else db
  }

  function Tick(s: Server): Server {
    s.(clock := s.clock + 1)
  }

  /** RequireAgentAuth marks an authenticated agent as seen. */
  function Seen(db: Db, agent: AgentId, now: nat): Db {
    if agent in db.agents then
      var a := db.agents[agent];
      AfterSaveAgent(db, a.(lastActivityAt := now, status := if a.status.AgentOffline? then AgentConnected
          else a.status))
    else db
  }

  // ── Registration ─────────────────────────────────────────────────────────

  datatype RegisterError = HostnameRequired | BadPlatform | BadSecret

  function Refusal(c: Config, req: Registration): Option<RegisterError> {
    if req.hostname == "" then Some(HostnameRequired)
    else if req.platform !in {"linux", "mac", "windows"} then Some(BadPlatform)
    else if req.secret == "" || req.secret !in c.secrets then Some(BadSecret)
    else None
  }

  function MachineOf(metadata: map<string, string>): string {
    if "machine_id" in metadata then TrimSpace(metadata["machine_id"]) else ""
  }

  function Machine(a: Agent): string {
    MachineOf(a.metadata)
  }

  ghost predicate IsMachine(db: Db, machine: string, id: AgentId) {
    machine != "" && id in db.agents && Machine(db.agents[id]) == machine
  }

  /** The agent already registered for a machine. */
  ghost function Find(db: Db, machine: string): Option<AgentId> {
    if exists id :: IsMachine(db, machine, id) then
      var id :| IsMachine(db, machine, id);
      Some(id)
    else None
  }

  /** The record a registration stores: an old record keeps its id, its registration time and
      its playbook. */
  function Record(base: Agent, req: Registration, now: nat): Agent {
    base.(hostname := req.hostname, metadata := req.metadata, status := AgentRegistered, lastActivityAt := now)
  }

  function Blank(id: AgentId, now: nat): Agent {
    Agent(id, "", map[], AgentRegistered, "", now, now)
  }

  /** What an accepted registration does to the tables, and the agent id it answers with. */
  ghost function RegisteredId(s: Server, req: Registration): AgentId {
    var found := Find(s.db, MachineOf(req.metadata));
    if found.Some? then found.value else s.clock
  }

  ghost function AfterRegister(s: Server, c: Config, req: Registration): Server {
    if Refusal(c, req).Some? then Tick(s)
    else
      var id := RegisteredId(s, req);
      var again := Find(s.db, MachineOf(req.metadata)).Some? && id in s.db.agents;
      var db := AfterSaveAgent(s.db, Record(if again then s.db.agents[id] else Blank(id, s.clock), req, s.clock));
      var db := if again then AfterRevokeAll(db, id, s.clock) else db;
      Tick(s.(db := AfterIssue(db, c, id, s.clock)))
  }

  // ── Token refresh: two steps ─────────────────────────────────────────────

  function RefreshIssues(db: Db, c: Config, agent: AgentId, now: nat): Db {
    AfterIssue(Seen(db, agent, now), c, agent, now)
  }

  /** The old token is revoked once the new one is stored. */
  function RefreshRevokes(db: Db, raw: nat, now: nat): Db {
    if Digest(now) in db.tokens && Digest(raw) in db.tokens then AfterRevoke(db, db.tokens[Digest(raw)].id, now) else db
  }

  function AfterRequest(s: Server, raw: Option<nat>): Server {
    match Authenticate(s.db, s.clock, raw)
    case Denied(_) => Tick(s)
    case Granted(agent) => Tick(s.(db := Seen(s.db, agent, s.clock)))
  }

  function AfterRefresh(s: Server, c: Config, raw: Option<nat>): Server {
    match Authenticate(s.db, s.clock, raw)
    case Denied(_) => Tick(s)
    case Granted(agent) =>
      Tick(s.(db := RefreshRevokes(RefreshIssues(s.db, c, agent, s.clock), raw.value, s.clock)))
  }

  // ── Pushing a playbook ───────────────────────────────────────────────────

  function SetStatus(db: Db, agent: AgentId, status: AgentStatus): Db {
    if agent in db.agents then AfterSaveAgent(db, db.agents[agent].(status := status)) else db
  }

  ghost function AfterPush(s: Server, agent: AgentId, force: bool): Server {
    if agent !in s.db.agents || s.db.agents[agent].playbook == "" || s.db.agents[agent].playbook !in s.db.playbooks
        then s
    else
      var wanted := s.db.agents[agent].playbook;
      match Decide(wanted, Latest(s.db.deployments, agent), force)
      case Skip => s
      case Resume(d) =>
        s.(db := SetStatus(AfterSaveDeployment(s.db, Resumed(d)), agent, AgentDeploying),
           pushes := s.pushes + [(agent, Push(d.id, d.resume))])
      case StartNew =>
        s.(db := SetStatus(AfterSaveDeployment(s.db, Started(s.clock, agent, wanted, s.clock)), agent, AgentDeploying),
           pushes := s.pushes + [(agent, Push(s.clock, 0))])
  }

  ghost predicate CanAssign(db: Db, playbook: PlaybookId, agent: AgentId) {
    agent in db.agents && playbook in db.playbooks
  }

  function SetPlaybook(db: Db, agent: AgentId, playbook: PlaybookId): Db {
    if agent in db.agents then AfterSaveAgent(db, db.agents[agent].(playbook := playbook)) else db
  }

  ghost function AfterAssign(s: Server, playbook: PlaybookId, agent: AgentId): Server {
    if !CanAssign(s.db, playbook, agent) then Tick(s)
    else
      var s1 := s.(db := SetPlaybook(s.db, agent, playbook));
      Tick(if agent in s.connected then AfterPush(s1, agent, true) else s1)
  }

  // ── Connections and messages ─────────────────────────────────────────────

  /** The connection of an agent is registered, and its playbook pushed if there is one. */
  ghost function Opened(s: Server, agent: AgentId): Server
    requires agent in s.db.agents
  {
    var a := s.db.agents[agent].(status := AgentConnected, lastActivityAt := s.clock);
    AfterPush(s.(connected := s.connected + {agent}, db := AfterSaveAgent(s.db, a)), agent, false)
  }

  ghost function AfterConnect(s: Server, raw: Option<nat>): Server {
    match Authenticate(s.db, s.clock, raw)
    case Denied(_) => Tick(s)
    case Granted(agent) =>
      if agent !in s.db.agents then Tick(s) else Tick(Opened(s, agent))
  }

  function AfterDisconnect(s: Server, agent: AgentId): Server {
    var s1 := s.(connected := s.connected - {agent});
    Tick(if agent in s.db.agents && s.db.agents[agent].status.AgentConnected?
         then s1.(db := SetStatus(s.db, agent, AgentOffline)) else s1)
  }

  function AfterMessage(s: Server, agent: AgentId, m: Message): Server {
    var db := if m.dep in s.db.deployments
              then AfterSaveDeployment(s.db, Apply(s.db.deployments[m.dep], m, s.clock)) else s.db;
    var db := match m
      case DeployDone(_) => SetStatus(db, agent, AgentCompleted)
      case DeployFailed(_, _, _) => SetStatus(db, agent, AgentFailed)
      case _ => db;
    Tick(s.(db := db))
  }

  /** PUT on an agent: an empty playbook id and a missing status leave the field alone. */
  function AfterPatch(s: Server, agent: AgentId, playbook: PlaybookId, status: Option<AgentStatus>): Server {
    var db := if playbook == "" then s.db else SetPlaybook(s.db, agent, playbook);
    Tick(s.(db := if status.None? then db else SetStatus(db, agent, status.value)))
  }

  // ── All events ───────────────────────────────────────────────────────────

  datatype Event =
    | Register(req: Registration)
    | Refresh(raw: Option<nat>)
    | Request(raw: Option<nat>)             // any other authenticated request of an agent
    | Connect(raw: Option<nat>)
    | Disconnect(agent: AgentId)
    | Deliver(agent: AgentId, m: Message)
    | Assign(playbook: PlaybookId, agent: AgentId)
    | Patch(agent: AgentId, playbook: PlaybookId, status: Option<AgentStatus>)
    | Delete(agent: AgentId)
    | Wait(time: nat)

  ghost function After(s: Server, c: Config, e: Event): Server {
    match e
    case Register(req) => AfterRegister(s, c, req)
    case Refresh(raw) => AfterRefresh(s, c, raw)
    case Request(raw) => AfterRequest(s, raw)
    case Connect(raw) => AfterConnect(s, raw)
    case Disconnect(agent) => AfterDisconnect(s, agent)
    case Deliver(agent, m) => AfterMessage(s, agent, m)
    case Assign(playbook, agent) => AfterAssign(s, playbook, agent)
    case Patch(agent, playbook, status) => AfterPatch(s, agent, playbook, status)
    case Delete(agent) => Tick(s.(db := AfterDeleteAgent(s.db, agent)))
    case Wait(time) => s.(clock := s.clock + time)
  }

  // ── What every event keeps ───────────────────────────────────────────────

  /** Agents and deployments are stored under their own ids, all drawn in the past. */
  ghost predicate IdsOk(s: Server) {
    && (forall id :: id in s.db.agents ==> s.db.agents[id].id == id < s.clock)
    && (forall id :: id in s.db.deployments ==>
          s.db.deployments[id].id == id == s.db.deployments[id].startedAt && id < s.clock)
  }

  /** Every token row belongs to an existing agent; hashes and ids go together. */
  ghost predicate TokensOk(s: Server) {
    forall h :: h in s.db.tokens ==>
      h.raw < s.clock && s.db.tokens[h].id == h.raw && s.db.tokens[h].agent in s.db.agents
  }

  predicate Unrevoked(db: Db, h: Digest, agent: AgentId) {
    h in db.tokens && db.tokens[h].agent == agent && db.tokens[h].revokedAt.None?
  }

  /** At most one unrevoked token per agent. */
  ghost predicate OneToken(db: Db) {
    forall agent, h, k :: Unrevoked(db, h, agent) && Unrevoked(db, k, agent) ==> h == k
  }

  /** No two agents have the same non-empty machine id. */
  ghost predicate UniqueMachines(db: Db) {
    forall machine, i, j :: IsMachine(db, machine, i) && IsMachine(db, machine, j) ==> i == j
  }

  ghost predicate Inv(s: Server) {
    IdsOk(s) && TokensOk(s) && UniqueMachines(s.db)
  }

  ghost predicate Init(s: Server) {
    s.db.agents == map[] && s.db.deployments == map[] && s.db.tokens == map[] && s.connected == {} && s.pushes == []
  }

  /** The agents of `db'` are those of `db`, with the same machines. */
  ghost predicate SameAgents(db: Db, db': Db) {
    && db'.agents.Keys == db.agents.Keys
    && forall id :: id in db.agents ==>
         db'.agents[id].id == db.agents[id].id && Machine(db'.agents[id]) == Machine(db.agents[id])
  }

  /** A step that touches neither tokens nor the set of agents and their machines. */
  lemma QuietKeeps(s: Server, s': Server)
    requires Inv(s) && SameAgents(s.db, s'.db) && s'.db.tokens == s.db.tokens && s.clock <= s'.clock
    requires IdsOk(s')
    ensures Inv(s')
  {
    MachinesKept(s.db, s'.db);
  }

  lemma LatestRow(s: Server, agent: AgentId)
    requires IdsOk(s)
    ensures DistinctStarts(s.db.deployments)
    ensures Latest(s.db.deployments, agent).Some? ==>
      var d := Latest(s.db.deployments, agent).value;
      d.id in s.db.deployments && s.db.deployments[d.id] == d && IsLatest(s.db.deployments, agent, d.id)
  {
  }

  /** Only the last save of an agent counts, and saving what is stored changes nothing. */
  lemma SavedTwice(db: Db, a: Agent, b: Agent)
    requires a.id == b.id && a.id in db.agents
    ensures AfterSaveAgent(AfterSaveAgent(db, a), b) == AfterSaveAgent(db, b)
    ensures a == db.agents[a.id] ==> AfterSaveAgent(db, a) == db
  {
    assert a == db.agents[a.id] ==> db.agents[a.id := a] == db.agents;
    assert db.agents[a.id := a][a.id := b] == db.agents[a.id := b];
  }

  /** Saving an agent under its own id with its machine unchanged. */
  lemma SaveAgentKeeps(s: Server, a: Agent)
    requires Inv(s) && a.id in s.db.agents && Machine(a) == Machine(s.db.agents[a.id])
    ensures Inv(s.(db := AfterSaveAgent(s.db, a)))
  {
    QuietKeeps(s, s.(db := AfterSaveAgent(s.db, a)));
  }

  /** Saving a row that exists, or a new one under the current id, and then moving on. */
  lemma SaveRowKeeps(s: Server, d: Deployment)
    requires Inv(s)
    requires d.id in s.db.deployments || d.id == d.startedAt == s.clock
    ensures Inv(Tick(s.(db := AfterSaveDeployment(s.db, d))))
  {
    QuietKeeps(s, Tick(s.(db := AfterSaveDeployment(s.db, d))));
  }

  lemma TickKeeps(s: Server, time: nat)
    requires Inv(s)
    ensures Inv(s.(clock := s.clock + time))
  {
    QuietKeeps(s, s.(clock := s.clock + time));
  }

  lemma StatusKeeps(s: Server, agent: AgentId, status: AgentStatus)
    requires Inv(s)
    ensures Inv(s.(db := SetStatus(s.db, agent, status)))
  {
    if agent in s.db.agents {
      SaveAgentKeeps(s, s.db.agents[agent].(status := status));
    }
  }

  lemma PlaybookKeeps(s: Server, agent: AgentId, playbook: PlaybookId)
    requires Inv(s)
    ensures Inv(s.(db := SetPlaybook(s.db, agent, playbook)))
  {
    if agent in s.db.agents {
      SaveAgentKeeps(s, s.db.agents[agent].(playbook := playbook));
    }
  }

  lemma LogKeeps(s: Server, pushes: seq<(AgentId, Push)>, connected: set<AgentId>)
    requires Inv(s)
    ensures Inv(s.(pushes := pushes, connected := connected))
  {
    QuietKeeps(s, s.(pushes := pushes, connected := connected));
  }

  /** What a push saves: a row, and the agent's status. */
  lemma PushSaveKeeps(s: Server, d: Deployment, agent: AgentId, pushes: seq<(AgentId, Push)>)
    requires Inv(s)
    requires d.id in s.db.deployments || d.id == d.startedAt == s.clock
    ensures Inv(Tick(s.(db := SetStatus(AfterSaveDeployment(s.db, d), agent, AgentDeploying), pushes := pushes)))
  {
    SaveRowKeeps(s, d);
    var s1 := Tick(s.(db := AfterSaveDeployment(s.db, d)));
    StatusKeeps(s1, agent, AgentDeploying);
    LogKeeps(s1.(db := SetStatus(s1.db, agent, AgentDeploying)), pushes, s.connected);
  }

  lemma PushKeeps(s: Server, agent: AgentId, force: bool)
    requires Inv(s)
    ensures Inv(Tick(AfterPush(s, agent, force)))
  {
    LatestRow(s, agent);
    TickKeeps(s, 1);
    if agent in s.db.agents {
      var wanted := s.db.agents[agent].playbook;
      var decision := Decide(wanted, Latest(s.db.deployments, agent), force);
      if decision.Resume? {
        PushSaveKeeps(s, Resumed(decision.d), agent, s.pushes + [(agent, Push(decision.d.id, decision.d.resume))]);
      }
      PushSaveKeeps(s, Started(s.clock, agent, wanted, s.clock), agent, s.pushes + [(agent, Push(s.clock, 0))]);
    }
  }

  lemma FindSpec(db: Db, machine: string)
    ensures Find(db, machine).Some? ==> IsMachine(db, machine, Find(db, machine).value)
    ensures Find(db, machine).None? ==> forall id :: !IsMachine(db, machine, id)
  {
  }

  lemma MachinesKept(db: Db, db': Db)
    requires UniqueMachines(db)
    requires forall id :: id in db'.agents ==> id in db.agents && Machine(db'.agents[id]) == Machine(db.agents[id])
    ensures UniqueMachines(db')
  {
    forall machine, i, j | IsMachine(db', machine, i) && IsMachine(db', machine, j) ensures i == j {
      assert IsMachine(db, machine, i) && IsMachine(db, machine, j);
    }
  }

  /** What an accepted registration does. */
  lemma RegisterEffect(s: Server, c: Config, req: Registration)
    requires Inv(s) && Refusal(c, req).None?
    ensures var id := RegisteredId(s, req);
      var base := if id in s.db.agents then s.db.agents[id] else Blank(id, s.clock);
      var revoked := if id in s.db.agents then AfterRevokeAll(s.db, id, s.clock).tokens else s.db.tokens;
      AfterRegister(s, c, req) == Tick(s.(db := s.db.(
        agents := s.db.agents[id := Record(base, req, s.clock)],
        tokens := revoked[Digest(s.clock) := NewToken(c, id, s.clock)])))
  {
    FindSpec(s.db, MachineOf(req.metadata));
  }

  lemma AcceptedKeeps(s: Server, c: Config, req: Registration)
    requires Inv(s) && Refusal(c, req).None?
    ensures Inv(AfterRegister(s, c, req))
  {
    RegisterEffect(s, c, req);
    FindSpec(s.db, MachineOf(req.metadata));
    var db, id := AfterRegister(s, c, req).db, RegisteredId(s, req);
    forall m, i, j | IsMachine(db, m, i) && IsMachine(db, m, j) ensures i == j {
      assert i != id ==> IsMachine(s.db, m, i);
      assert j != id ==> IsMachine(s.db, m, j);
    }
  }

  lemma RegisterKeeps(s: Server, c: Config, req: Registration)
    requires Inv(s)
    ensures Inv(AfterRegister(s, c, req))
  {
    if Refusal(c, req).Some? {
      TickKeeps(s, 1);
    } else {
      AcceptedKeeps(s, c, req);
    }
  }

  lemma IssueSucceeds(s: Server, c: Config, agent: AgentId)
    requires Inv(s) && agent in s.db.agents
    ensures AfterIssue(s.db, c, agent, s.clock)
        == s.db.(tokens := s.db.tokens[Digest(s.clock) := NewToken(c, agent, s.clock)])
  {
  }

  /** The token table after both steps of a refresh. */
  lemma RotationTokens(s: Server, c: Config, agent: AgentId, raw: nat)
    requires Inv(s) && agent in s.db.agents && Digest(raw) in s.db.tokens
    ensures var db := RefreshRevokes(AfterIssue(s.db, c, agent, s.clock), raw, s.clock);
      var old_ := Digest(raw);
      db == s.db.(tokens := s.db.tokens[Digest(s.clock) := NewToken(c, agent, s.clock)]
                                       [old_ := s.db.tokens[old_].(revokedAt := Some(s.clock))])
  {
    IssueSucceeds(s, c, agent);
  }

  lemma RotationKeeps(s: Server, c: Config, agent: AgentId, raw: nat)
    requires Inv(s) && agent in s.db.agents && Digest(raw) in s.db.tokens
    ensures Inv(Tick(s.(db := RefreshRevokes(AfterIssue(s.db, c, agent, s.clock), raw, s.clock))))
  {
    RotationTokens(s, c, agent, raw);
    MachinesKept(s.db, RefreshRevokes(AfterIssue(s.db, c, agent, s.clock), raw, s.clock));
  }

  lemma RefreshKeeps(s: Server, c: Config, raw: Option<nat>)
    requires Inv(s)
    ensures Inv(AfterRefresh(s, c, raw))
  {
    TickKeeps(s, 1);
    if Authenticate(s.db, s.clock, raw).Granted? {
      var agent := Authenticate(s.db, s.clock, raw).agent;
      SeenKeeps(s, agent);
      RotationKeeps(s.(db := Seen(s.db, agent, s.clock)), c, agent, raw.value);
    }
  }

  lemma DeleteKeeps(s: Server, agent: AgentId)
    requires Inv(s)
    ensures Inv(Tick(s.(db := AfterDeleteAgent(s.db, agent))))
  {
    MachinesKept(s.db, AfterDeleteAgent(s.db, agent));
  }

  lemma ConnectKeeps(s: Server, raw: Option<nat>)
    requires Inv(s)
    ensures Inv(AfterConnect(s, raw))
  {
    TickKeeps(s, 1);
    var auth := Authenticate(s.db, s.clock, raw);
    if auth.Granted? && auth.agent in s.db.agents {
      var a := s.db.agents[auth.agent].(status := AgentConnected, lastActivityAt := s.clock);
      SaveAgentKeeps(s, a);
      var s1 := s.(db := AfterSaveAgent(s.db, a));
      LogKeeps(s1, s.pushes, s.connected + {auth.agent});
      PushKeeps(s1.(connected := s.connected + {auth.agent}), auth.agent, false);
    }
  }

  lemma AssignKeeps(s: Server, playbook: PlaybookId, agent: AgentId)
    requires Inv(s)
    ensures Inv(AfterAssign(s, playbook, agent))
  {
    TickKeeps(s, 1);
    PlaybookKeeps(s, agent, playbook);
    var s1 := s.(db := SetPlaybook(s.db, agent, playbook));
    TickKeeps(s1, 1);
    PushKeeps(s1, agent, true);
  }

  lemma DisconnectKeeps(s: Server, agent: AgentId)
    requires Inv(s)
    ensures Inv(AfterDisconnect(s, agent))
  {
    LogKeeps(s, s.pushes, s.connected - {agent});
    var s1 := s.(connected := s.connected - {agent});
    TickKeeps(s1, 1);
    StatusKeeps(s1, agent, AgentOffline);
    TickKeeps(s1.(db := SetStatus(s1.db, agent, AgentOffline)), 1);
  }

  lemma MessageKeeps(s: Server, agent: AgentId, m: Message)
    requires Inv(s)
    ensures Inv(AfterMessage(s, agent, m))
  {
    TickKeeps(s, 1);
    if m.dep in s.db.deployments {
      SaveRowKeeps(s, Apply(s.db.deployments[m.dep], m, s.clock));
    }
    var s1 := Tick(if m.dep in s.db.deployments
                   then s.(db := AfterSaveDeployment(s.db, Apply(s.db.deployments[m.dep], m, s.clock))) else s);
    StatusKeeps(s1, agent, AgentCompleted);
    StatusKeeps(s1, agent, AgentFailed);
  }

  lemma PatchKeeps(s: Server, agent: AgentId, playbook: PlaybookId, status: Option<AgentStatus>)
    requires Inv(s)
    ensures Inv(AfterPatch(s, agent, playbook, status))
  {
    TickKeeps(s, 1);
    PlaybookKeeps(Tick(s), agent, playbook);
    var s1 := Tick(if playbook == "" then s else s.(db := SetPlaybook(s.db, agent, playbook)));
    if status.Some? {
      StatusKeeps(s1, agent, status.value);
    }
  }

  lemma SeenKeeps(s: Server, agent: AgentId)
    requires Inv(s)
    ensures Inv(s.(db := Seen(s.db, agent, s.clock)))
  {
    if agent in s.db.agents {
      var a := s.db.agents[agent];
      SaveAgentKeeps(s, a.(lastActivityAt := s.clock, status := if a.status.AgentOffline? then AgentConnected
          else a.status));
    }
  }

  lemma RequestKeeps(s: Server, raw: Option<nat>)
    requires Inv(s)
    ensures Inv(AfterRequest(s, raw))
  {
    TickKeeps(s, 1);
    if Authenticate(s.db, s.clock, raw).Granted? {
      var agent := Authenticate(s.db, s.clock, raw).agent;
      SeenKeeps(s, agent);
      TickKeeps(s.(db := Seen(s.db, agent, s.clock)), 1);
    }
  }

  /** Every event keeps the invariant: no token without its agent, one agent per machine,
      distinct start times. */
  lemma StepKeeps(s: Server, c: Config, e: Event)
    requires Inv(s)
    ensures Inv(After(s, c, e))
  {
    match e
    case Register(req) => RegisterKeeps(s, c, req);
    case Refresh(raw) => RefreshKeeps(s, c, raw);
    case Request(raw) => RequestKeeps(s, raw);
    case Connect(raw) => ConnectKeeps(s, raw);
    case Disconnect(agent) => DisconnectKeeps(s, agent);
    case Deliver(agent, m) => MessageKeeps(s, agent, m);
    case Assign(playbook, agent) => AssignKeeps(s, playbook, agent);
    case Patch(agent, playbook, status) => PatchKeeps(s, agent, playbook, status);
    case Delete(agent) => DeleteKeeps(s, agent);
    case Wait(time) => TickKeeps(s, time);
  }
}
