/** What each handler does, field by field: the tables before and after it, in terms of the
    rows themselves (internal/server/handlers/auth.go, ws.go, admin.go and
    internal/server/service/manager.go). */
module Effects {
  import opened Options
  import opened Runner
  import opened Deployments
  import opened Tables
  import opened Servers
  import opened Lifecycle
  import opened Pushes

  type Rows = map<DeploymentId, Deployment>

  // ── Pushing a playbook ───────────────────────────────────────────────────

  /** The agent exists and is assigned a playbook that exists. */
  ghost predicate Wants(s: Server, agent: AgentId, playbook: PlaybookId) {
    && agent in s.db.agents && s.db.agents[agent].playbook == playbook
    && playbook != "" && playbook in s.db.playbooks
  }

  ghost predicate NoRow(rows: Rows, agent: AgentId) {
    forall id :: id in rows ==> rows[id].agent != agent
  }

  predicate IsOver(status: Status) {
    status == Completed || status == Failed
  }

  predicate IsUnderWay(status: Status) {
    status == Status.Pending || status == Running || status == Rebooting
  }

  /** The agent's most recently started deployment is of another playbook. */
  ghost predicate LatestIsOther(rows: Rows, agent: AgentId, playbook: PlaybookId) {
    exists id :: IsLatest(rows, agent, id) && rows[id].playbook != playbook
  }

  /** It is of this playbook, and completed or failed. */
  ghost predicate LatestIsOver(rows: Rows, agent: AgentId, playbook: PlaybookId) {
    exists id :: IsLatest(rows, agent, id) && rows[id].playbook == playbook && IsOver(rows[id].status)
  }

  /** Exactly these rows, agent record and push besides what was there. */
  ghost predicate Becomes(s: Server, s': Server, rows: Rows, agent: Agent, pushes: seq<(AgentId, Push)>) {
    && s'.db.deployments == rows && s'.pushes == s.pushes + pushes
    && s'.db.agents == s.db.agents[agent.id := agent]
    && s'.db.tokens == s.db.tokens && s'.db.playbooks == s.db.playbooks
  }

  function Fresh(now: nat, agent: AgentId, playbook: PlaybookId): Deployment {
    Deployment(id := now, agent := agent, playbook := playbook, status := Running, resume := 0,
               startedAt := now, finishedAt := None, error := "")
  }

  /** Without a deployment, with one of another playbook, or when forced after the end of one of
      this playbook: a new deployment is started at step 0 and pushed. */
  lemma PushStarts(s: Server, agent: AgentId, force: bool, playbook: PlaybookId)
    requires Inv(s) && Wants(s, agent, playbook)
    requires var rows := s.db.deployments;
      NoRow(rows, agent) || LatestIsOther(rows, agent, playbook) || (force && LatestIsOver(rows, agent, playbook))
    ensures var s' := AfterPush(s, agent, force);
      && Becomes(s, s', s.db.deployments[s.clock := Fresh(s.clock, agent, playbook)],
                 s.db.agents[agent].(status := AgentDeploying), [(agent, Push(s.clock, 0))])
      && s'.connected == s.connected && s'.clock == s.clock
  {
    LatestRow(s, agent);
    assert NoRow(s.db.deployments, agent) ==> Latest(s.db.deployments, agent).None?;
  }

  /** While the latest deployment is of this playbook and not over, it is pushed again from its
      resume index and marked running, forced or not. */
  lemma PushResumes(s: Server, agent: AgentId, force: bool, playbook: PlaybookId, id: DeploymentId)
    requires Inv(s) && Wants(s, agent, playbook)
    requires IsLatest(s.db.deployments, agent, id) && s.db.deployments[id].playbook == playbook
    requires IsUnderWay(s.db.deployments[id].status)
    ensures var s', row := AfterPush(s, agent, force), s.db.deployments[id];
      && Becomes(s, s', s.db.deployments[id := row.(status := Running)],
                 s.db.agents[agent].(status := AgentDeploying), [(agent, Push(id, row.resume))])
      && s'.connected == s.connected && s'.clock == s.clock
  {
    LatestRow(s, agent);
    LatestIs(s.db.deployments, agent, id);
  }

  /** The latest deployment is of this playbook and under way. */
  ghost predicate LatestIsActive(rows: Rows, agent: AgentId, playbook: PlaybookId) {
    exists id ::
      && IsLatest(rows, agent, id) && rows[id].playbook == playbook
      && IsUnderWay(rows[id].status)
  }

  /** One of the four cases always applies. */
  lemma Cases(rows: Rows, agent: AgentId, playbook: PlaybookId)
    ensures
      || NoRow(rows, agent) || LatestIsOther(rows, agent, playbook)
      || LatestIsOver(rows, agent, playbook) || LatestIsActive(rows, agent, playbook)
  {
    if !NoRow(rows, agent) {
      var row :| row in rows && rows[row].agent == agent;
      SomeLatest(rows, agent, row);
      var id :| IsLatest(rows, agent, id);
      if rows[id].playbook != playbook {
        assert LatestIsOther(rows, agent, playbook);
      } else if IsOver(rows[id].status) {
        assert LatestIsOver(rows, agent, playbook);
      } else {
        assert LatestIsActive(rows, agent, playbook);
      }
    }
  }

  /** Nothing happens exactly if there is nothing to push, or the latest deployment is of this
      playbook and over, and no new one is forced. */
  lemma PushSkips(s: Server, agent: AgentId, force: bool)
    requires Inv(s)
    ensures AfterPush(s, agent, force) == s <==>
      || agent !in s.db.agents || s.db.agents[agent].playbook == "" || s.db.agents[agent].playbook !in s.db.playbooks
      || (!force && LatestIsOver(s.db.deployments, agent, s.db.agents[agent].playbook))
  {
    if agent in s.db.agents && Wants(s, agent, s.db.agents[agent].playbook) {
      PushSkipsOver(s, agent, force, s.db.agents[agent].playbook);
    }
  }

  lemma PushSkipsOver(s: Server, agent: AgentId, force: bool, playbook: PlaybookId)
    requires Inv(s) && Wants(s, agent, playbook)
    ensures AfterPush(s, agent, force) == s <==> !force && LatestIsOver(s.db.deployments, agent, playbook)
  {
    var rows := s.db.deployments;
    Cases(rows, agent, playbook);
    if NoRow(rows, agent) || LatestIsOther(rows, agent, playbook) {
      NoneOver(s, agent, playbook);
      PushStarts(s, agent, force, playbook);
    } else if LatestIsOver(rows, agent, playbook) {
      if force {
        PushStarts(s, agent, force, playbook);
      } else {
        PushLeaves(s, agent, playbook);
      }
    } else {
      var id :|
        && IsLatest(rows, agent, id) && rows[id].playbook == playbook
        && IsUnderWay(rows[id].status);
      PushResumes(s, agent, force, playbook, id);
    }
  }

  lemma PushLeaves(s: Server, agent: AgentId, playbook: PlaybookId)
    requires Inv(s) && Wants(s, agent, playbook) && LatestIsOver(s.db.deployments, agent, playbook)
    ensures AfterPush(s, agent, false) == s
  {
    var id :| IsLatest(s.db.deployments, agent, id) && s.db.deployments[id].playbook == playbook
      && IsOver(s.db.deployments[id].status);
    LatestRow(s, agent);
    LatestIs(s.db.deployments, agent, id);
  }

  /** There is one latest deployment, so only one of the cases applies. */
  lemma NoneOver(s: Server, agent: AgentId, playbook: PlaybookId)
    requires Inv(s) && (NoRow(s.db.deployments, agent) || LatestIsOther(s.db.deployments, agent, playbook))
    ensures !LatestIsOver(s.db.deployments, agent, playbook)
  {
    LatestRow(s, agent);
    forall id | IsLatest(s.db.deployments, agent, id)
      ensures Latest(s.db.deployments, agent) == Some(s.db.deployments[id])
    {
      LatestIs(s.db.deployments, agent, id);
    }
  }

  // ── The same for a connect and for an assignment ─────────────────────────

  /** A connect marks the agent connected; then it pushes, without force. */
  lemma ConnectStarts(s: Server, c: Config, raw: Option<nat>, agent: AgentId, playbook: PlaybookId)
    requires Inv(s) && Authenticate(s.db, s.clock, raw) == Granted(agent) && Wants(s, agent, playbook)
    requires NoRow(s.db.deployments, agent) || LatestIsOther(s.db.deployments, agent, playbook)
    ensures var s' := After(s, c, Connect(raw));
      && Becomes(s, s', s.db.deployments[s.clock := Fresh(s.clock, agent, playbook)],
                 s.db.agents[agent].(status := AgentDeploying, lastActivityAt := s.clock), [(agent, Push(s.clock, 0))])
      && s'.connected == s.connected + {agent} && s'.clock == s.clock + 1
  {
    var s1 := Joined(s, agent);
    JoinedKeeps(s, agent);
    PushStarts(s1, agent, false, playbook);
  }

  lemma ConnectResumesRow(s: Server, c: Config, raw: Option<nat>, agent: AgentId, playbook: PlaybookId,
      id: DeploymentId)
    requires Inv(s) && Authenticate(s.db, s.clock, raw) == Granted(agent) && Wants(s, agent, playbook)
    requires IsLatest(s.db.deployments, agent, id) && s.db.deployments[id].playbook == playbook
    requires IsUnderWay(s.db.deployments[id].status)
    ensures var s', row := After(s, c, Connect(raw)), s.db.deployments[id];
      && Becomes(s, s', s.db.deployments[id := row.(status := Running)],
                 s.db.agents[agent].(status := AgentDeploying, lastActivityAt := s.clock),
                     [(agent, Push(id, row.resume))])
      && s'.connected == s.connected + {agent} && s'.clock == s.clock + 1
  {
    var s1 := Joined(s, agent);
    JoinedKeeps(s, agent);
    PushResumes(s1, agent, false, playbook, id);
  }

  /** An accepted connect leaves deployments and pushes alone exactly if there is nothing to push
      or the latest deployment is of the assigned playbook and over; the agent is connected then. */
  lemma ConnectSkips(s: Server, c: Config, raw: Option<nat>, agent: AgentId)
    requires Inv(s) && Authenticate(s.db, s.clock, raw) == Granted(agent)
    ensures var s', a := After(s, c, Connect(raw)), s.db.agents[agent];
      (s'.pushes == s.pushes <==>
        a.playbook == "" || a.playbook !in s.db.playbooks || LatestIsOver(s.db.deployments, agent, a.playbook))
    ensures var s', a := After(s, c, Connect(raw)), s.db.agents[agent];
      s'.pushes == s.pushes ==>
        && Becomes(s, s', s.db.deployments, a.(status := AgentConnected, lastActivityAt := s.clock), [])
        && s'.connected == s.connected + {agent} && s'.clock == s.clock + 1
  {
    var s1 := Joined(s, agent);
    JoinedKeeps(s, agent);
    PushSkips(s1, agent, false);
    PushMoves(s1, agent, false);
  }

  /** A push that changes anything is recorded. */
  lemma PushMoves(s: Server, agent: AgentId, force: bool)
    ensures AfterPush(s, agent, force) == s <==> AfterPush(s, agent, force).pushes == s.pushes
  {
  }

  /** A connection without a good token changes nothing. */
  lemma ConnectDenied(s: Server, c: Config, raw: Option<nat>)
    requires Authenticate(s.db, s.clock, raw).Denied?
    ensures After(s, c, Connect(raw)) == s.(clock := s.clock + 1)
  {
  }

  function Joined(s: Server, agent: AgentId): Server
    requires agent in s.db.agents
  {
    s.(connected := s.connected + {agent},
       db := AfterSaveAgent(s.db, s.db.agents[agent].(status := AgentConnected, lastActivityAt := s.clock)))
  }

  lemma JoinedKeeps(s: Server, agent: AgentId)
    requires Inv(s) && agent in s.db.agents
    ensures Inv(Joined(s, agent))
    ensures Joined(s, agent).db == s.db.(agents :=
      s.db.agents[agent := s.db.agents[agent].(status := AgentConnected, lastActivityAt := s.clock)])
  {
    var a := s.db.agents[agent].(status := AgentConnected, lastActivityAt := s.clock);
    SaveAgentKeeps(s, a);
    LogKeeps(s.(db := AfterSaveAgent(s.db, a)), s.pushes, s.connected + {agent});
  }

  /** An assignment of an unknown playbook or to an unknown agent changes nothing. */
  lemma AssignRefused(s: Server, c: Config, playbook: PlaybookId, agent: AgentId)
    requires agent !in s.db.agents || playbook !in s.db.playbooks
    ensures After(s, c, Assign(playbook, agent)) == s.(clock := s.clock + 1)
  {
  }

  /** Any other one sets the agent's playbook; nothing more happens while it is not connected. */
  lemma AssignSets(s: Server, c: Config, playbook: PlaybookId, agent: AgentId)
    requires Inv(s) && agent in s.db.agents && playbook in s.db.playbooks
    ensures var s' := After(s, c, Assign(playbook, agent));
      && agent in s'.db.agents && s'.db.agents[agent].playbook == playbook
      && (agent !in s.connected ==>
            && Becomes(s, s', s.db.deployments, s.db.agents[agent].(playbook := playbook), [])
            && s'.connected == s.connected && s'.clock == s.clock + 1)
  {
    PlaybookKeeps(s, agent, playbook);
    PushIdentity(s.(db := SetPlaybook(s.db, agent, playbook)), agent, true, agent);
  }

  /** To a connected agent it starts the playbook anew, unless it is under way already. */
  lemma AssignStarts(s: Server, c: Config, playbook: PlaybookId, agent: AgentId)
    requires Inv(s) && agent in s.db.agents && playbook in s.db.playbooks && playbook != "" && agent in s.connected
    requires var rows := s.db.deployments;
      NoRow(rows, agent) || LatestIsOther(rows, agent, playbook) || LatestIsOver(rows, agent, playbook)
    ensures var s' := After(s, c, Assign(playbook, agent));
      && Becomes(s, s', s.db.deployments[s.clock := Fresh(s.clock, agent, playbook)],
                 s.db.agents[agent].(playbook := playbook, status := AgentDeploying), [(agent, Push(s.clock, 0))])
      && s'.connected == s.connected && s'.clock == s.clock + 1
  {
    PlaybookKeeps(s, agent, playbook);
    PushStarts(s.(db := SetPlaybook(s.db, agent, playbook)), agent, true, playbook);
  }

  lemma AssignResumes(s: Server, c: Config, playbook: PlaybookId, agent: AgentId, id: DeploymentId)
    requires Inv(s) && agent in s.db.agents && playbook in s.db.playbooks && playbook != "" && agent in s.connected
    requires IsLatest(s.db.deployments, agent, id) && s.db.deployments[id].playbook == playbook
    requires IsUnderWay(s.db.deployments[id].status)
    ensures var s', row := After(s, c, Assign(playbook, agent)), s.db.deployments[id];
      && Becomes(s, s', s.db.deployments[id := row.(status := Running)],
                 s.db.agents[agent].(playbook := playbook, status := AgentDeploying), [(agent, Push(id, row.resume))])
      && s'.connected == s.connected && s'.clock == s.clock + 1
  {
    PlaybookKeeps(s, agent, playbook);
    PushResumes(s.(db := SetPlaybook(s.db, agent, playbook)), agent, true, playbook, id);
  }

  /** An accepted assignment of a playbook to a connected agent always pushes exactly once. */
  lemma AssignPushes(s: Server, c: Config, playbook: PlaybookId, agent: AgentId)
    requires Inv(s) && agent in s.db.agents && playbook in s.db.playbooks && playbook != "" && agent in s.connected
    ensures exists push :: After(s, c, Assign(playbook, agent)).pushes == s.pushes + [(agent, push)]
  {
    var rows := s.db.deployments;
    Cases(rows, agent, playbook);
    if NoRow(rows, agent) || LatestIsOther(rows, agent, playbook) || LatestIsOver(rows, agent, playbook) {
      AssignStarts(s, c, playbook, agent);
    } else {
      var id :| IsLatest(rows, agent, id) && rows[id].playbook == playbook && IsUnderWay(rows[id].status);
      AssignResumes(s, c, playbook, agent, id);
    }
  }

  // ── Agent messages ───────────────────────────────────────────────────────

  /** What a message does to the agent that sent it: only the ends of a deployment show. */
  lemma MessageAgents(s: Server, c: Config, agent: AgentId, m: Message)
    requires Inv(s)
    ensures var agents' := After(s, c, Deliver(agent, m)).db.agents;
      && (m.DeployDone? && agent in s.db.agents ==>
            agents' == s.db.agents[agent := s.db.agents[agent].(status := AgentCompleted)])
      && (m.DeployFailed? && agent in s.db.agents ==>
            agents' == s.db.agents[agent := s.db.agents[agent].(status := AgentFailed)])
      && ((!m.DeployDone? && !m.DeployFailed?) || agent !in s.db.agents ==> agents' == s.db.agents)
  {
  }

  /** Otherwise a message changes the row it names, if there is one, and nothing else. */
  lemma MessageFrame(s: Server, c: Config, agent: AgentId, m: Message)
    ensures var s' := After(s, c, Deliver(agent, m));
      && s'.db.tokens == s.db.tokens && s'.db.playbooks == s.db.playbooks
      && s'.pushes == s.pushes && s'.connected == s.connected && s'.clock == s.clock + 1
  {
  }

  lemma MessageOtherRows(s: Server, c: Config, agent: AgentId, m: Message, id: DeploymentId)
    requires Inv(s)
    ensures var rows' := After(s, c, Deliver(agent, m)).db.deployments;
      && (id in rows' <==> id in s.db.deployments)
      && (id in s.db.deployments && id != m.dep ==> rows'[id] == s.db.deployments[id])
  {
    MessageOutcome(s, agent, m);
  }

  /** What each message does to that row. */
  lemma MessageRow(s: Server, c: Config, agent: AgentId, m: Message)
    requires Inv(s) && m.dep in s.db.deployments
    ensures var rows', row := After(s, c, Deliver(agent, m)).db.deployments, s.db.deployments[m.dep];
      m.dep in rows' && rows'[m.dep] ==
        match m
        case StepStart(_, i) => row.(status := Running, resume := i)
        case StepComplete(_, i) => row.(resume := i + 1)
        case StepFailed(_, _, error) => row.(status := Failed, error := error)
        case Reboot(_, at) => row.(status := Rebooting, resume := at)
        case DeployDone(_) => row.(status := Completed, finishedAt := Some(s.clock))
        case DeployFailed(_, _, error) => row.(status := Failed, error := error, finishedAt := Some(s.clock))
  {
  }

  // ── Registration, tokens and the rest ────────────────────────────────────

  /** The record of a registered machine: new, or the old one with its id, registration time and
      playbook. */
  lemma RegisterRecord(s: Server, c: Config, req: Registration)
    requires Inv(s) && Refusal(c, req).None?
    ensures var s', id := After(s, c, Register(req)), RegisteredId(s, req);
      && s'.db.agents == s.db.agents[id :=
           if id in s.db.agents then
             s.db.agents[id].(hostname := req.hostname, metadata := req.metadata, status := AgentRegistered,
                              lastActivityAt := s.clock)
           else Agent(id := s.clock, hostname := req.hostname, metadata := req.metadata, status := AgentRegistered,
                      playbook := "", registeredAt := s.clock, lastActivityAt := s.clock)]
      && s'.db.deployments == s.db.deployments && s'.db.playbooks == s.db.playbooks
      && s'.pushes == s.pushes && s'.connected == s.connected && s'.clock == s.clock + 1
  {
    RegisterEffect(s, c, req);
    FindSpec(s.db, MachineOf(req.metadata));
  }

  /** A refused registration changes nothing. */
  lemma RegisterRefused(s: Server, c: Config, req: Registration)
    ensures req.hostname == "" || req.platform !in {"linux", "mac", "windows"} || req.secret == "" ||
        req.secret !in c.secrets
      ==> After(s, c, Register(req)) == s.(clock := s.clock + 1)
  {
  }

  /** Thirty days if nothing is configured, the configured number of hours otherwise. */
  lemma ExpiryIs(c: Config, now: nat)
    ensures c.tokenExpiryHours == 0 ==> Expiry(c, now) == now + 30 * 24 * 3_600 * 1_000_000_000
    ensures c.tokenExpiryHours != 0 ==> Expiry(c, now) == now + c.tokenExpiryHours * (3_600 * 1_000_000_000)
  {
  }

  /** Any authenticated request marks its agent as seen now, and connected if it was offline. */
  lemma RequestMarks(s: Server, c: Config, raw: Option<nat>)
    requires Inv(s)
    ensures var s' := After(s, c, Request(raw));
      && s'.db.deployments == s.db.deployments && s'.db.tokens == s.db.tokens && s'.db.playbooks == s.db.playbooks
      && match Authenticate(s.db, s.clock, raw)
         case Denied(_) => s' == s.(clock := s.clock + 1)
         case Granted(agent) =>
           && agent in s.db.agents
           && s'.db.agents == s.db.agents[agent :=
                s.db.agents[agent].(lastActivityAt := s.clock, status := s'.db.agents[agent].status)]
           && s'.db.agents[agent].status ==
                (if s.db.agents[agent].status == AgentOffline then AgentConnected else s.db.agents[agent].status)
  {
  }

  /** A connection that ends takes a connected agent offline, and one in any other status as it is. */
  lemma DisconnectMarks(s: Server, c: Config, agent: AgentId)
    requires Inv(s)
    ensures var s' := After(s, c, Disconnect(agent));
      && s'.connected == s.connected - {agent} && s'.clock == s.clock + 1 && s'.pushes == s.pushes
      && s'.db.deployments == s.db.deployments && s'.db.tokens == s.db.tokens && s'.db.playbooks == s.db.playbooks
      && s'.db.agents ==
           (if agent in s.db.agents && s.db.agents[agent].status == AgentConnected
            then s.db.agents[agent := s.db.agents[agent].(status := AgentOffline)] else s.db.agents)
  {
  }

  /** An administrator's update sets what is given and leaves the rest. */
  lemma PatchSets(s: Server, c: Config, agent: AgentId, playbook: PlaybookId, status: Option<AgentStatus>)
    requires Inv(s)
    ensures var s' := After(s, c, Patch(agent, playbook, status));
      && s'.connected == s.connected && s'.clock == s.clock + 1 && s'.pushes == s.pushes
      && s'.db.deployments == s.db.deployments && s'.db.tokens == s.db.tokens && s'.db.playbooks == s.db.playbooks
      && (agent !in s.db.agents ==> s'.db.agents == s.db.agents)
      && (agent in s.db.agents ==>
            var a := s.db.agents[agent];
            s'.db.agents == s.db.agents[agent := a.(
              playbook := if playbook != "" then playbook else a.playbook,
              status := if status.Some? then status.value else a.status)])
  {
  }

  /** A refresh stamps the presented token and adds one for the same agent, which expires as
      configured; a request that does not authenticate changes nothing. */
  lemma RefreshSwaps(s: Server, c: Config, raw: Option<nat>)
    requires Inv(s)
    ensures var s' := After(s, c, Refresh(raw));
      match Authenticate(s.db, s.clock, raw)
      case Denied(_) => s' == s.(clock := s.clock + 1)
      case Granted(agent) =>
        var h := Digest(raw.value);
        && h in s.db.tokens && s'.clock == s.clock + 1 && s'.db.deployments == s.db.deployments
        && s'.db.tokens == s.db.tokens
             [Digest(s.clock) := Token(id := s.clock, agent := agent, expiresAt := Some(Expiry(c, s.clock)),
                 revokedAt := None)]
             [h := s.db.tokens[h].(revokedAt := Some(s.clock))]
  {
    var auth := Authenticate(s.db, s.clock, raw);
    if auth.Granted? {
      SeenKeeps(s, auth.agent);
      RotationTokens(s.(db := Seen(s.db, auth.agent, s.clock)), c, auth.agent, raw.value);
    }
  }

  /** Deleting an agent takes its tokens along and leaves its deployments. */
  lemma DeleteDrops(s: Server, c: Config, agent: AgentId)
    ensures var s' := After(s, c, Delete(agent));
      && s'.db.agents == s.db.agents - {agent}
      && (forall h :: h in s'.db.tokens <==> h in s.db.tokens && s.db.tokens[h].agent != agent)
      && (forall h :: h in s'.db.tokens ==> s'.db.tokens[h] == s.db.tokens[h])
      && s'.db.deployments == s.db.deployments && s'.connected == s.connected && s'.clock == s.clock + 1
  {
  }
}
