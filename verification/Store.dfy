/** The persistent tables (internal/server/store/store.go): agents, deployments, playbooks and
    agent tokens. Upserts keep the column the SQL leaves out of its update list, deleting an
    agent cascades to its tokens, and the active deployment is the most recently started. */
module Tables {
  import opened Options
  import opened Playbooks
  import opened Runner
  import opened Deployments

  datatype AgentStatus =
    | AgentRegistered | AgentConnected | AgentDeploying | AgentCompleted | AgentFailed | AgentOffline

  datatype Agent = Agent(
    id: AgentId, hostname: string, metadata: map<string, string>, status: AgentStatus,
    playbook: PlaybookId, registeredAt: nat, lastActivityAt: nat)

  /** The SHA-256 digest of a raw token, taken to be injective. */
  datatype Digest = Digest(raw: nat)

  datatype Token = Token(id: nat, agent: AgentId, expiresAt: Option<int>, revokedAt: Option<nat>)

  datatype Db = Db(
    agents: map<AgentId, Agent>,
    deployments: map<DeploymentId, Deployment>,
    playbooks: map<PlaybookId, Playbook>,
    tokens: map<Digest, Token>)

  // ── Table operations as functions ────────────────────────────────────────

  function AfterSaveAgent(db: Db, a: Agent): Db {
    db.(agents := db.agents[a.id :=
      if a.id in db.agents then a.(registeredAt := db.agents[a.id].registeredAt) else a])
  }

  function AfterDeleteAgent(db: Db, id: AgentId): Db {
    db.(agents := db.agents - {id},
        tokens := map h | h in db.tokens && db.tokens[h].agent != id :: db.tokens[h])
  }

  function AfterSaveDeployment(db: Db, d: Deployment): Db {
    db.(deployments := db.deployments[d.id :=
      if d.id in db.deployments then d.(startedAt := db.deployments[d.id].startedAt) else d])
  }

  /** INSERT fails on a hash or an id that is taken and on an agent that does not exist. */
  predicate CanCreateToken(db: Db, h: Digest, t: Token) {
    h !in db.tokens && t.agent in db.agents && forall k :: k in db.tokens ==> db.tokens[k].id != t.id
  }

  ghost predicate TakenId(tokens: map<Digest, Token>, id: nat) {
    exists k :: k in tokens && tokens[k].id == id
  }

  function AfterRevoke(db: Db, id: nat, now: nat): Db {
    db.(tokens := map h | h in db.tokens ::
      if db.tokens[h].id == id then db.tokens[h].(revokedAt := Some(now)) else db.tokens[h])
  }

  function AfterRevokeAll(db: Db, agent: AgentId, now: nat): Db {
    db.(tokens := map h | h in db.tokens ::
      if db.tokens[h].agent == agent && db.tokens[h].revokedAt.None?
      then db.tokens[h].(revokedAt := Some(now)) else db.tokens[h])
  }

  /** ORDER BY started_at DESC LIMIT 1 among the rows of one agent. */
  ghost predicate IsLatest(rows: map<DeploymentId, Deployment>, agent: AgentId, id: DeploymentId) {
    && id in rows && rows[id].agent == agent
    && forall j :: j in rows && rows[j].agent == agent ==> rows[j].startedAt <= rows[id].startedAt
  }

  /** No two deployments of an agent start at the same moment. */
  ghost predicate DistinctStarts(rows: map<DeploymentId, Deployment>) {
    forall i, j :: i in rows && j in rows && SameStart(rows[i], rows[j]) ==> i == j
  }

  predicate SameStart(d: Deployment, d': Deployment) {
    d.agent == d'.agent && d.startedAt == d'.startedAt
  }

  ghost function Latest(rows: map<DeploymentId, Deployment>, agent: AgentId): Option<Deployment> {
    if exists id :: IsLatest(rows, agent, id) then
      var id :| IsLatest(rows, agent, id);
      Some(rows[id])
    else None
  }

  lemma LatestIs(rows: map<DeploymentId, Deployment>, agent: AgentId, id: DeploymentId)
    requires IsLatest(rows, agent, id) && DistinctStarts(rows)
    ensures Latest(rows, agent) == Some(rows[id])
  {
  }

  lemma {:induction false} LatestExists(rows: map<DeploymentId, Deployment>, agent: AgentId, ids: set<DeploymentId>)
    returns (best: DeploymentId)
    requires ids != {} && forall id :: id in ids ==> id in rows && rows[id].agent == agent
    ensures best in ids && forall id :: id in ids ==> rows[id].startedAt <= rows[best].startedAt
    decreases |ids|
  {
    var id :| id in ids;
    if ids == {id} {
      best := id;
    } else {
      var rest := LatestExists(rows, agent, ids - {id});
      best := if rows[id].startedAt <= rows[rest].startedAt then rest else id;
    }
  }

  /** There is a latest deployment as soon as there is one at all. */
  lemma SomeLatest(rows: map<DeploymentId, Deployment>, agent: AgentId, id: DeploymentId)
    requires id in rows && rows[id].agent == agent
    ensures Latest(rows, agent).Some?
  {
    var ids := set j | j in rows && rows[j].agent == agent;
    assert id in ids;
    var best := LatestExists(rows, agent, ids);
    assert IsLatest(rows, agent, best);
  }

  // ── The store object ─────────────────────────────────────────────────────

  class Store {
    var agents: map<AgentId, Agent>
    var deployments: map<DeploymentId, Deployment>
    var playbooks: map<PlaybookId, Playbook>
    var tokens: map<Digest, Token>

    ghost function View(): Db
      reads this
    {
      Db(agents, deployments, playbooks, tokens)
    }

    constructor (playbooks: map<PlaybookId, Playbook>)
      ensures View() == Db(map[], map[], playbooks, map[])
    {
      this.agents, this.deployments, this.playbooks, this.tokens := map[], map[], playbooks, map[];
    }

    /** Stores the agent, but an agent that was there keeps its registration time. */
    method SaveAgent(a: Agent)
      modifies this
      ensures a.id in agents && agents[a.id] == a.(registeredAt := agents[a.id].registeredAt)
      ensures agents[a.id].registeredAt == if a.id in old(agents) then old(agents)[a.id].registeredAt
          else a.registeredAt
      ensures forall id :: id != a.id ==>
          (id in agents <==> id in old(agents)) && (id in agents ==> agents[id] == old(agents)[id])
      ensures deployments == old(deployments) && playbooks == old(playbooks) && tokens == old(tokens)
      ensures View() == AfterSaveAgent(old(View()), a)
    {
      if a.id in agents {
        agents := agents[a.id := a.(registeredAt := agents[a.id].registeredAt)];
      } else {
        agents := agents[a.id := a];
      }
    }

    method GetAgent(id: AgentId) returns (a: Option<Agent>)
      ensures a == if id in agents then Some(agents[id]) else None
    {
      if id in agents {
        a := Some(agents[id]);
      } else {
        a := None;
      }
    }

    /** Removes the agent and its tokens, and nothing of any other agent. */
    method DeleteAgent(id: AgentId)
      modifies this
      ensures id !in agents && forall h :: h in tokens ==> tokens[h].agent != id
      ensures forall i :: i in old(agents) && i != id ==> i in agents && agents[i] == old(agents)[i]
      ensures forall h :: h in old(tokens) && old(tokens)[h].agent != id ==> h in tokens && tokens[h] == old(tokens)[h]
      ensures agents.Keys <= old(agents).Keys && tokens.Keys <= old(tokens).Keys
      ensures deployments == old(deployments) && playbooks == old(playbooks)
      ensures View() == AfterDeleteAgent(old(View()), id)
    {
      agents := agents - {id};
      tokens := map h | h in tokens && tokens[h].agent != id :: tokens[h];
    }

    /** Stores the row, but a row that was there keeps its start time. */
    method SaveDeployment(d: Deployment)
      modifies this
      ensures d.id in deployments && deployments[d.id] == d.(startedAt := deployments[d.id].startedAt)
      ensures deployments[d.id].startedAt == if d.id in old(deployments) then old(deployments)[d.id].startedAt
          else d.startedAt
      ensures forall id :: id != d.id ==>
        (id in deployments <==> id in old(deployments)) &&
            (id in deployments ==> deployments[id] == old(deployments)[id])
      ensures agents == old(agents) && playbooks == old(playbooks) && tokens == old(tokens)
      ensures View() == AfterSaveDeployment(old(View()), d)
    {
      if d.id in deployments {
        deployments := deployments[d.id := d.(startedAt := deployments[d.id].startedAt)];
      } else {
        deployments := deployments[d.id := d];
      }
    }

    /** The most recently started deployment of an agent, found by scanning its rows. */
    method GetActiveDeploymentForAgent(agent: AgentId) returns (d: Option<Deployment>)
      ensures d.None? ==> forall j :: j in deployments ==> deployments[j].agent != agent
      ensures d.Some? ==> exists id :: IsLatest(deployments, agent, id) && d.value == deployments[id]
      ensures DistinctStarts(deployments) ==> d == Latest(deployments, agent)
    {
      d := None;
      ghost var best: DeploymentId := 0;
      var todo := deployments.Keys;
      while todo != {}
        invariant todo <= deployments.Keys
        invariant d.None? ==> forall j :: j in deployments && j !in todo ==> deployments[j].agent != agent
        invariant d.Some? ==>
          && best in deployments && d.value == deployments[best] && d.value.agent == agent
          && forall j :: j in deployments && j !in todo && deployments[j].agent == agent
               ==> deployments[j].startedAt <= d.value.startedAt
        decreases todo
      {
        var id :| id in todo;
        var row := deployments[id];
        if row.agent == agent && (d.None? || d.value.startedAt < row.startedAt) {
          d, best := Some(row), id;
        }
        todo := todo - {id};
      }
      if d.Some? {
        assert IsLatest(deployments, agent, best);
        if DistinctStarts(deployments) {
          LatestIs(deployments, agent, best);
        }
      }
    }

    method GetDeployment(id: DeploymentId) returns (d: Option<Deployment>)
      ensures d == if id in deployments then Some(deployments[id]) else None
    {
      if id in deployments {
        d := Some(deployments[id]);
      } else {
        d := None;
      }
    }

    method CreateAgentToken(h: Digest, t: Token) returns (ok: bool)
      modifies this
      ensures !ok <==> h in old(tokens) || t.agent !in agents || TakenId(old(tokens), t.id)
      ensures ok ==> h in tokens && tokens[h] == t && tokens.Keys == old(tokens).Keys + {h}
      ensures forall k :: k in old(tokens) ==> k in tokens && tokens[k] == old(tokens)[k]
      ensures !ok ==> tokens == old(tokens)
      ensures agents == old(agents) && deployments == old(deployments) && playbooks == old(playbooks)
      ensures ok == CanCreateToken(old(View()), h, t)
      ensures View() == if ok then old(View()).(tokens := old(tokens)[h := t]) else old(View())
    {
      ok := h !in tokens && t.agent in agents && forall k :: k in tokens ==> tokens[k].id != t.id;
      if ok {
        tokens := tokens[h := t];
      }
    }

    method GetAgentTokenByHash(h: Digest) returns (t: Option<Token>)
      ensures t == if h in tokens then Some(tokens[h]) else None
    {
      if h in tokens {
        t := Some(tokens[h]);
      } else {
        t := None;
      }
    }

    /** Stamps the token with this id, a revoked one again, and changes nothing else. */
    method RevokeAgentToken(id: nat, now: nat)
      modifies this
      ensures tokens.Keys == old(tokens).Keys
      ensures forall h :: h in tokens && tokens[h].id == id ==> tokens[h].revokedAt == Some(now)
      ensures forall h :: h in tokens ==> tokens[h] == old(tokens)[h].(revokedAt := tokens[h].revokedAt)
      ensures forall h :: h in tokens && tokens[h].id != id ==> tokens[h] == old(tokens)[h]
      ensures agents == old(agents) && deployments == old(deployments) && playbooks == old(playbooks)
      ensures View() == AfterRevoke(old(View()), id, now)
    {
      tokens := map h | h in tokens :: if tokens[h].id == id then tokens[h].(revokedAt := Some(now)) else tokens[h];
    }

    /** Leaves the agent no unrevoked token; a token that was revoked keeps its stamp. */
    method RevokeAllAgentTokens(agent: AgentId, now: nat)
      modifies this
      ensures tokens.Keys == old(tokens).Keys
      ensures forall h :: h in tokens && tokens[h].agent == agent ==> tokens[h].revokedAt.Some?
      ensures forall h :: h in tokens ==> tokens[h] == old(tokens)[h].(revokedAt := tokens[h].revokedAt)
      ensures forall h :: h in tokens && (tokens[h].agent != agent || old(tokens)[h].revokedAt.Some?) ==>
          tokens[h] == old(tokens)[h]
      ensures agents == old(agents) && deployments == old(deployments) && playbooks == old(playbooks)
      ensures View() == AfterRevokeAll(old(View()), agent, now)
    {
      tokens := map h | h in tokens ::
        if tokens[h].agent == agent && tokens[h].revokedAt.None? then tokens[h].(revokedAt := Some(now)) else tokens[h];
    }
  }
}
