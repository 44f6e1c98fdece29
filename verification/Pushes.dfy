/** Which deployments the server creates and pushes, over whole histories: reconnecting does
    not multiply work, and every push is of the agent's latest deployment. */
module Pushes {
  import opened Options
  import opened Runner
  import opened Deployments
  import opened Tables
  import opened Servers
  import opened Lifecycle

  /** The agent is gone, or its latest deployment is of the playbook it is assigned. */
  ghost predicate Settled(s: Server, agent: AgentId) {
    agent in s.db.agents ==>
      exists id :: IsLatest(s.db.deployments, agent, id) && s.db.deployments[id].playbook == s.db.agents[agent].playbook
  }

  /** A push stored `d` as the latest deployment of the agent and sent it from its resume index. */
  ghost predicate Pushed(s: Server, s': Server, agent: AgentId, d: Deployment) {
    && agent in s'.db.agents && s'.db.agents[agent].playbook == d.playbook != "" && d.playbook in s'.db.playbooks
    && d.agent == agent && d.status.Running?
    && s'.db.deployments == s.db.deployments[d.id := d]
    && IsLatest(s'.db.deployments, agent, d.id)
    && s'.pushes == s.pushes + [(agent, Push(d.id, d.resume))]
  }

  /** `d` is an active deployment, marked as running again. */
  ghost predicate IsResumed(s: Server, d: Deployment) {
    d.id in s.db.deployments && Active(s.db.deployments[d.id]) && d == Resumed(s.db.deployments[d.id])
  }

  lemma ResumeOutcome(s: Server, agent: AgentId, force: bool, d: Deployment)
    requires Inv(s) && agent in s.db.agents && s.db.agents[agent].playbook != "" &&
        s.db.agents[agent].playbook in s.db.playbooks
    requires Decide(s.db.agents[agent].playbook, Latest(s.db.deployments, agent), force) == Resume(d)
    ensures Pushed(s, AfterPush(s, agent, force), agent, Resumed(d)) && IsResumed(s, Resumed(d))
  {
    LatestRow(s, agent);
    assert AfterSaveDeployment(s.db, Resumed(d)).deployments == s.db.deployments[d.id := Resumed(d)];
  }

  lemma StartOutcome(s: Server, agent: AgentId, force: bool)
    requires Inv(s) && agent in s.db.agents && s.db.agents[agent].playbook != "" &&
        s.db.agents[agent].playbook in s.db.playbooks
    requires Decide(s.db.agents[agent].playbook, Latest(s.db.deployments, agent), force) == StartNew
    ensures Pushed(s, AfterPush(s, agent, force), agent, Started(s.clock, agent, s.db.agents[agent].playbook, s.clock))
    ensures force || !Settled(s, agent)
  {
    LatestRow(s, agent);
    var d := Started(s.clock, agent, s.db.agents[agent].playbook, s.clock);
    assert AfterSaveDeployment(s.db, d).deployments == s.db.deployments[d.id := d];
    forall id | IsLatest(s.db.deployments, agent, id) ensures Latest(s.db.deployments, agent)
        == Some(s.db.deployments[id]) {
      LatestIs(s.db.deployments, agent, id);
    }
  }

  /** The three outcomes of a push: nothing, an active deployment resumed, a new one started
      (only if forced or if the latest deployment is of another playbook). */
  lemma PushOutcome(s: Server, agent: AgentId, force: bool) returns (d: Option<Deployment>)
    requires Inv(s)
    ensures d.None? ==> AfterPush(s, agent, force) == s
    ensures d.Some? ==> Pushed(s, AfterPush(s, agent, force), agent, d.value)
    ensures d.Some? ==>
      || IsResumed(s, d.value)
      || (d.value == Started(s.clock, agent, d.value.playbook, s.clock) && (force || !Settled(s, agent)))
  {
    if agent !in s.db.agents || s.db.agents[agent].playbook == "" || s.db.agents[agent].playbook !in s.db.playbooks {
      d := None;
    } else {
      var wanted := s.db.agents[agent].playbook;
      match Decide(wanted, Latest(s.db.deployments, agent), force)
      case Skip =>
        d := None;
      case Resume(row) =>
        ResumeOutcome(s, agent, force, row);
        d := Some(Resumed(row));
      case StartNew =>
        StartOutcome(s, agent, force);
        d := Some(Started(s.clock, agent, wanted, s.clock));
    }
  }

  // ── What each event does to the deployments ──────────────────────────────

  lemma ConnectOutcome(s: Server, raw: Option<nat>) returns (agent: AgentId, d: Option<Deployment>)
    requires Inv(s)
    ensures var s' := AfterConnect(s, raw);
      && (d.None? ==> s'.pushes == s.pushes && s'.db.deployments == s.db.deployments)
      && (d.Some? ==>
            && Pushed(s, s', agent, d.value)
            && (IsResumed(s, d.value)
                || (d.value == Started(s.clock, agent, d.value.playbook, s.clock) && !Settled(s, agent))))
  {
    var auth := Authenticate(s.db, s.clock, raw);
    if auth.Granted? && auth.agent in s.db.agents {
      agent := auth.agent;
      var a := s.db.agents[agent].(status := AgentConnected, lastActivityAt := s.clock);
      SaveAgentKeeps(s, a);
      LogKeeps(s.(db := AfterSaveAgent(s.db, a)), s.pushes, s.connected + {agent});
      var s1 := s.(connected := s.connected + {agent}, db := AfterSaveAgent(s.db, a));
      assert Settled(s, agent) ==> Settled(s1, agent);
      d := PushOutcome(s1, agent, false);
    } else {
      agent, d := 0, None;
    }
  }

  lemma AssignOutcome(s: Server, playbook: PlaybookId, agent: AgentId) returns (d: Option<Deployment>)
    requires Inv(s)
    ensures var s' := AfterAssign(s, playbook, agent);
      && (d.None? ==> s'.pushes == s.pushes && s'.db.deployments == s.db.deployments)
      && (d.Some? ==>
            && Pushed(s, s', agent, d.value)
            && (IsResumed(s, d.value) || d.value == Started(s.clock, agent, d.value.playbook, s.clock)))
  {
    if CanAssign(s.db, playbook, agent) && agent in s.connected {
      PlaybookKeeps(s, agent, playbook);
      d := PushOutcome(s.(db := SetPlaybook(s.db, agent, playbook)), agent, true);
    } else {
      d := None;
    }
  }

  /** Only a message of an agent updates a deployment other than by a push. */
  ghost predicate Updated(s: Server, s': Server, e: Event) {
    && s'.pushes == s.pushes
    && (s'.db.deployments == s.db.deployments
        || (e.Deliver? && e.m.dep in s.db.deployments
            && s'.db.deployments == s.db.deployments[e.m.dep := Apply(s.db.deployments[e.m.dep], e.m, s.clock)]))
  }

  lemma MessageOutcome(s: Server, agent: AgentId, m: Message)
    requires Inv(s)
    ensures Updated(s, AfterMessage(s, agent, m), Deliver(agent, m))
  {
  }

  lemma RegisterOutcome(s: Server, c: Config, req: Registration)
    ensures AfterRegister(s, c, req).pushes == s.pushes && AfterRegister(s, c, req).db.deployments == s.db.deployments
  {
  }

  lemma RefreshOutcome(s: Server, c: Config, raw: Option<nat>)
    ensures AfterRefresh(s, c, raw).pushes == s.pushes && AfterRefresh(s, c, raw).db.deployments == s.db.deployments
  {
  }

  lemma OtherOutcome(s: Server, c: Config, e: Event)
    requires !e.Connect? && !e.Assign? && !e.Deliver?
    ensures After(s, c, e).pushes == s.pushes && After(s, c, e).db.deployments == s.db.deployments
  {
    match e
    case Register(req) => RegisterOutcome(s, c, req);
    case Refresh(raw) => RefreshOutcome(s, c, raw);
    case _ =>
  }

  /** From `s` to `s'` event `e` pushed `d` to `agent`, or pushed nothing. */
  ghost predicate IsOutcome(s: Server, e: Event, s': Server, agent: AgentId, d: Option<Deployment>) {
    match d
    case None => Updated(s, s', e)
    case Some(row) =>
      && Pushed(s, s', agent, row)
      && (IsResumed(s, row)
          || (row == Started(s.clock, agent, row.playbook, s.clock) && (Reassigns(e, agent) || !Settled(s, agent))))
  }

  /** What any event does to deployments: a push, an update by a message, or nothing. */
  lemma EventOutcome(s: Server, c: Config, e: Event) returns (agent: AgentId, d: Option<Deployment>)
    requires Inv(s)
    ensures IsOutcome(s, e, After(s, c, e), agent, d)
  {
    agent, d := 0, None;
    match e
    case Connect(raw) => agent, d := ConnectOutcome(s, raw);
    case Assign(playbook, id) =>
      agent := id;
      d := AssignOutcome(s, playbook, id);
    case Deliver(id, m) => MessageOutcome(s, id, m);
    case _ => OtherOutcome(s, c, e);
  }

  lemma PlaybooksFixed(s: Server, c: Config, e: Event)
    ensures After(s, c, e).db.playbooks == s.db.playbooks
  {
    match e
    case Connect(raw) =>
      var auth := Authenticate(s.db, s.clock, raw);
      if auth.Granted? && auth.agent in s.db.agents {
        var a := s.db.agents[auth.agent].(status := AgentConnected, lastActivityAt := s.clock);
        PushFrame(s.(connected := s.connected + {auth.agent}, db := AfterSaveAgent(s.db, a)), auth.agent, false);
      }
    case Assign(playbook, agent) =>
      PushFrame(s.(db := SetPlaybook(s.db, agent, playbook)), agent, true);
    case _ =>
  }

  // ── Over whole histories ─────────────────────────────────────────────────

  /** Agent, playbook and start time of a deployment never change, and deployments stay. */
  ghost predicate RowsKept(s: Server, s': Server) {
    forall id :: id in s.db.deployments ==>
      && id in s'.db.deployments
      && s'.db.deployments[id].agent == s.db.deployments[id].agent
      && s'.db.deployments[id].playbook == s.db.deployments[id].playbook
      && s'.db.deployments[id].startedAt == s.db.deployments[id].startedAt
  }

  /** `id` is a deployment of the agent that was created since `s`. */
  ghost predicate IsNew(s: Server, s': Server, agent: AgentId, id: DeploymentId) {
    id in s'.db.deployments && s'.db.deployments[id].agent == agent && id !in s.db.deployments
  }

  lemma RowsStep(s: Server, c: Config, e: Event)
    requires Inv(s)
    ensures RowsKept(s, After(s, c, e))
  {
    var agent, d := EventOutcome(s, c, e);
    RowsOutcome(s, e, After(s, c, e), agent, d);
  }

  lemma RowsOutcome(s: Server, e: Event, s': Server, agent: AgentId, d: Option<Deployment>)
    requires IdsOk(s) && IsOutcome(s, e, s', agent, d)
    ensures RowsKept(s, s')
  {
  }

  /** A new deployment settles its agent. */
  lemma NewIsSettled(s: Server, c: Config, e: Event, agent: AgentId, id: DeploymentId)
    requires Inv(s) && IsNew(s, After(s, c, e), agent, id)
    ensures id == s.clock && Settled(After(s, c, e), agent)
  {
    var b, d := EventOutcome(s, c, e);
  }

  lemma SettledOutcome(s: Server, e: Event, s': Server, b: AgentId, d: Option<Deployment>, agent: AgentId)
    requires IdsOk(s) && IsOutcome(s, e, s', b, d) && Settled(s, agent) && !Reassigns(e, agent)
    requires agent in s'.db.agents ==> SameAssignment(s, s', agent)
    ensures Settled(s', agent)
    ensures forall id :: !IsNew(s, s', agent, id)
  {
    if agent in s'.db.agents {
      var id :| IsLatest(s.db.deployments, agent, id) && s.db.deployments[id].playbook == s.db.agents[agent].playbook;
      assert IsLatest(s'.db.deployments, agent, id);
    }
  }

  /** A settled agent stays settled and gets no further deployment, unless it is reassigned. */
  lemma SettledStep(s: Server, c: Config, e: Event, agent: AgentId)
    requires Inv(s) && agent < s.clock && Settled(s, agent) && !Reassigns(e, agent)
    ensures Settled(After(s, c, e), agent)
    ensures forall id :: !IsNew(s, After(s, c, e), agent, id)
  {
    if agent !in s.db.agents {
      NotRevived(s, c, e, agent);
    } else if e != Delete(agent) {
      IdentityStep(s, c, e, agent);
    }
    var b, d := EventOutcome(s, c, e);
    SettledOutcome(s, e, After(s, c, e), b, d, agent);
  }

  /** From `s` on, the agent got no new deployment, or exactly one and is settled since. */
  ghost predicate AtMostOne(s: Server, s': Server, agent: AgentId) {
    && (forall i, j :: IsNew(s, s', agent, i) && IsNew(s, s', agent, j) ==> i == j)
    && (forall i :: IsNew(s, s', agent, i) ==> Settled(s', agent))
  }

  lemma AtMostOneStep(s: Server, s1: Server, c: Config, e: Event, agent: AgentId)
    requires Inv(s1) && AtMostOne(s, s1, agent) && agent < s1.clock && RowsKept(s, s1)
    requires !Reassigns(e, agent)
    ensures AtMostOne(s, After(s1, c, e), agent)
  {
    var s2 := After(s1, c, e);
    RowsStep(s1, c, e);
    if Settled(s1, agent) {
      SettledStep(s1, c, e, agent);
      forall i | IsNew(s, s2, agent, i) ensures IsNew(s, s1, agent, i) {
        assert !IsNew(s1, s2, agent, i);
      }
    } else {
      forall i | IsNew(s, s2, agent, i) ensures i == s1.clock && Settled(s2, agent) {
        assert !IsNew(s, s1, agent, i);
        NewIsSettled(s1, c, e, agent, i);
      }
    }
  }

  /** After an assignment, whatever registrations, connects, disconnects, messages and other
      events follow (short of reassigning the agent): at most one new deployment. */
  lemma {:induction false} AssignmentDeploysOnce(s: Server, c: Config, playbook: PlaybookId, agent: AgentId,
      es: seq<Event>)
    requires Inv(s) && agent in s.db.agents
    requires forall i :: 0 <= i < |es| ==> !Reassigns(es[i], agent)
    ensures var s' := AfterAll(After(s, c, Assign(playbook, agent)), c, es);
      && RowsKept(s, s') && s.clock <= s'.clock
      && AtMostOne(s, s', agent)
  {
    var e := Assign(playbook, agent);
    var s1 := After(s, c, e);
    StepKeeps(s, c, e);
    if es == [] {
      RowsStep(s, c, e);
      forall i | IsNew(s, s1, agent, i) ensures i == s.clock && Settled(s1, agent) {
        NewIsSettled(s, c, e, agent, i);
      }
      TokensStep(s, c, e);
    } else {
      var front, last := es[..|es| - 1], es[|es| - 1];
      AssignmentDeploysOnce(s, c, playbook, agent, front);
      AllKeep(s1, c, front);
      var s2 := AfterAll(s1, c, front);
      AtMostOneStep(s, s2, c, last, agent);
      RowsStep(s2, c, last);
      TokensStep(s2, c, last);
    }
  }

  /** Every push, in every history: of the latest deployment of its agent, of the playbook the
      agent is assigned, from the deployment's resume index; and it is marked running. */
  lemma PushTargetsLatest(s: Server, c: Config, es: seq<Event>, e: Event)
    requires Init(s)
    ensures var s1 := AfterAll(s, c, es);
      var s2 := After(s1, c, e);
      || s2.pushes == s1.pushes
      || exists agent, push ::
           && s2.pushes == s1.pushes + [(agent, push)]
           && agent in s2.db.agents && push.dep in s2.db.deployments
           && Latest(s2.db.deployments, agent) == Some(s2.db.deployments[push.dep])
           && s2.db.deployments[push.dep].playbook == s2.db.agents[agent].playbook
           && s2.db.deployments[push.dep].resume == push.resume
           && s2.db.deployments[push.dep].status.Running?
  {
    AllKeep(s, c, es);
    var s1 := AfterAll(s, c, es);
    var s2 := After(s1, c, e);
    var agent, d := EventOutcome(s1, c, e);
    if d.Some? {
      StepKeeps(s1, c, e);
      LatestRow(s2, agent);
      LatestIs(s2.db.deployments, agent, d.value.id);
      var push := Push(d.value.id, d.value.resume);
      assert s2.pushes == s1.pushes + [(agent, push)];
    }
  }

  /** A push never reopens a finished deployment: it resumes an active one at its resume index,
      or it starts one that did not exist from its first step. */
  lemma PushResumesOrStarts(s: Server, c: Config, e: Event, agent: AgentId, push: Push)
    requires Inv(s) && After(s, c, e).pushes == s.pushes + [(agent, push)]
    ensures
      || (push.dep in s.db.deployments && Active(s.db.deployments[push.dep]) &&
          push.resume == s.db.deployments[push.dep].resume)
      || (push.dep !in s.db.deployments && push.resume == 0)
  {
    var b, d := EventOutcome(s, c, e);
    assert After(s, c, e).pushes[|s.pushes|] == (agent, push);
  }
}
