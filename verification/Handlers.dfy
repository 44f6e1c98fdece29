/** The handler object (internal/server/handlers and internal/server/service): every handler
    reads and writes the tables call by call, and does what its function in `Servers` says. */
module Handlers {
  import opened Options
  import Playbooks
  import opened Runner
  import opened Deployments
  import opened Tables
  import opened Servers
  import opened Lifecycle

  datatype RegisterResult = Refused(error: RegisterError) | TokenFailed | Registered(agent: AgentId, token: nat)

  datatype AssignError = AgentNotFound | PlaybookNotFound

  class Handler {
    const config: Config
    const store: Store
    var connected: set<AgentId>
    var clock: nat
    var pushes: seq<(AgentId, Push)>

    ghost function View(): Server
      reads this, store
    {
      Server(store.View(), connected, clock, pushes)
    }

    /** What every handler finds and leaves behind. */
    ghost predicate Valid()
      reads this, store
    {
      Inv(View())
    }

    constructor (config: Config, playbooks: map<PlaybookId, Playbooks.Playbook>)
      ensures this.config == config && fresh(store)
      ensures Init(View()) && View().db.playbooks == playbooks && Valid()
    {
      this.config := config;
      store := new Store(playbooks);
      connected, clock, pushes := {}, 0, [];
    }

    // ── Tokens ─────────────────────────────────────────────────────────────

    /** Grants exactly a known, unrevoked and unexpired token, to the agent it was issued to. */
    method AgentIdFromToken(raw: Option<nat>) returns (auth: Auth)
      ensures auth.Granted? <==>
        && raw.Some? && Digest(raw.value) in store.tokens
        && var tok := store.tokens[Digest(raw.value)];
           tok.revokedAt.None? && (tok.expiresAt.Some? ==> clock <= tok.expiresAt.value)
      ensures auth.Granted? ==> auth.agent == store.tokens[Digest(raw.value)].agent
      ensures auth == Denied(Missing) <==> raw.None?
      ensures auth == Denied(Unknown) <==> raw.Some? && Digest(raw.value) !in store.tokens
      ensures auth == Denied(Revoked) <==>
        raw.Some? && Digest(raw.value) in store.tokens && store.tokens[Digest(raw.value)].revokedAt.Some?
      ensures auth == Authenticate(View().db, clock, raw)
    {
      if raw.None? {
        return Denied(Missing);
      }
      var found := store.GetAgentTokenByHash(Digest(raw.value));
      if found.None? {
        return Denied(Unknown);
      }
      var tok := found.value;
      if tok.revokedAt.Some? {
        return Denied(Revoked);
      }
      if tok.expiresAt.Some? && clock > tok.expiresAt.value {
        return Denied(Expired);
      }
      return Granted(tok.agent);
    }

    method IssueAgentToken(agent: AgentId) returns (raw: Option<nat>)
      modifies store
      ensures View() == old(View()).(db := AfterIssue(old(View()).db, config, agent, clock))
      ensures raw == if CanCreateToken(old(View()).db, Digest(clock), NewToken(config, agent, clock))
          then Some(clock) else None
      ensures raw.Some? ==>
        && Digest(clock) in store.tokens && store.tokens[Digest(clock)].agent == agent
        && store.tokens[Digest(clock)].revokedAt.None?
        && store.tokens[Digest(clock)].expiresAt == Some(
             if config.tokenExpiryHours == 0 then clock + 2_592_000_000_000_000
             else clock + config.tokenExpiryHours * 3_600_000_000_000)
    {
      var hours := if config.tokenExpiryHours == 0 then 720 else config.tokenExpiryHours;
      var tok := Token(clock, agent, Some(clock + hours * HOUR), None);
      var ok := store.CreateAgentToken(Digest(clock), tok);
      raw := if ok then Some(clock) else None;
    }

    method RequireAgentAuth(raw: Option<nat>) returns (auth: Auth)
      modifies store
      ensures auth == Authenticate(old(View()).db, clock, raw)
      ensures View() == if auth.Granted? then old(View()).(db := Seen(old(View()).db, auth.agent, clock))
          else old(View())
    {
      auth := AgentIdFromToken(raw);
      if auth.Granted? {
        var found := store.GetAgent(auth.agent);
        if found.Some? {
          var a := found.value.(lastActivityAt := clock);
          if a.status.AgentOffline? {
            a := a.(status := AgentConnected);
          }
          store.SaveAgent(a);
        }
      }
    }

    method HandleTokenRefresh(raw: Option<nat>) returns (token: Option<nat>)
      requires Valid()
      modifies this, store
      ensures Valid() && View() == AfterRefresh(old(View()), config, raw)
      ensures token == if Authenticate(old(View()).db, old(clock), raw).Granted? then Some(old(clock)) else None
      ensures token.Some? && clock <= Expiry(config, old(clock)) ==>
        Authenticate(View().db, clock, token) == Authenticate(old(View()).db, old(clock), raw)
    {
      ghost var s := View();
      RefreshAnswers(s, config, raw);
      RefreshKeeps(s, config, raw);
      var auth := RequireAgentAuth(raw);
      token := None;
      if auth.Granted? {
        token := Rotate(auth.agent, raw.value);
      }
      clock := clock + 1;
    }

    /** Issue, then revoke the old token once the new one is stored. */
    method Rotate(agent: AgentId, raw: nat) returns (token: Option<nat>)
      requires forall h :: h in store.tokens ==> h.raw < clock
      modifies store
      ensures token == if CanCreateToken(old(View()).db, Digest(clock), NewToken(config, agent, clock))
          then Some(clock) else None
      ensures View() == old(View()).(db := RefreshRevokes(AfterIssue(old(View()).db, config, agent, clock), raw, clock))
    {
      token := IssueAgentToken(agent);
      if token.Some? {
        var tok := store.GetAgentTokenByHash(Digest(raw));
        if tok.Some? {
          store.RevokeAgentToken(tok.value.id, clock);
        }
      }
    }

    // ── Registration ───────────────────────────────────────────────────────

    /** The agent registered for a machine, found by going through all of them. */
    method FindAgent(machine: string) returns (agent: Option<Agent>)
      requires Valid()
      ensures agent.Some? == Find(View().db, machine).Some?
      ensures agent.Some? ==> agent == Some(View().db.agents[Find(View().db, machine).value])
    {
      ghost var db := View().db;
      FindSpec(db, machine);
      agent := None;
      if machine != "" {
        var todo := store.agents.Keys;
        while todo != {}
          invariant todo <= store.agents.Keys
          invariant forall id :: id in store.agents && id !in todo ==> !IsMachine(db, machine, id)
          decreases todo
        {
          var id :| id in todo;
          var a := store.agents[id];
          if MachineOf(a.metadata) == machine {
            assert IsMachine(db, machine, id);
            return Some(a);
          }
          todo := todo - {id};
        }
      }
    }

    method HandleAgentRegister(req: Registration) returns (r: RegisterResult)
      requires Valid()
      modifies this, store
      ensures Valid() && View() == AfterRegister(old(View()), config, req)
      ensures r.Registered? <==>
        req.hostname != "" && req.platform in {"linux", "mac", "windows"} && req.secret != "" &&
            req.secret in config.secrets
      ensures r == Refused(HostnameRequired) <==> req.hostname == ""
      ensures r == Refused(BadPlatform) <==> req.hostname != "" && req.platform !in {"linux", "mac", "windows"}
      ensures r == Refused(BadSecret) <==>
        && req.hostname != "" && req.platform in {"linux", "mac", "windows"}
        && (req.secret == "" || req.secret !in config.secrets)
      ensures r.Registered? ==> r == Registered(RegisteredId(old(View()), req), old(clock))
    {
      ghost var s := View();
      RegisterKeeps(s, config, req);
      if req.hostname == "" {
        r := Refused(HostnameRequired);
      } else if req.platform != "linux" && req.platform != "mac" && req.platform != "windows" {
        r := Refused(BadPlatform);
      } else if req.secret == "" || req.secret !in config.secrets {
        r := Refused(BadSecret);
      } else {
        r := AcceptRegistration(req);
      }
      clock := clock + 1;
    }

    method AcceptRegistration(req: Registration) returns (r: RegisterResult)
      requires Valid() && Refusal(config, req).None?
      modifies store
      ensures Tick(View()) == AfterRegister(old(View()), config, req)
      ensures r == Registered(RegisteredId(old(View()), req), old(clock))
    {
      ghost var s := View();
      var machine := MachineOf(req.metadata);
      FindSpec(s.db, machine);
      var found := FindAgent(machine);
      var base := if found.Some? then found.value else Blank(clock, clock);
      store.SaveAgent(Record(base, req, clock));
      if found.Some? {
        store.RevokeAllAgentTokens(base.id, clock);
      }
      var raw := IssueAgentToken(base.id);
      r := if raw.Some? then Registered(base.id, raw.value) else TokenFailed;
    }

    // ── Pushing a playbook ─────────────────────────────────────────────────

    method PushPlaybookIfAssigned(id: AgentId, force: bool)
      requires Valid()
      modifies this`pushes, store
      ensures View() == AfterPush(old(View()), id, force)
      ensures Inv(Tick(View()))
    {
      ghost var s := View();
      PushKeeps(s, id, force);
      LatestRow(s, id);
      var agent := store.GetAgent(id);
      if agent.None? || agent.value.playbook == "" {
        return;
      }
      var wanted := agent.value.playbook;
      var dep := store.GetActiveDeploymentForAgent(id);
      if wanted !in store.playbooks {
        return;
      }
      var push;
      var same := dep.Some? && dep.value.playbook == wanted;
      if same && (dep.value.status.Pending? || dep.value.status.Running? || dep.value.status.Rebooting?) {
        push := Push(dep.value.id, dep.value.resume);
        store.SaveDeployment(dep.value.(status := Running));
      } else if !same || force {
        push := Push(clock, 0);
        store.SaveDeployment(Deployment(clock, id, wanted, Running, 0, clock, None, ""));
      } else {
        return;
      }
      store.SaveAgent(agent.value.(status := AgentDeploying));
      pushes := pushes + [(id, push)];
    }

    method AssignPlaybookToAgent(playbook: PlaybookId, id: AgentId) returns (error: Option<AssignError>)
      requires Valid()
      modifies this, store
      ensures Valid() && View() == AfterAssign(old(View()), playbook, id)
      ensures error == if id !in old(View()).db.agents then Some(AgentNotFound)
                       else if playbook !in old(View()).db.playbooks then Some(PlaybookNotFound) else None
    {
      ghost var s := View();
      AssignKeeps(s, playbook, id);
      PlaybookKeeps(s, id, playbook);
      var agent := store.GetAgent(id);
      if agent.None? {
        error := Some(AgentNotFound);
      } else if playbook !in store.playbooks {
        error := Some(PlaybookNotFound);
      } else {
        error := None;
        store.SaveAgent(agent.value.(playbook := playbook));
        if id in connected {
          PushPlaybookIfAssigned(id, true);
        }
      }
      clock := clock + 1;
    }

    // ── Connections and messages ───────────────────────────────────────────

    /** The part of HandleAgentWS before its read loop. */
    method Connect(raw: Option<nat>) returns (accepted: bool)
      requires Valid()
      modifies this, store
      ensures Valid() && View() == AfterConnect(old(View()), raw)
      ensures accepted == Authenticate(old(View()).db, old(clock), raw).Granted?
    {
      ConnectKeeps(View(), raw);
      accepted := false;
      var auth := AgentIdFromToken(raw);
      if auth.Granted? {
        accepted := OpenConnection(auth.agent);
      }
      clock := clock + 1;
    }

    method OpenConnection(id: AgentId) returns (accepted: bool)
      requires Valid()
      modifies this`connected, this`pushes, store
      ensures accepted == (id in old(store.agents))
      ensures View() == if accepted then Opened(old(View()), id) else old(View())
    {
      ghost var s := View();
      var agent := store.GetAgent(id);
      accepted := agent.Some?;
      if accepted {
        var a := agent.value.(status := AgentConnected, lastActivityAt := clock);
        SaveAgentKeeps(s, a);
        LogKeeps(s.(db := AfterSaveAgent(s.db, a)), pushes, connected + {id});
        connected := connected + {id};
        store.SaveAgent(a);
        PushPlaybookIfAssigned(id, false);
      }
    }

    /** The deferred part of HandleAgentWS. */
    method Disconnect(id: AgentId)
      requires Valid()
      modifies this, store
      ensures Valid() && View() == AfterDisconnect(old(View()), id)
    {
      ghost var s := View();
      DisconnectKeeps(s, id);
      connected := connected - {id};
      var agent := store.GetAgent(id);
      if agent.Some? {
        var a := agent.value;
        if a.status.AgentConnected? {
          a := a.(status := AgentOffline);
        }
        store.SaveAgent(a);
        SavedTwice(s.db, agent.value, a);
      }
      clock := clock + 1;
      assert View() == AfterDisconnect(s, id);
    }

    method UpdateDeploy(id: DeploymentId, fn: Deployment -> Deployment)
      modifies store
      ensures store.View() == var db := old(store.View());
        if id in db.deployments then AfterSaveDeployment(db, fn(db.deployments[id])) else db
    {
      var dep := store.GetDeployment(id);
      if dep.Some? {
        store.SaveDeployment(fn(dep.value));
      }
    }

    method UpdateStatus(id: AgentId, status: AgentStatus)
      modifies store
      ensures store.View() == SetStatus(old(store.View()), id, status)
    {
      var agent := store.GetAgent(id);
      if agent.Some? {
        store.SaveAgent(agent.value.(status := status));
      }
    }

    /** The deployment messages of handleWSMessage. */
    method HandleWSMessage(id: AgentId, m: Message)
      requires Valid()
      modifies this, store
      ensures Valid() && View() == AfterMessage(old(View()), id, m)
    {
      MessageKeeps(View(), id, m);
      DispatchMessage(id, m);
      clock := clock + 1;
    }

    method DispatchMessage(id: AgentId, m: Message)
      requires Valid()
      modifies store
      ensures Tick(View()) == AfterMessage(old(View()), id, m)
    {
      var now := clock;
      match m
      case StepStart(dep, i) => UpdateDeploy(dep, (d: Deployment) => d.(status := Running, resume := i));
      case StepComplete(dep, i) => UpdateDeploy(dep, (d: Deployment) => d.(resume := i + 1));
      case StepFailed(dep, _, error) => UpdateDeploy(dep, (d: Deployment) => d.(status := Failed, error := error));
      case Reboot(dep, at) => UpdateDeploy(dep, (d: Deployment) => d.(status := Rebooting, resume := at));
      case DeployDone(dep) =>
        UpdateDeploy(dep, (d: Deployment) => d.(status := Completed, finishedAt := Some(now)));
        UpdateStatus(id, AgentCompleted);
      case DeployFailed(dep, _, error) =>
        UpdateDeploy(dep, (d: Deployment) => d.(status := Failed, error := error, finishedAt := Some(now)));
        UpdateStatus(id, AgentFailed);
    }

    // ── Administration ─────────────────────────────────────────────────────

    method UpdateAgent(id: AgentId, playbook: PlaybookId, status: Option<AgentStatus>)
      requires Valid()
      modifies this, store
      ensures Valid() && View() == AfterPatch(old(View()), id, playbook, status)
    {
      ghost var s := View();
      PatchKeeps(s, id, playbook, status);
      var agent := store.GetAgent(id);
      if agent.Some? {
        var a := agent.value;
        if playbook != "" {
          a := a.(playbook := playbook);
        }
        if status.Some? {
          a := a.(status := status.value);
        }
        store.SaveAgent(a);
        SavedTwice(s.db, agent.value.(playbook := a.playbook), a);
        SavedTwice(s.db, agent.value, agent.value.(playbook := a.playbook));
      }
      clock := clock + 1;
      assert View() == AfterPatch(s, id, playbook, status);
    }

    method DeleteAgent(id: AgentId)
      requires Valid()
      modifies this, store
      ensures Valid() && View() == Tick(old(View()).(db := AfterDeleteAgent(old(View()).db, id)))
    {
      DeleteKeeps(View(), id);
      store.DeleteAgent(id);
      clock := clock + 1;
    }
  }
}
