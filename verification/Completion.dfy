/** A deployment can always be brought to its end: from every state of a history that loses
    nothing, the agent's own steps and, after each reboot, one registration and one connect lead
    to a finished deployment, however the remaining steps turn out. */
module Completion {
  import opened Options
  import opened Playbooks
  import opened Runner
  import opened Deployments
  import opened Tables
  import opened Servers
  import opened Lifecycle
  import opened Pushes
  import opened SingleRun
  import opened Transparency

  /** The machine may register, and its tokens do not expire at once. */
  predicate Welcome(c: Config, req: Registration) {
    Refusal(c, req).None? && c.tokenExpiryHours >= 0
  }

  function Last(s: State): Attempt
    requires s.attempts != []
  {
    s.attempts[|s.attempts| - 1]
  }

  /** The agent is still the one of the machine `req` describes, and assigned `playbook`. */
  ghost predicate Assigned(s: Server, w: World, req: Registration, playbook: PlaybookId) {
    && IsMachine(s.db, MachineOf(req.metadata), w.me)
    && s.db.agents[w.me].playbook == playbook != ""
  }

  /** Such a state, with a last run of a deployment of the playbook the agent is assigned. */
  ghost predicate Able(w: World, s: State, req: Registration) {
    && TInv(w, s) && Welcome(w.config, req) && s.attempts != []
    && RowOf(s.server.db.deployments, Last(s).run.dep, w.me)
    && Assigned(s.server, w, req, s.server.db.deployments[Last(s).run.dep].playbook)
  }

  ghost predicate IsFinished(s: State)
    requires s.attempts != []
  {
    Last(s).run.dep in s.server.db.deployments && !Active(s.server.db.deployments[Last(s).run.dep])
  }

  // ── One step of the run ──────────────────────────────────────────────────

  /** How many more steps the run can take, and its messages, at most. */
  function Work(a: Attempt): int {
    var todo := |a.run.flat| - a.run.at;
    (match a.run.phase
     case Ready => 5 * todo + 2
     case Executing => 5 * todo
     case Finished(_) => 5 * todo - 1
     case Over => 0) + |a.emitted| - a.delivered
  }

  /** What the run does next, with the outcome its step will have. */
  function Move(a: Attempt, outcome: nat -> Outcome): Action {
    if a.delivered < |a.emitted| then Arrive
    else if a.run.phase.Executing? then Execute(outcome(a.run.at))
    else Send
  }

  lemma LastIs(w: World, s: State)
    requires SInv(w, s) && s.attempts != []
    ensures SoundAttempt(Last(s)) && AttemptOf(s.server.db.deployments, s.server.db.playbooks, w.me, Last(s))
    ensures Tracks(s.server.db.deployments[Last(s).run.dep], Last(s))
    ensures IsLatest(s.server.db.deployments, w.me, Last(s).run.dep)
  {
  }

  /** The attempt after that move. */
  function Moved(a: Attempt, outcome: nat -> Outcome): Attempt
    requires ValidRun(a.run)
  {
    if a.delivered < |a.emitted| then a.(delivered := a.delivered + 1)
    else if a.run.phase.Executing? then a.(run := a.run.(phase := Finished(outcome(a.run.at))))
    else a.(run := AfterSend(a.run), emitted := a.emitted + Runner.Pending(a.run))
  }

  lemma MovedIsLess(a: Attempt, outcome: nat -> Outcome)
    requires SoundAttempt(a) && !(a.run.phase.Over? && a.delivered == |a.emitted|)
    ensures 0 <= Work(Moved(a, outcome)) < Work(a)
    ensures Move(a, outcome).Send? ==> |Runner.Pending(a.run)| == 1
  {
  }

  lemma CanMove(w: World, s: State, outcome: nat -> Outcome) returns (s': State)
    requires TInv(w, s) && s.attempts != [] && !Idle(s)
    ensures Next(w, s, Move(Last(s), outcome), s') && Keeps(s, Move(Last(s), outcome))
    ensures ValidRun(Last(s).run) && s'.attempts == s.attempts[|s.attempts| - 1 := Moved(Last(s), outcome)]
    ensures 0 <= Work(Moved(Last(s), outcome)) < Work(Last(s))
  {
    LastIs(w, s);
    var a := Last(s);
    assert a.up;
    MovedIsLess(a, outcome);
    s' := SetLast(s, Moved(a, outcome));
    var move := Move(a, outcome);
    match move
    case Arrive => s' := s'.(server := AfterMessage(s.server, w.me, a.emitted[a.delivered]));
    case Execute(o) => s' := s'.(log := s.log + [Execution(a.run.dep, a.run.at, o)]);
    case Send =>
  }

  /** Of the same deployment, and closer to its end. */
  ghost predicate Closer(s: State, s': State)
    requires s.attempts != [] && s'.attempts != []
  {
    && Last(s').run.dep == Last(s).run.dep && Last(s').run.flat == Last(s).run.flat
    && Last(s').from <= |Last(s).run.flat|
    && (Last(s').from > Last(s).from || (Last(s').from == Last(s).from && 0 <= Work(Last(s')) < Work(Last(s))))
  }

  /** A message leaves the agent's record and the deployment's playbook alone. */
  lemma MessageAssigned(s: Server, w: World, req: Registration, m: Message, playbook: PlaybookId, dep: DeploymentId)
    requires Inv(s) && Assigned(s, w, req, playbook)
    requires RowOf(s.db.deployments, dep, w.me) && s.db.deployments[dep].playbook == playbook
    ensures var s' := AfterMessage(s, w.me, m);
      && Assigned(s', w, req, playbook)
      && RowOf(s'.db.deployments, dep, w.me) && s'.db.deployments[dep].playbook == playbook
  {
    MessageIdentity(s, w.me, m, w.me);
    RowsStep(s, w.config, Deliver(w.me, m));
  }

  lemma ArriveAssigned(w: World, s: State, s': State, req: Registration)
    requires Able(w, s, req) && Next(w, s, Arrive, s')
    ensures RowOf(s'.server.db.deployments, Last(s).run.dep, w.me)
    ensures Assigned(s'.server, w, req, s'.server.db.deployments[Last(s).run.dep].playbook)
  {
    var dep := Last(s).run.dep;
    MessageAssigned(s.server, w, req, Last(s).emitted[Last(s).delivered], s.server.db.deployments[dep].playbook, dep);
  }

  lemma MoveAble(w: World, s: State, action: Action, s': State, req: Registration)
    requires Able(w, s, req) && Next(w, s, action, s') && Keeps(s, action) && !action.Happens?
    requires s'.attempts != [] && Last(s').run.dep == Last(s).run.dep
    ensures Able(w, s', req)
  {
    StepKeepsFaith(w, s, action, s');
    if action.Arrive? {
      ArriveAssigned(w, s, s', req);
    }
  }

  lemma MoveStaysAble(w: World, s: State, req: Registration, outcome: nat -> Outcome) returns (s': State)
    requires Able(w, s, req) && !Idle(s)
    ensures Next(w, s, Move(Last(s), outcome), s') && Keeps(s, Move(Last(s), outcome)) && Able(w, s', req)
    ensures Closer(s, s')
  {
    s' := CanMove(w, s, outcome);
    LastFrom(w, s);
    MoveAble(w, s, Move(Last(s), outcome), s', req);
  }

  lemma LastFrom(w: World, s: State)
    requires SInv(w, s) && s.attempts != []
    ensures 0 <= Last(s).from <= |Last(s).run.flat| && 0 <= Work(Last(s))
  {
    LastIs(w, s);
  }

  // ── Coming back after a reboot ───────────────────────────────────────────

  lemma ExpiryLater(c: Config, now: nat)
    requires c.tokenExpiryHours >= 0
    ensures now + 1 <= Expiry(c, now)
  {
  }

  /** The agent comes back as itself, with its deployments as they were. */
  lemma Registers(s: Server, w: World, req: Registration, playbook: PlaybookId) returns (r: Server)
    requires Inv(s) && Assigned(s, w, req, playbook) && Welcome(w.config, req)
    ensures r == AfterRegister(s, w.config, req)
    ensures Inv(r) && r.pushes == s.pushes && r.db.deployments == s.db.deployments && r.db.playbooks == s.db.playbooks
    ensures Authenticate(r.db, r.clock, Some(s.clock)) == Granted(w.me) && Assigned(r, w, req, playbook)
  {
    r := AfterRegister(s, w.config, req);
    ExpiryLater(w.config, s.clock);
    assert After(r, w.config, Wait(0)) == r;
    RegisteredToken(s, w.config, req, 0);
    KnownMachine(s, req, w.me);
    RegisterIdentity(s, w.config, req, w.me);
  }

  /** Registering changes nothing for the runs. */
  lemma RegisterStep(w: World, s: State, req: Registration) returns (s': State)
    requires Able(w, s, req) && Idle(s)
    ensures Next(w, s, Happens(Register(req)), s') && Able(w, s', req) && Idle(s') && s'.attempts == s.attempts
    ensures s'.server.db.deployments == s.server.db.deployments && s'.server.db.playbooks == s.server.db.playbooks
    ensures Authenticate(s'.server.db, s'.server.clock, Some(s.server.clock)) == Granted(w.me)
  {
    var r := Registers(s.server, w, req, s.server.db.deployments[Last(s).run.dep].playbook);
    s' := s.(server := r);
    StepKeepsFaith(w, s, Happens(Register(req)), s');
  }

  /** A connect resumes the deployment, at the server ... */
  lemma ConnectServer(s: Server, w: World, req: Registration, raw: nat, d: Deployment) returns (s': Server)
    requires Inv(s) && Assigned(s, w, req, d.playbook) && d.playbook in s.db.playbooks && Active(d)
    requires Authenticate(s.db, s.clock, Some(raw)) == Granted(w.me)
    requires IsLatest(s.db.deployments, w.me, d.id) && s.db.deployments[d.id] == d
    ensures s' == AfterConnect(s, Some(raw))
    ensures s'.pushes == s.pushes + [(w.me, Push(d.id, d.resume))]
    ensures s'.db.deployments == s.db.deployments[d.id := Resumed(d)] && s'.db.playbooks == s.db.playbooks
    ensures Assigned(s', w, req, d.playbook)
  {
    s' := AfterConnect(s, Some(raw));
    LatestRow(s, w.me);
    LatestIs(s.db.deployments, w.me, d.id);
    ConnectResumes(s, raw, w.me, d);
    ConnectIdentity(s, Some(raw), w.me);
    PlaybooksFixed(s, w.config, Connect(Some(raw)));
  }

  /** ... and starts a run of it. */
  lemma ConnectAttempt(w: World, s: State, server: Server, raw: nat, d: Deployment) returns (s': State)
    requires Idle(s) && server == AfterConnect(s.server, Some(raw))
    requires server.pushes == s.server.pushes + [(w.me, Push(d.id, d.resume))]
    requires server.db.deployments == s.server.db.deployments[d.id := Resumed(d)] && d.playbook in server.db.playbooks
    ensures Next(w, s, Happens(Connect(Some(raw))), s')
    ensures s'.server == server
    ensures s'.attempts == s.attempts + [Accepted(server.db.deployments, server.db.playbooks, Push(d.id, d.resume))]
  {
    s' := State(server, s.attempts + [Accepted(server.db.deployments, server.db.playbooks, Push(d.id, d.resume))],
        s.log);
  }

  /** An unfinished deployment of an idle agent. */
  lemma Unfinished(w: World, s: State, req: Registration) returns (d: Deployment)
    requires Able(w, s, req) && Idle(s) && !IsFinished(s)
    ensures d.id == Last(s).run.dep && d.id in s.server.db.deployments && s.server.db.deployments[d.id] == d &&
        Active(d)
    ensures Assigned(s.server, w, req, d.playbook) && d.playbook in s.server.db.playbooks
    ensures Last(s).run.flat == Flatten(s.server.db.playbooks[d.playbook])
    ensures IsLatest(s.server.db.deployments, w.me, d.id) && Last(s).from < d.resume <= |Last(s).run.flat|
  {
    LastIs(w, s);
    d := s.server.db.deployments[Last(s).run.dep];
    assert RowOk(s.server.db.deployments, s.server.db.playbooks, d.id);
    EndedByReboot(Last(s), LogOf(s.log, d.id), d);
  }

  /** Connecting starts a run from where the deployment stands. */
  lemma ConnectStep(w: World, s: State, req: Registration, raw: nat) returns (s': State)
    requires Able(w, s, req) && Idle(s) && !IsFinished(s)
    requires Authenticate(s.server.db, s.server.clock, Some(raw)) == Granted(w.me)
    ensures Next(w, s, Happens(Connect(Some(raw))), s') && Able(w, s', req)
    ensures Last(s').run.dep == Last(s).run.dep && Last(s').run.flat == Last(s).run.flat
    ensures Last(s').from > Last(s).from && Last(s').from <= |Last(s').run.flat|
  {
    var d := Unfinished(w, s, req);
    var server := ConnectServer(s.server, w, req, raw, d);
    s' := ConnectAttempt(w, s, server, raw, d);
    StepKeepsFaith(w, s, Happens(Connect(Some(raw))), s');
  }

  // ── To the end ───────────────────────────────────────────────────────────

  /** The step loses nothing, and an execution has the outcome that was laid down for its step. */
  ghost predicate Follows(w: World, s: State, action: Action, s': State, outcome: nat -> Outcome) {
    && Next(w, s, action, s') && Keeps(s, action)
    && (action.Execute? ==> s.attempts != [] && action.o == outcome(Last(s).run.at))
  }

  ghost predicate Chain<S, A>(step: (S, A, S) -> bool, states: seq<S>, actions: seq<A>) {
    |states| == |actions| + 1 && forall i :: 0 <= i < |actions| ==> step(states[i], actions[i], states[i + 1])
  }

  lemma ChainAppend<S, A>(step: (S, A, S) -> bool, ss: seq<S>, aa: seq<A>, ss': seq<S>, aa': seq<A>)
    requires Chain(step, ss, aa) && Chain(step, ss', aa') && ss[|aa|] == ss'[0]
    ensures Chain(step, ss[..|aa|] + ss', aa + aa')
  {
    var states, actions := ss[..|aa|] + ss', aa + aa';
    forall i | 0 <= i < |actions| ensures step(states[i], actions[i], states[i + 1]) {
      if i < |aa| {
        assert states[i] == ss[i] && actions[i] == aa[i] && states[i + 1] == ss[i + 1];
      } else {
        var j := i - |aa|;
        assert states[i] == ss'[j] && actions[i] == aa'[j] && states[i + 1] == ss'[j + 1];
      }
    }
  }

  ghost function Steps(w: World, outcome: nat -> Outcome): (State, Action, State) -> bool {
    (s, action, s') => Follows(w, s, action, s', outcome)
  }

  /** A history of such steps from `s` on. */
  ghost predicate From(w: World, s: State, states: seq<State>, actions: seq<Action>, outcome: nat -> Outcome) {
    |states| > 0 && states[0] == s && Chain(Steps(w, outcome), states, actions)
  }

  lemma FromOne(w: World, s: State, action: Action, s': State, outcome: nat -> Outcome)
    requires Follows(w, s, action, s', outcome)
    ensures From(w, s, [s, s'], [action], outcome)
  {
  }

  lemma FromTwo(w: World, s: State, a: Action, s1: State, b: Action, s2: State, outcome: nat -> Outcome)
    requires Follows(w, s, a, s1, outcome) && Follows(w, s1, b, s2, outcome)
    ensures From(w, s, [s, s1, s2], [a, b], outcome)
  {
  }

  lemma AdvanceRun(w: World, s: State, req: Registration, outcome: nat -> Outcome)
    returns (s': State, states: seq<State>, actions: seq<Action>)
    requires Able(w, s, req) && !Idle(s)
    ensures From(w, s, states, actions, outcome) && states[|actions|] == s' && Able(w, s', req) && Closer(s, s')
  {
    s' := MoveStaysAble(w, s, req, outcome);
    var move := Move(Last(s), outcome);
    FromOne(w, s, move, s', outcome);
    states, actions := [s, s'], [move];
  }

  /** Registration and connect after a reboot. */
  lemma ComesBack(w: World, s: State, req: Registration) returns (s1: State, s': State)
    requires Able(w, s, req) && Idle(s) && !IsFinished(s)
    ensures Next(w, s, Happens(Register(req)), s1) && Next(w, s1, Happens(Connect(Some(s.server.clock))), s')
    ensures Able(w, s', req) && Closer(s, s')
  {
    s1 := RegisterStep(w, s, req);
    s' := ConnectStep(w, s1, req, s.server.clock);
  }

  lemma AdvanceBack(w: World, s: State, req: Registration, outcome: nat -> Outcome)
    returns (s': State, states: seq<State>, actions: seq<Action>)
    requires Able(w, s, req) && Idle(s) && !IsFinished(s)
    ensures From(w, s, states, actions, outcome) && states[|actions|] == s' && Able(w, s', req) && Closer(s, s')
  {
    var s1;
    s1, s' := ComesBack(w, s, req);
    var register, connect := Happens(Register(req)), Happens(Connect(Some(s.server.clock)));
    FromTwo(w, s, register, s1, connect, s', outcome);
    states, actions := [s, s1, s'], [register, connect];
  }

  /** Every unfinished state of `able` leads to another, closer to the end. */
  ghost predicate Advancing(w: World, able: State -> bool, outcome: nat -> Outcome) {
    forall s :: able(s) ==> Advances(w, able, s, outcome)
  }

  ghost predicate Advances(w: World, able: State -> bool, s: State, outcome: nat -> Outcome) {
    && s.attempts != [] && Last(s).from <= |Last(s).run.flat| && 0 <= Work(Last(s))
    && (IsFinished(s)
        || exists s', states, actions :: Leads(w, s, s', states, actions, outcome) && able(s') && Closer(s, s'))
  }

  ghost predicate Leads(w: World, s: State, s': State, states: seq<State>, actions: seq<Action>,
      outcome: nat -> Outcome) {
    From(w, s, states, actions, outcome) && states[|actions|] == s' && s.attempts != [] && s'.attempts != []
  }

  lemma {:induction false} FinishFrom(w: World, able: State -> bool, s: State, outcome: nat -> Outcome)
    returns (states: seq<State>, actions: seq<Action>)
    requires Advancing(w, able, outcome) && able(s) && s.attempts != []
    ensures From(w, s, states, actions, outcome)
    ensures var end := states[|actions|];
      end.attempts != [] && Last(end).run.dep == Last(s).run.dep && IsFinished(end)
    decreases |Last(s).run.flat| - Last(s).from, Work(Last(s))
  {
    assert Advances(w, able, s, outcome);
    if IsFinished(s) {
      states, actions := [s], [];
    } else {
      var s', states1, actions1 :| Leads(w, s, s', states1, actions1, outcome) && able(s') && Closer(s, s');
      assert Advances(w, able, s', outcome);
      var states2, actions2 := FinishFrom(w, able, s', outcome);
      ChainAppend(Steps(w, outcome), states1, actions1, states2, actions2);
      states, actions := states1[..|actions1|] + states2, actions1 + actions2;
    }
  }

  lemma AbleLeads(w: World, s: State, req: Registration, outcome: nat -> Outcome)
    returns (s': State, states: seq<State>, actions: seq<Action>)
    requires Able(w, s, req) && !IsFinished(s)
    ensures s'.attempts != [] && Leads(w, s, s', states, actions, outcome) && Able(w, s', req) && Closer(s, s')
  {
    if Idle(s) {
      s', states, actions := AdvanceBack(w, s, req, outcome);
    } else {
      s', states, actions := AdvanceRun(w, s, req, outcome);
    }
  }

  /** From every such state, whatever outcomes the remaining steps are to have, there is a
      continuation without loss at whose end the deployment is finished. */
  lemma CanFinish(w: World, s: State, req: Registration, outcome: nat -> Outcome)
    returns (states: seq<State>, actions: seq<Action>)
    requires Able(w, s, req)
    ensures From(w, s, states, actions, outcome)
    ensures var end := states[|actions|];
      end.attempts != [] && Last(end).run.dep == Last(s).run.dep && IsFinished(end)
  {
    var able := (t: State) => Able(w, t, req);
    forall t | able(t) ensures Advances(w, able, t, outcome) {
      LastFrom(w, t);
      if !IsFinished(t) {
        var t', ss, aa := AbleLeads(w, t, req, outcome);
      }
    }
    states, actions := FinishFrom(w, able, s, outcome);
  }
}
