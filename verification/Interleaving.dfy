/** No step is ever skipped, under any interleaving. Several runs of a deployment may be alive
    at once (agent.go starts each on the outer context), messages and pushes may be lost,
    duplicated and reordered, and `updateDeploy` reads a row and writes it back in two steps,
    so a write may carry an arbitrarily stale copy. */
module Interleaving {
  import opened Playbooks
  import opened Runner
  import opened Deployments

  type RunId = nat

  /** `sent` and `pushed` hold every message ever put on the wire: delivering one leaves it there
      (duplication), nothing forces it to be delivered (loss), and any one may be next
      (reordering). `copies` holds every value a row ever had: what a handler may have read.
      `passed` records which steps of which deployment really succeeded, failed with
      continue-on-error, or asked for a reboot. */
  datatype State = State(
    playbooks: map<PlaybookId, Playbook>,
    rows: map<DeploymentId, Deployment>,
    copies: set<Deployment>,
    sent: set<Message>,
    pushed: set<Push>,
    runs: map<RunId, Run>,
    passed: set<(DeploymentId, nat)>)

  ghost predicate Init(s: State) {
    s.rows == map[] && s.copies == {} && s.sent == {} && s.pushed == {} && s.runs == map[] && s.passed == {}
  }

  /** Storing a row: SaveDeployment. */
  function Save(s: State, d: Deployment): State {
    s.(rows := s.rows[d.id := d], copies := s.copies + {d})
  }

  datatype Action =
    | Start(id: DeploymentId, agent: AgentId, playbook: PlaybookId, now: nat)  // push a new deployment
    | ResumePush(copy: Deployment)                                             // push the rest of an active one
    | Accept(run: RunId, push: Push)                                           // agent starts a run
    | SendNext(run: RunId)                                                     // the run sends its next message
    | Execute(run: RunId, outcome: Outcome)                                    // the run executes its step
    | Crash(run: RunId)                                                        // the process dies or the host reboots
    // updateDeploy writes an update of a copy it read
    | Handle(copy: Deployment, m: Message, now: nat)

  ghost predicate Next(s: State, a: Action, s': State) {
    match a
    case Start(id, agent, playbook, now) =>
      && id !in s.rows && playbook in s.playbooks
      && s' == Save(s, Started(id, agent, playbook, now)).(pushed := s.pushed + {Push(id, 0)})
    case ResumePush(copy) =>
      && copy in s.copies && Active(copy)
      && s' == Save(s, Resumed(copy)).(pushed := s.pushed + {Push(copy.id, copy.resume)})
    case Accept(run, push) =>
      && run !in s.runs && push in s.pushed && push.dep in s.rows && s.rows[push.dep].playbook in s.playbooks
      && s' == s.(runs := s.runs[run := NewRun(push.dep, s.playbooks[s.rows[push.dep].playbook], push.resume)])
    case SendNext(run) =>
      && run in s.runs && ValidRun(s.runs[run]) && Runner.Pending(s.runs[run]) != []
      && s' == s.(runs := s.runs[run := AfterSend(s.runs[run])], sent := s.sent + {Runner.Pending(s.runs[run])[0]})
    case Execute(run, o) =>
      && run in s.runs && ValidRun(s.runs[run]) && s.runs[run].phase.Executing?
      && (var r := s.runs[run];
          s' == s.(runs := s.runs[run := r.(phase := Finished(o))],
                   passed := if Passes(r.flat[r.at].step, o) then s.passed + {(r.dep, r.at)} else s.passed))
    case Crash(run) =>
      && run in s.runs && s' == s.(runs := s.runs - {run})
    case Handle(copy, m, now) =>
      && copy in s.copies && m in s.sent && m.dep == copy.id
      && s' == Save(s, Apply(copy, m, now))
  }

  // ── The invariant: every index anyone holds is a true claim ──────────────

  /** Steps 0 .. k-1 of the deployment have passed. */
  ghost predicate Covered(s: State, dep: DeploymentId, k: int) {
    forall i: nat :: i < k ==> (dep, i) in s.passed
  }

  /** How many steps the playbook of a stored deployment has. */
  function Total(s: State, dep: DeploymentId): nat
    requires dep in s.rows && s.rows[dep].playbook in s.playbooks
  {
    StepCount(s.playbooks[s.rows[dep].playbook])
  }

  ghost predicate Known(s: State, dep: DeploymentId) {
    dep in s.rows && s.rows[dep].playbook in s.playbooks
  }

  /** What a message implies has already happened. */
  ghost predicate TrueMessage(s: State, m: Message) {
    && Known(s, m.dep)
    && match m
       case StepStart(dep, i) => 0 <= i <= Total(s, dep) && Covered(s, dep, i)
       case StepComplete(dep, i) => 0 <= i < Total(s, dep) && Covered(s, dep, i + 1)
       case StepFailed(dep, i, _) => false
       case Reboot(dep, at) => 0 <= at <= Total(s, dep) && Covered(s, dep, at)
       case DeployDone(dep) => Covered(s, dep, Total(s, dep))
       case DeployFailed(dep, i, _) => 0 <= i < Total(s, dep) && Covered(s, dep, i)
  }

  ghost predicate TrueRow(s: State, d: Deployment) {
    && Known(s, d.id) && d.playbook == s.rows[d.id].playbook
    && 0 <= d.resume <= Total(s, d.id) && Covered(s, d.id, d.resume)
    && (d.status.Completed? ==> Covered(s, d.id, Total(s, d.id)))
  }

  ghost predicate TruePush(s: State, p: Push) {
    Known(s, p.dep) && 0 <= p.resume <= Total(s, p.dep) && Covered(s, p.dep, p.resume)
  }

  ghost predicate TrueRun(s: State, r: Run) {
    && ValidRun(r) && Known(s, r.dep) && r.flat == Flatten(s.playbooks[s.rows[r.dep].playbook])
    && Covered(s, r.dep, r.at)
    && (r.phase.Finished? && Passes(r.flat[r.at].step, r.phase.outcome) ==> Covered(s, r.dep, r.at + 1))
  }

  ghost predicate Inv(s: State) {
    && (forall id :: id in s.rows ==> s.rows[id].id == id && s.rows[id] in s.copies)
    && (forall d :: d in s.copies ==> TrueRow(s, d))
    && (forall m :: m in s.sent ==> TrueMessage(s, m))
    && (forall p :: p in s.pushed ==> TruePush(s, p))
    && (forall r :: r in s.runs ==> TrueRun(s, s.runs[r]))
  }

  /** The parts of the state that claims are about only grow. */
  ghost predicate Grows(s: State, s': State) {
    && s.playbooks == s'.playbooks
    && s.passed <= s'.passed
    && forall id :: id in s.rows ==> id in s'.rows && s'.rows[id].playbook == s.rows[id].playbook
  }

  lemma ClaimsSurvive(s: State, s': State)
    requires Grows(s, s')
    ensures forall d :: TrueRow(s, d) ==> TrueRow(s', d)
    ensures forall m :: TrueMessage(s, m) ==> TrueMessage(s', m)
    ensures forall p :: TruePush(s, p) ==> TruePush(s', p)
    ensures forall r :: TrueRun(s, r) ==> TrueRun(s', r)
  {
    forall dep, k | Covered(s, dep, k) ensures Covered(s', dep, k) {
    }
  }

  // ── Each action keeps it ─────────────────────────────────────────────────

  lemma SaveKeeps(s: State, d: Deployment)
    requires Inv(s)
    requires d.id in s.rows ==> d.playbook == s.rows[d.id].playbook
    requires d.playbook in s.playbooks
    requires TrueRow(Save(s, d), d)
    ensures Inv(Save(s, d))
  {
    ClaimsSurvive(s, Save(s, d));
  }

  lemma PushKeeps(s: State, p: Push)
    requires Inv(s) && TruePush(s, p)
    ensures Inv(s.(pushed := s.pushed + {p}))
  {
    ClaimsSurvive(s, s.(pushed := s.pushed + {p}));
  }

  lemma StartKeeps(s: State, id: DeploymentId, agent: AgentId, playbook: PlaybookId, now: nat, s': State)
    requires Inv(s) && Next(s, Start(id, agent, playbook, now), s')
    ensures Inv(s')
  {
    var d := Started(id, agent, playbook, now);
    SaveKeeps(s, d);
    PushKeeps(Save(s, d), Push(id, 0));
  }

  lemma ResumeKeeps(s: State, copy: Deployment, s': State)
    requires Inv(s) && Next(s, ResumePush(copy), s')
    ensures Inv(s')
  {
    assert TrueRow(s, copy);
    SaveKeeps(s, Resumed(copy));
    PushKeeps(Save(s, Resumed(copy)), Push(copy.id, copy.resume));
  }

  /** A stale copy is still a true claim, and so is every message: their combination is too. */
  lemma HandleKeeps(s: State, copy: Deployment, m: Message, now: nat, s': State)
    requires Inv(s) && Next(s, Handle(copy, m, now), s')
    ensures Inv(s')
  {
    assert TrueRow(s, copy) && TrueMessage(s, m);
    SaveKeeps(s, Apply(copy, m, now));
  }

  lemma SendKeeps(s: State, run: RunId, s': State)
    requires Inv(s) && Next(s, SendNext(run), s')
    ensures Inv(s')
  {
    ClaimsSurvive(s, s');
    assert TrueRun(s, s.runs[run]);
  }

  lemma ExecuteKeeps(s: State, run: RunId, o: Outcome, s': State)
    requires Inv(s) && Next(s, Execute(run, o), s')
    ensures Inv(s')
  {
    ClaimsSurvive(s, s');
    var r := s.runs[run];
    assert TrueRun(s', r);
    assert TrueRun(s', s'.runs[run]);
  }

  lemma StepKeeps(s: State, a: Action, s': State)
    requires Inv(s) && Next(s, a, s')
    ensures Inv(s')
  {
    match a
    case Start(id, agent, playbook, now) => StartKeeps(s, id, agent, playbook, now, s');
    case ResumePush(copy) => ResumeKeeps(s, copy, s');
    case Accept(run, push) =>
      ClaimsSurvive(s, s');
      assert TruePush(s, push);
    case SendNext(run) => SendKeeps(s, run, s');
    case Execute(run, o) => ExecuteKeeps(s, run, o, s');
    case Crash(run) => ClaimsSurvive(s, s');
    case Handle(copy, m, now) => HandleKeeps(s, copy, m, now, s');
  }

  ghost predicate Behaviour(states: seq<State>, actions: seq<Action>) {
    && |states| == |actions| + 1
    && Init(states[0])
    && forall i :: 0 <= i < |actions| ==> Next(states[i], actions[i], states[i + 1])
  }

  lemma {:induction false} Reachable(states: seq<State>, actions: seq<Action>, i: nat)
    requires Behaviour(states, actions) && i < |states|
    ensures Inv(states[i])
  {
    if i > 0 {
      Reachable(states, actions, i - 1);
      StepKeeps(states[i - 1], actions[i - 1], states[i]);
    }
  }

  /** In every reachable state of every interleaving, all steps below a deployment's resume
      index have passed, and so have those below the index that any message implies and below
      the position of every push and every live run; and a deployment that shows as completed
      has had all of its steps pass. */
  lemma NoStepSkipped(states: seq<State>, actions: seq<Action>, i: nat)
    requires Behaviour(states, actions) && i < |states|
    ensures var s := states[i];
      && (forall id :: id in s.rows ==>
            && Known(s, id) && 0 <= s.rows[id].resume <= Total(s, id)
            && Covered(s, id, s.rows[id].resume)
            && (s.rows[id].status.Completed? ==> Covered(s, id, Total(s, id))))
      && (forall m :: m in s.sent ==> TrueMessage(s, m))
      && (forall p :: p in s.pushed ==> Covered(s, p.dep, p.resume))
      && (forall r :: r in s.runs ==> Covered(s, s.runs[r].dep, s.runs[r].at))
  {
    Reachable(states, actions, i);
    var s := states[i];
    forall id | id in s.rows
      ensures && Known(s, id) && 0 <= s.rows[id].resume <= Total(s, id)
              && Covered(s, id, s.rows[id].resume)
              && (s.rows[id].status.Completed? ==> Covered(s, id, Total(s, id)))
    {
      assert TrueRow(s, s.rows[id]);
    }
  }
}
