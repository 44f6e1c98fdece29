/** The agent's playbook runner (internal/agent/agent.go, runPlaybook): skip the steps below
    the resume index, run the others in order, and report to the server as it goes. */
module Runner {
  import opened Playbooks

  type DeploymentId = nat

  /** What executor.RunStep reports: NeedsReboot is looked at before Err. */
  datatype Outcome = Success | Failure(error: string) | NeedsReboot

  /** Deployment messages from agent to server. No agent code sends `StepFailed`; the server
      nevertheless handles it. */
  datatype Message =
    | StepStart(dep: DeploymentId, index: int)
    | StepComplete(dep: DeploymentId, index: int)
    | StepFailed(dep: DeploymentId, index: int, error: string)
    | Reboot(dep: DeploymentId, resumeAt: int)
    | DeployDone(dep: DeploymentId)
    | DeployFailed(dep: DeploymentId, index: int, error: string)

  /** The outcome lets the run go on: success, or a failure of a continue-on-error step. */
  predicate Continues(step: Step, o: Outcome) {
    o.Success? || (o.Failure? && step.continueOnError)
  }

  /** The outcome counts as passing: it moves the resume point beyond the step. */
  predicate Passes(step: Step, o: Outcome) {
    Continues(step, o) || o.NeedsReboot?
  }

  /** The message that ends step `i`. */
  function StepEnd(dep: DeploymentId, i: int, step: Step, o: Outcome): Message {
    match o
    case NeedsReboot => Reboot(dep, i + 1)
    case Failure(error) => if step.continueOnError then StepComplete(dep, i) else DeployFailed(dep, i, error)
    case Success => StepComplete(dep, i)
  }

  // ── The loop ─────────────────────────────────────────────────────────────

  method RunPlaybook(dep: DeploymentId, pb: Playbook, resume: int, outcome: nat -> Outcome) returns (sent: seq<Message>)
    ensures sent == RunTrace(dep, pb, resume, outcome)
  {
    var flat := FlattenPlaybook(pb);
    sent := [];
    for k := 0 to |flat|
      invariant Trace(dep, flat, 0, resume, outcome) == sent + Trace(dep, flat, k, resume, outcome)
    {
      var fs := flat[k];
      if fs.globalIndex < resume {
        continue;
      }
      sent := sent + [StepStart(dep, fs.globalIndex)];
      var result := outcome(fs.globalIndex);
      if result.NeedsReboot? {
        var resumeAt := fs.globalIndex + 1;
        sent := sent + [Reboot(dep, resumeAt)];
        return;
      }
      if result.Failure? {
        if fs.step.continueOnError {
          sent := sent + [StepComplete(dep, fs.globalIndex)];
          continue;
        }
        sent := sent + [DeployFailed(dep, fs.globalIndex, result.error)];
        return;
      }
      sent := sent + [StepComplete(dep, fs.globalIndex)];
    }
    sent := sent + [DeployDone(dep)];
  }

  /** What the loop sends from position `k` of the flattened playbook on. */
  function Trace(dep: DeploymentId, flat: seq<OrderedStep>, k: nat, resume: int, outcome: nat -> Outcome): seq<Message>
    requires k <= |flat|
    decreases |flat| - k
  {
    if k == |flat| then [DeployDone(dep)]
    else
      var i := flat[k].globalIndex;
      if i < resume then Trace(dep, flat, k + 1, resume, outcome)
      else
        var o := outcome(i);
        [StepStart(dep, i), StepEnd(dep, i, flat[k].step, o)]
        + (if Continues(flat[k].step, o) then Trace(dep, flat, k + 1, resume, outcome) else [])
  }

  // ── The grammar of a run ─────────────────────────────────────────────────

  /** Start/complete pairs for the steps from `lo` up to but excluding `hi`. */
  function Pairs(dep: DeploymentId, lo: int, hi: int): (ms: seq<Message>)
    requires lo <= hi
    ensures |ms| == 2 * (hi - lo)
    decreases hi - lo
  {
    if lo == hi then [] else [StepStart(dep, lo), StepComplete(dep, lo)] + Pairs(dep, lo + 1, hi)
  }

  ghost predicate Indexed(flat: seq<OrderedStep>) {
    forall i :: 0 <= i < |flat| ==> flat[i].globalIndex == i
  }

  /** The first step from `k` on whose outcome ends the run, or the number of steps. */
  function Stop(flat: seq<OrderedStep>, k: nat, outcome: nat -> Outcome): (stop: nat)
    requires k <= |flat|
    ensures k <= stop <= |flat|
    ensures forall i :: k <= i < stop ==> Continues(flat[i].step, outcome(i))
    ensures stop < |flat| ==> !Continues(flat[stop].step, outcome(stop))
    decreases |flat| - k
  {
    if k < |flat| && Continues(flat[k].step, outcome(k)) then Stop(flat, k + 1, outcome) else k
  }

  /** Where a run that was told to resume at `resume` starts. */
  function First(flat: seq<OrderedStep>, resume: int): nat {
    if resume < 0 then 0 else if resume > |flat| then |flat| else resume
  }

  /** How a run that stops at `stop` ends: done after the last step, or the start of step
      `stop` followed by a reboot to the next step or by the failure of this one. */
  function Ending(dep: DeploymentId, flat: seq<OrderedStep>, stop: nat, outcome: nat -> Outcome): seq<Message>
    requires stop <= |flat|
  {
    if stop == |flat| then [DeployDone(dep)]
    else match outcome(stop)
      case NeedsReboot => [StepStart(dep, stop), Reboot(dep, stop + 1)]
      case Failure(error) => [StepStart(dep, stop), DeployFailed(dep, stop, error)]
      case Success => []
  }

  lemma {:induction false} TraceSkips(dep: DeploymentId, flat: seq<OrderedStep>, k: nat, resume: int,
      outcome: nat -> Outcome)
    requires Indexed(flat) && k <= First(flat, resume)
    ensures Trace(dep, flat, k, resume, outcome) == Trace(dep, flat, First(flat, resume), resume, outcome)
    decreases First(flat, resume) - k
  {
    if k < First(flat, resume) {
      TraceSkips(dep, flat, k + 1, resume, outcome);
    }
  }

  lemma TraceHead(dep: DeploymentId, flat: seq<OrderedStep>, k: nat, resume: int, outcome: nat -> Outcome)
    requires Indexed(flat) && First(flat, resume) <= k < |flat|
    ensures Trace(dep, flat, k, resume, outcome) ==
      [StepStart(dep, k), StepEnd(dep, k, flat[k].step, outcome(k))]
      + (if Continues(flat[k].step, outcome(k)) then Trace(dep, flat, k + 1, resume, outcome) else [])
  {
  }

  lemma StopHead(flat: seq<OrderedStep>, k: nat, outcome: nat -> Outcome)
    requires k < |flat|
    ensures Stop(flat, k, outcome) == if Continues(flat[k].step, outcome(k)) then Stop(flat, k + 1, outcome) else k
  {
  }

  lemma PairFirst(dep: DeploymentId, k: nat, stop: nat, ending: seq<Message>)
    requires k < stop
    ensures [StepStart(dep, k), StepComplete(dep, k)] + (Pairs(dep, k + 1, stop) + ending) == Pairs(dep, k, stop)
        + ending
  {
    var pair, rest := [StepStart(dep, k), StepComplete(dep, k)], Pairs(dep, k + 1, stop);
    assert Pairs(dep, k, stop) == pair + rest;
    assert pair + (rest + ending) == (pair + rest) + ending;
  }

  lemma {:induction false} TraceRuns(dep: DeploymentId, flat: seq<OrderedStep>, k: nat, resume: int,
      outcome: nat -> Outcome)
    requires Indexed(flat) && First(flat, resume) <= k <= |flat|
    ensures var stop := Stop(flat, k, outcome);
      Trace(dep, flat, k, resume, outcome) == Pairs(dep, k, stop) + Ending(dep, flat, stop, outcome)
    decreases |flat| - k
  {
    if k < |flat| {
      TraceHead(dep, flat, k, resume, outcome);
      StopHead(flat, k, outcome);
      if Continues(flat[k].step, outcome(k)) {
        TraceRuns(dep, flat, k + 1, resume, outcome);
        var stop := Stop(flat, k + 1, outcome);
        PairFirst(dep, k, stop, Ending(dep, flat, stop, outcome));
      }
    }
  }

  /** The messages of a whole run of `runPlaybook`. */
  function RunTrace(dep: DeploymentId, pb: Playbook, resume: int, outcome: nat -> Outcome): seq<Message> {
    Trace(dep, Flatten(pb), 0, resume, outcome)
  }

  /** Every run: contiguous start/complete pairs from where it resumes, then one ending. */
  lemma RunGrammar(dep: DeploymentId, pb: Playbook, resume: int, outcome: nat -> Outcome)
    ensures var flat := Flatten(pb);
      var lo := First(flat, resume);
      var stop := Stop(flat, lo, outcome);
      RunTrace(dep, pb, resume, outcome) == Pairs(dep, lo, stop) + Ending(dep, flat, stop, outcome)
  {
    GlobalIndexIsPosition(pb);
    TraceSkips(dep, Flatten(pb), 0, resume, outcome);
    TraceRuns(dep, Flatten(pb), First(Flatten(pb), resume), resume, outcome);
  }

  // ── A run step by step ───────────────────────────────────────────────────

  /** Between two sends a run is before its next step, inside it, after it, or over. */
  datatype Phase = Ready | Executing | Finished(outcome: Outcome) | Over

  datatype Run = Run(dep: DeploymentId, flat: seq<OrderedStep>, at: nat, phase: Phase)

  ghost predicate ValidRun(r: Run) {
    && Indexed(r.flat)
    && r.at <= |r.flat|
    && (r.phase.Executing? || r.phase.Finished? ==> r.at < |r.flat|)
  }

  /** The run that a pushed playbook starts. */
  function NewRun(dep: DeploymentId, pb: Playbook, resume: int): (r: Run)
    ensures ValidRun(r)
  {
    GlobalIndexIsPosition(pb);
    Run(dep, Flatten(pb), First(Flatten(pb), resume), Ready)
  }

  /** The next thing a run does by itself: send a message, if it is at a send. */
  function Pending(r: Run): seq<Message>
    requires ValidRun(r)
  {
    match r.phase
    case Ready => if r.at < |r.flat| then [StepStart(r.dep, r.at)] else [DeployDone(r.dep)]
    case Executing => []
    case Finished(o) => [StepEnd(r.dep, r.at, r.flat[r.at].step, o)]
    case Over => []
  }

  /** The run after that send. */
  function AfterSend(r: Run): (r': Run)
    requires ValidRun(r)
    ensures ValidRun(r')
  {
    match r.phase
    case Ready => r.(phase := if r.at < |r.flat| then Executing else Over)
    case Executing => r
    case Finished(o) =>
      if Continues(r.flat[r.at].step, o) then r.(at := r.at + 1, phase := Ready) else r.(phase := Over)
    case Over => r
  }

  /** What remains of a run when its steps turn out as `outcome` says. */
  function Remaining(r: Run, outcome: nat -> Outcome): seq<Message>
    requires ValidRun(r)
  {
    match r.phase
    case Ready => Trace(r.dep, r.flat, r.at, r.at, outcome)
    case Executing => FromStepEnd(r, outcome(r.at), outcome)
    case Finished(o) => FromStepEnd(r, o, outcome)
    case Over => []
  }

  function FromStepEnd(r: Run, o: Outcome, outcome: nat -> Outcome): seq<Message>
    requires ValidRun(r) && r.at < |r.flat|
  {
    [StepEnd(r.dep, r.at, r.flat[r.at].step, o)]
    + (if Continues(r.flat[r.at].step, o) then Trace(r.dep, r.flat, r.at + 1, r.at + 1, outcome) else [])
  }

  lemma {:induction false} TraceFromPosition(dep: DeploymentId, flat: seq<OrderedStep>, k: nat, resume: int,
      outcome: nat -> Outcome)
    requires Indexed(flat) && First(flat, resume) <= k <= |flat|
    ensures Trace(dep, flat, k, resume, outcome) == Trace(dep, flat, k, k, outcome)
  {
    TraceRuns(dep, flat, k, resume, outcome);
    TraceRuns(dep, flat, k, k, outcome);
  }

  /** Sending step by step produces exactly the messages of `RunPlaybook`: a new run has all
      of its trace before it, ... */
  lemma NewRunTrace(dep: DeploymentId, pb: Playbook, resume: int, outcome: nat -> Outcome)
    ensures Remaining(NewRun(dep, pb, resume), outcome) == RunTrace(dep, pb, resume, outcome)
  {
    GlobalIndexIsPosition(pb);
    var flat := Flatten(pb);
    TraceSkips(dep, flat, 0, resume, outcome);
    TraceFromPosition(dep, flat, First(flat, resume), resume, outcome);
  }

  /** ... and each send takes the first remaining message. */
  lemma SendTakesFirst(r: Run, outcome: nat -> Outcome)
    requires ValidRun(r) && !r.phase.Executing?
    ensures Remaining(r, outcome) == Pending(r) + Remaining(AfterSend(r), outcome)
  {
    if r.phase.Ready? && r.at < |r.flat| {
      StartTakesFirst(r, outcome);
    }
  }

  lemma StartTakesFirst(r: Run, outcome: nat -> Outcome)
    requires ValidRun(r) && r.phase.Ready? && r.at < |r.flat|
    ensures Remaining(r, outcome) == Pending(r) + Remaining(AfterSend(r), outcome)
  {
    var next := AfterSend(r);
    assert Remaining(next, outcome) == FromStepEnd(next, outcome(r.at), outcome);
    TraceHead(r.dep, r.flat, r.at, r.at, outcome);
    if Continues(r.flat[r.at].step, outcome(r.at)) {
      TraceFromPosition(r.dep, r.flat, r.at + 1, r.at, outcome);
    }
    var end := StepEnd(r.dep, r.at, r.flat[r.at].step, outcome(r.at));
    var rest := if Continues(r.flat[r.at].step, outcome(r.at))
        then Trace(r.dep, r.flat, r.at + 1, r.at + 1, outcome) else [];
    TakeFirst(StepStart(r.dep, r.at), end, rest);
  }

  lemma TakeFirst(m: Message, m': Message, rest: seq<Message>)
    ensures [m, m'] + rest == [m] + ([m'] + rest)
  {
  }
}
