/** The reference that runs are measured against: one execution of a playbook that nothing
    interrupts. */
module Reference {
  import opened Playbooks
  import opened Runner
  import opened Deployments

  datatype Report = Report(executed: seq<nat>, status: Status, error: string)

  /** Execute the steps in order; a step that asks for a reboot has succeeded. */
  function Uninterrupted(flat: seq<OrderedStep>, k: nat, outcome: nat -> Outcome): Report
    requires k <= |flat|
    decreases |flat| - k
  {
    if k == |flat| then Report([], Completed, "")
    else if outcome(k).Failure? && !flat[k].step.continueOnError then Report([k], Failed, outcome(k).error)
    else
      var rest := Uninterrupted(flat, k + 1, outcome);
      rest.(executed := [k] + rest.executed)
  }

  /** It executes a run of consecutive steps, all of them if it completes. */
  lemma {:induction false} UninterruptedSteps(flat: seq<OrderedStep>, k: nat, outcome: nat -> Outcome)
    requires k <= |flat|
    ensures var r := Uninterrupted(flat, k, outcome);
      && (forall i :: 0 <= i < |r.executed| ==> r.executed[i] == k + i)
      && (r.status.Completed? ==> |r.executed| == |flat| - k)
      && (r.status.Completed? || r.status.Failed?)
    decreases |flat| - k
  {
    if k < |flat| && !(outcome(k).Failure? && !flat[k].step.continueOnError) {
      UninterruptedSteps(flat, k + 1, outcome);
    }
  }

  /** The steps from `lo` up to but excluding `hi`. */
  function Range(lo: nat, hi: nat): (r: seq<nat>)
    requires lo <= hi
    ensures |r| == hi - lo && forall i :: 0 <= i < |r| ==> r[i] == lo + i
    decreases hi - lo
  {
    if lo == hi then [] else [lo] + Range(lo + 1, hi)
  }

  lemma Regroup(x: nat, xs: seq<nat>, ys: seq<nat>)
    ensures [x] + (xs + ys) == ([x] + xs) + ys
  {
  }

  /** As long as steps pass, the execution goes on. */
  lemma {:induction false} UninterruptedPasses(flat: seq<OrderedStep>, lo: nat, hi: nat, outcome: nat -> Outcome)
    requires lo <= hi <= |flat| && forall j :: lo <= j < hi ==> Passes(flat[j].step, outcome(j))
    ensures var rest := Uninterrupted(flat, hi, outcome);
      Uninterrupted(flat, lo, outcome) == rest.(executed := Range(lo, hi) + rest.executed)
    decreases hi - lo
  {
    var rest := Uninterrupted(flat, hi, outcome);
    if lo == hi {
      assert Range(lo, hi) + rest.executed == rest.executed;
    } else {
      UninterruptedPasses(flat, lo + 1, hi, outcome);
      Regroup(lo, Range(lo + 1, hi), rest.executed);
    }
  }
}
