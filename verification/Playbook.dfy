/** Playbooks and their flattening into one ordered list of steps (internal/common/types.go).
    The position in that list is the resume index that survives a reboot. */
module Playbooks {

  datatype Step = Step(name: string, action: string, continueOnError: bool)
  datatype Job = Job(name: string, steps: seq<Step>)
  datatype Playbook = Playbook(name: string, jobs: seq<Job>)

  datatype OrderedStep = OrderedStep(step: Step, jobName: string, jobIndex: nat, stepIndex: nat, globalIndex: nat)

  /** How many steps the first `k` jobs have together. */
  function Offset(jobs: seq<Job>, k: nat): nat
    requires k <= |jobs|
  {
    if k == 0 then 0 else Offset(jobs, k - 1) + |jobs[k - 1].steps|
  }

  function StepCount(pb: Playbook): nat {
    Offset(pb.jobs, |pb.jobs|)
  }

  /** The step at position `s` of job `j`, annotated. */
  function Ordered(jobs: seq<Job>, j: nat, s: nat): OrderedStep
    requires j < |jobs| && s < |jobs[j].steps|
  {
    OrderedStep(jobs[j].steps[s], jobs[j].name, j, s, Offset(jobs, j) + s)
  }

  /** The flattening of the first `j` jobs and of the first `s` steps of the next one. */
  function FlatUpTo(jobs: seq<Job>, j: nat, s: nat): (out: seq<OrderedStep>)
    requires j <= |jobs| && s <= if j < |jobs| then |jobs[j].steps| else 0
    ensures |out| == Offset(jobs, j) + s
    decreases j, s
  {
    if s > 0 then FlatUpTo(jobs, j, s - 1) + [Ordered(jobs, j, s - 1)]
    else if j > 0 then FlatUpTo(jobs, j - 1, |jobs[j - 1].steps|)
    else []
  }

  function Flatten(pb: Playbook): (out: seq<OrderedStep>)
    ensures |out| == StepCount(pb)
  {
    FlatUpTo(pb.jobs, |pb.jobs|, 0)
  }

  method FlattenPlaybook(pb: Playbook) returns (out: seq<OrderedStep>)
    ensures out == Flatten(pb)
  {
    out := [];
    var global := 0;
    for ji := 0 to |pb.jobs|
      invariant out == FlatUpTo(pb.jobs, ji, 0) && global == |out|
    {
      var job := pb.jobs[ji];
      for si := 0 to |job.steps|
        invariant out == FlatUpTo(pb.jobs, ji, si) && global == |out|
      {
        out := out + [OrderedStep(job.steps[si], job.name, ji, si, global)];
        global := global + 1;
      }
      assert FlatUpTo(pb.jobs, ji + 1, 0) == FlatUpTo(pb.jobs, ji, |job.steps|);
    }
  }

  lemma {:induction false} OffsetGrows(jobs: seq<Job>, j: nat, k: nat)
    requires j <= k <= |jobs|
    ensures Offset(jobs, j) <= Offset(jobs, k)
    ensures j < k ==> Offset(jobs, j) + |jobs[j].steps| <= Offset(jobs, k)
    decreases k
  {
    if j < k {
      OffsetGrows(jobs, j, k - 1);
    }
  }

  lemma {:induction false} FlatUpToAt(jobs: seq<Job>, j: nat, s: nat, j': nat, s': nat)
    requires j <= |jobs| && s <= if j < |jobs| then |jobs[j].steps| else 0
    requires j' < |jobs| && s' < |jobs[j'].steps|
    requires j' < j || (j' == j && s' < s)
    ensures Offset(jobs, j') + s' < |FlatUpTo(jobs, j, s)|
    ensures FlatUpTo(jobs, j, s)[Offset(jobs, j') + s'] == Ordered(jobs, j', s')
    decreases j, s
  {
    OffsetGrows(jobs, j', j);
    if s > 0 {
      if !(j' == j && s' == s - 1) {
        FlatUpToAt(jobs, j, s - 1, j', s');
      }
    } else {
      if j' < j - 1 {
        OffsetGrows(jobs, j', j - 1);
      }
      FlatUpToAt(jobs, j - 1, |jobs[j - 1].steps|, j', s');
    }
  }

  /** Every step of every job is in the flattening, at the number of steps in earlier jobs
      plus its own position: that step, its job's name, where it comes from, and that position
      as its global index. */
  lemma StepAt(pb: Playbook, j: nat, s: nat)
    requires j < |pb.jobs| && s < |pb.jobs[j].steps|
    ensures var i := Offset(pb.jobs, j) + s;
      && i < |Flatten(pb)|
      && Flatten(pb)[i].step == pb.jobs[j].steps[s]
      && Flatten(pb)[i].jobName == pb.jobs[j].name
      && Flatten(pb)[i].jobIndex == j
      && Flatten(pb)[i].stepIndex == s
      && Flatten(pb)[i].globalIndex == i
  {
    FlatUpToAt(pb.jobs, |pb.jobs|, 0, j, s);
  }

  lemma {:induction false} FindJob(jobs: seq<Job>, k: nat, i: nat) returns (j: nat, s: nat)
    requires k <= |jobs| && i < Offset(jobs, k)
    ensures j < k && s < |jobs[j].steps| && i == Offset(jobs, j) + s
  {
    if i < Offset(jobs, k - 1) {
      j, s := FindJob(jobs, k - 1, i);
    } else {
      j, s := k - 1, i - Offset(jobs, k - 1);
    }
  }

  /** Job `j`, step `s` exists and has `i` steps before it. */
  predicate IsAt(pb: Playbook, j: nat, s: nat, i: nat) {
    j < |pb.jobs| && s < |pb.jobs[j].steps| && Offset(pb.jobs, j) + s == i
  }

  /** Conversely, position `i` of the flattening is exactly one step of one job, with that
      job's name and positions, and its global index is `i`. */
  lemma StepOf(pb: Playbook, i: nat) returns (j: nat, s: nat)
    requires i < |Flatten(pb)|
    ensures IsAt(pb, j, s, i)
    ensures Flatten(pb)[i].step == pb.jobs[j].steps[s] && Flatten(pb)[i].jobName == pb.jobs[j].name
    ensures Flatten(pb)[i].jobIndex == j && Flatten(pb)[i].stepIndex == s && Flatten(pb)[i].globalIndex == i
    ensures forall j': nat, s': nat :: IsAt(pb, j', s', i) ==> j' == j && s' == s
  {
    j, s := FindJob(pb.jobs, |pb.jobs|, i);
    StepAt(pb, j, s);
    forall j': nat, s': nat | IsAt(pb, j', s', i) ensures j' == j && s' == s {
      StepAt(pb, j', s');
    }
  }

  lemma GlobalIndexIsPosition(pb: Playbook)
    ensures forall i :: 0 <= i < |Flatten(pb)| ==> Flatten(pb)[i].globalIndex == i
  {
    forall i | 0 <= i < |Flatten(pb)| ensures Flatten(pb)[i].globalIndex == i {
      var j, s := StepOf(pb, i);
    }
  }
}
