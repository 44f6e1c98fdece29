/** Counting in the messages of one run (internal/agent/agent.go, runPlaybook): how many steps
    it began, how many it reported as done, and whether it reported an end. */
module Grammar {
  import opened Runner

  /** The message moves the resume index on. */
  predicate Advances(m: Message) {
    m.StepComplete? || m.Reboot?
  }

  /** The message finishes the deployment. */
  predicate Finishes(m: Message) {
    m.DeployDone? || m.DeployFailed?
  }

  function Completions(ms: seq<Message>): nat {
    if ms == [] then 0 else Completions(ms[..|ms| - 1]) + if Advances(ms[|ms| - 1]) then 1 else 0
  }

  function Starts(ms: seq<Message>): nat {
    if ms == [] then 0 else Starts(ms[..|ms| - 1]) + if ms[|ms| - 1].StepStart? then 1 else 0
  }

  predicate Ended(ms: seq<Message>) {
    ms != [] && Finishes(ms[|ms| - 1])
  }

  /** Nothing was said yet that ends the run. */
  predicate Open(ms: seq<Message>) {
    ms == [] || ms[|ms| - 1].StepStart? || ms[|ms| - 1].StepComplete?
  }

  /** Message `j` of a run of `n` steps from `from`: starts and completions alternate, and only
      the last message may end the run. */
  ghost predicate GoodAt(ms: seq<Message>, j: nat, dep: DeploymentId, from: nat, n: nat)
    requires j < |ms|
  {
    var i, m := from + j / 2, ms[j];
    if j % 2 == 0 then
      (m == StepStart(dep, i) && i < n) || (j == |ms| - 1 && i == n && m == DeployDone(dep))
    else
      && i < n
      && (|| m == StepComplete(dep, i)
          || (j == |ms| - 1 && m == Reboot(dep, i + 1))
          || (j == |ms| - 1 && m.DeployFailed? && m.dep == dep && m.index == i))
  }

  ghost predicate Good(ms: seq<Message>, dep: DeploymentId, from: nat, n: nat) {
    from <= n && forall j :: 0 <= j < |ms| ==> GoodAt(ms, j, dep, from, n)
  }

  lemma GoodAppend(ms: seq<Message>, m: Message, dep: DeploymentId, from: nat, n: nat)
    requires Good(ms, dep, from, n) && Open(ms)
    requires GoodAt(ms + [m], |ms|, dep, from, n)
    ensures Good(ms + [m], dep, from, n)
  {
    forall j | 0 <= j < |ms| + 1 ensures GoodAt(ms + [m], j, dep, from, n) {
      if j < |ms| {
        assert GoodAt(ms, j, dep, from, n);
      }
    }
  }

  lemma GoodPrefix(ms: seq<Message>, k: nat, dep: DeploymentId, from: nat, n: nat)
    requires Good(ms, dep, from, n) && k <= |ms|
    ensures Good(ms[..k], dep, from, n)
  {
    forall j | 0 <= j < k ensures GoodAt(ms[..k], j, dep, from, n) {
      assert GoodAt(ms, j, dep, from, n);
    }
  }

  /** A run's completions and starts, from the length of what it said. */
  lemma {:induction false} Counts(ms: seq<Message>, dep: DeploymentId, from: nat, n: nat)
    requires Good(ms, dep, from, n)
    ensures Completions(ms) == |ms| / 2 - if ms != [] && ms[|ms| - 1].DeployFailed? then 1 else 0
    ensures Starts(ms) == (|ms| + 1) / 2 - if ms != [] && ms[|ms| - 1].DeployDone? then 1 else 0
    ensures from + Completions(ms) <= n
  {
    if ms != [] {
      var k := |ms| - 1;
      GoodPrefix(ms, k, dep, from, n);
      Counts(ms[..k], dep, from, n);
      assert GoodAt(ms, k, dep, from, n);
      if k > 0 {
        assert GoodAt(ms, k - 1, dep, from, n);
      }
    }
  }

  lemma {:induction false} CompletionsAdd(ms: seq<Message>, k: nat)
    requires k <= |ms|
    ensures Completions(ms) == Completions(ms[..k]) + Completions(ms[k..])
  {
    if k == |ms| {
      assert ms[..k] == ms;
    } else {
      var front := ms[..|ms| - 1];
      CompletionsAdd(front, k);
      assert front[..k] == ms[..k];
      assert ms[k..][..|ms[k..]| - 1] == front[k..];
    }
  }

  /** The steps a run began are at most one more than those it reported as done. */
  lemma OneMore(ms: seq<Message>, k: nat, dep: DeploymentId, from: nat, n: nat)
    requires Good(ms, dep, from, n) && k <= |ms|
    ensures Completions(ms[..k]) <= Starts(ms) <= Completions(ms[..k]) + Completions(ms[k..]) + 1
  {
    Counts(ms, dep, from, n);
    CompletionsAdd(ms, k);
    if ms != [] {
      assert GoodAt(ms, |ms| - 1, dep, from, n);
    }
  }
}
