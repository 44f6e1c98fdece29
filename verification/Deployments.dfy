/** A deployment row, what each agent message does to it (internal/server/handlers/ws.go) and
    what the server decides to push (internal/server/service/manager.go). */
module Deployments {
  import opened Options
  import opened Runner

  type AgentId = nat
  type PlaybookId = string

  datatype Status = Pending | Running | Rebooting | Completed | Failed

  /** A row of the deployments table; `startedAt` and `finishedAt` are clock readings. */
  datatype Deployment = Deployment(
    id: DeploymentId, agent: AgentId, playbook: PlaybookId, status: Status, resume: int,
    startedAt: nat, finishedAt: Option<nat>, error: string)

  predicate Active(d: Deployment) {
    d.status.Pending? || d.status.Running? || d.status.Rebooting?
  }

  /** The update each message makes to the row of the deployment it names. */
  function Apply(d: Deployment, m: Message, now: nat): Deployment {
    match m
    case StepStart(_, i) => d.(status := Running, resume := i)
    case StepComplete(_, i) => d.(resume := i + 1)
    case StepFailed(_, _, error) => d.(status := Failed, error := error)
    case Reboot(_, at) => d.(status := Rebooting, resume := at)
    case DeployDone(_) => d.(status := Completed, finishedAt := Some(now))
    case DeployFailed(_, _, error) => d.(status := Failed, error := error, finishedAt := Some(now))
  }

  /** The three-way decision on the latest deployment of an agent. */
  datatype Decision = Resume(d: Deployment) | StartNew | Skip

  function Decide(wanted: PlaybookId, latest: Option<Deployment>, force: bool): Decision {
    var same := latest.Some? && latest.value.playbook == wanted;
    if same && Active(latest.value) then Resume(latest.value)
    else if !same || force then StartNew
    else Skip
  }

  function Resumed(d: Deployment): Deployment {
    d.(status := Running)
  }

  function Started(id: DeploymentId, agent: AgentId, playbook: PlaybookId, now: nat): Deployment {
    Deployment(id, agent, playbook, Running, 0, now, None, "")
  }

  /** What is pushed to the agent: which deployment, and from which step. */
  datatype Push = Push(dep: DeploymentId, resume: int)
}
