# Kompakt: a verified model

Kompakt is a deployment server with agents that run playbooks and survive reboots. An agent
flattens its playbook, runs the steps from a resume index and reports each of them; the server
folds the reports into a deployment row and, whenever the agent registers and connects again,
decides whether to resume that deployment, to start a new one or to do nothing. This project
models that protocol, the identity and token handling it rests on, the message queues it
travels through, and the text transformers around it, and proves what they promise.

| files | what they model |
|---|---|
| `Playbook`, `Runner`, `Grammar` | flattening, the run loop, and what a run can say |
| `Deployments`, `Interleaving` | the deployment row, and safety under any interleaving |
| `Store`, `Server`, `Handlers` | the tables, every handler as a function on them, and the handler object |
| `Effects` | what each handler does to every field of the tables |
| `Lifecycle`, `Pushes` | histories of handlers: tokens, identity, which deployments exist and are pushed |
| `Refresh` | a token refresh in its three steps, with anything in between |
| `SingleRun`, `Reference`, `Transparency`, `Completion` | one run at a time: exact accounting, reboot transparency, and that deployments can be finished |
| `Writer`, `Commands`, `Hub` | the agent's message writer, command sessions, the server's hub |
| `Lines`, `Sanitize`, `Strings`, `Rewriting`, `Secrets`, `Nesting` | pipe lines, control sequences, secret references |
| `Ulid` | identifiers |

Two regimes cover the protocol. `Interleaving` allows several live runs, loss, duplication and
reordering of messages, crashes, and lets `updateDeploy` read a row and write it back later, so
that a write may carry an arbitrarily stale copy. `SingleRun` has one run of the agent at a time,
delivery in order, and loses only a suffix of a connection's messages, which is what the agent's
writer guarantees (`SingleRun.ArrivesInOrder`); the server in it is the complete one of `Server`, and
any other event may come in between. `Transparency` adds that nothing is lost and that the agent
stops only after its run, as it does for a reboot: then a finished deployment ended as it would have
without reboots, in every history, however reboots, disconnects, waits and other agents' events are
placed. `Completion` shows that from every state of such a history the end can be reached.

## Assumptions

- A playbook record does not change while a deployment of it exists, and deployments are not deleted.
- Identifiers, raw tokens and start times are drawn from one counter, `clock`, so they never repeat
  and later deployments have larger start times. The store orders `started_at` as RFC 3339 text with
  trailing zeros dropped, for which text order is time order only at equal fractional widths
  (section 5.1 of RFC 3339).
- SHA-256 is injective on the tokens in use: `Digest` is a constructor.
- A handler is one atomic step at one clock reading, except `updateDeploy` in `Interleaving` and a
  token refresh in `Refresh`, which authenticates, issues and revokes in three steps.
- A machine sends its id. One that cannot determine it (internal/agent/identity/identity.go:39-41)
  becomes a new agent at every registration: `AnswersOwnAgent`, `NamelessMachine`.
- Store calls succeed. The outcome of a step, a command's output and a machine's id are inputs.
- Bytes stand for the text of command output, so `SanitizeLine` works on bytes.

## Where the code differs from its description

- docs/playbook-model.md:78 says that the agent resumes from the next job after a reboot; the code
  resumes from the next step (internal/agent/agent.go:310), and so does the model.
- internal/server/handlers/token.go:6-7 calls the rotation atomic. It is several steps, and
  `OneTokenExactly` says when an agent is left with one token: exactly if every refresh that issued
  since the agent's last registration also authenticated since then, and no two of them presented the
  same token. `OverlappingRefreshes` and `RefreshAcrossRegistration` are schedules that leave two,
  `NestedRefreshes` is an overlap that leaves one.
- internal/common/types.go:85-86 describes one substitution of every reference. The loop rewrites
  what it has inserted as well: `SinglePassExactly` says exactly for which secrets the two agree. And
  it need not end: for secrets whose values are templates themselves it ends on every template exactly
  if no secret refers to itself through others (`EndsExactly`), and never on a template that refers to
  one that does (`CycleNeverEnds`).
- internal/server/handlers/handler.go:64-69 removes an agent's connection by agent, not by connection:
  `ReplacedConnectionEvictsSuccessor` shows what follows.

## Model

| member | source | states |
|---|---|---|
| `Interleaving.NoStepSkipped` | internal/server/handlers/ws.go:110-198 | in every state of every interleaving, all steps below a row's resume index, below the index a message, push or live run implies, have really succeeded, failed with continue-on-error or asked for a reboot; a completed row has had all of them pass |
| `Interleaving.HandleKeeps` | internal/server/handlers/ws.go:255-263 | writing an update of an arbitrarily stale copy of a row keeps every claim true |
| `Interleaving.StepKeeps` | internal/agent/agent.go:256-380 | each action of agents, network and server keeps the invariant that every index held anywhere is a true claim |
| `Transparency.EndsAsUninterrupted` | internal/agent/agent.go:256-380 | in every history without loss, whenever a deployment is completed or failed, the steps it executed in order, its status and its error are those of one uninterrupted execution with the outcomes drawn |
| `Transparency.ExecutedOnceInOrder` | internal/agent/agent.go:263-268 | in every such history the executions of a deployment are of the steps 0, 1, 2, ..., once each and in this order |
| `Transparency.NothingStartedTwice` | internal/agent/agent.go:309-328 | each run of a deployment starts exactly after the last step that the run before it started |
| `Transparency.RebootingInBetween` | internal/server/handlers/ws.go:165-175 | between two runs the deployment is rebooting, its resume index is the number of steps executed, and the rest of the uninterrupted execution is what is left from there |
| `Transparency.EndedByReboot` | internal/server/service/manager.go:73-86 | a run that is over while its deployment is active ended by a reboot request, and the resume index is strictly beyond where it started |
| `Completion.CanFinish` | internal/agent/agent.go:92-121 | from every state of such a history, for all outcomes of the remaining steps, the run's own steps and one registration and connect after each reboot lead to a finished deployment |
| `Completion.ConnectStep` | internal/server/handlers/ws.go:18-61 | after a reboot, the connect starts a run of the same deployment from strictly further on |
| `Reference.UninterruptedPasses` | internal/agent/agent.go:263-379 | the reference goes on as long as steps succeed, fail with continue-on-error or ask for a reboot |
| `SingleRun.ExactResume` | internal/server/handlers/ws.go:125-175 | in every history the resume index is where the last run started plus the completions and reboots that arrived from it |
| `SingleRun.ProgressIsKept` | internal/server/handlers/ws.go:110-227 | between any two moments of a history a resume index never falls, and a finished deployment does not change at all |
| `SingleRun.FinishedExactly` | internal/server/handlers/ws.go:177-227 | the finishing time is set exactly when the status is completed or failed, and the resume index stays within the playbook |
| `SingleRun.RepeatsAreLost` | internal/agent/agent.go:256-380 | a run that resumes a deployment starts no further than the previous run had begun and repeats at most one step more than the completions that were lost |
| `SingleRun.ArriveRow` | internal/server/handlers/ws.go:110-227 | each message of a run moves the row so that it again says exactly what has arrived |
| `SingleRun.IdleAllowsEvents` | internal/server/handlers/ws.go:18-72 | while the agent is idle the single-run regime excludes no event of the server |
| `SingleRun.ArrivesInOrder` | internal/agent/agent.go:491-544 | in any interleaving of the writer, the socket carries the first k of an attempt's messages for some k |
| `Pushes.PushResumesOrStarts` | internal/server/service/manager.go:73-113 | a push resumes an active deployment at its index or starts a new one at 0; it never reopens a finished one |
| `Pushes.PushTargetsLatest` | internal/server/service/manager.go:52-139 | in every history every push is of the agent's most recently started deployment, of the assigned playbook, from its resume index |
| `Pushes.AssignmentDeploysOnce` | internal/server/service/manager.go:32-113 | after an assignment any history without another assignment creates at most one new deployment for the agent, and deployments keep agent, playbook and start time |
| `Pushes.PushOutcome` | internal/server/service/manager.go:66-113 | a push stores and sends nothing, or the latest active deployment, or a new one, the last only if forced or if the latest deployment is of another playbook; when each happens is in `Effects` |
| `Pushes.SettledStep` | internal/server/service/manager.go:73-113 | an agent whose latest deployment is of its playbook gets no further one from any event that does not reassign it |
| `Effects.PushStarts` | internal/server/service/manager.go:87-137 | without a deployment, with a latest one of another playbook, or when forced after the end of one of this playbook: exactly one new running row at step 0, the agent deploying, and one push |
| `Effects.PushResumes` | internal/server/service/manager.go:75-86 | while the latest deployment is of this playbook and pending, running or rebooting: it is pushed from its resume index and marked running, forced or not |
| `Effects.PushSkips` | internal/server/service/manager.go:54-64 | nothing changes exactly if there is nothing to push, or the latest deployment is of this playbook and completed or failed and nothing is forced |
| `Effects.ConnectStarts` | internal/server/handlers/ws.go:37-61 | the same start for a connect, which marks the agent connected and seen first |
| `Effects.ConnectResumesRow` | internal/server/handlers/ws.go:37-61 | the same resumption for a connect |
| `Effects.ConnectSkips` | internal/server/handlers/ws.go:37-61 | exactly when a connect pushes nothing, and that the agent then is connected and nothing else changed |
| `Effects.AssignSets` | internal/server/service/manager.go:32-48 | afterwards the agent's playbook is the assigned one; nothing more happens while it is not connected |
| `Effects.AssignStarts` | internal/server/service/manager.go:41-47 | to a connected agent a new deployment starts, unless one of this playbook is under way |
| `Effects.AssignResumes` | internal/server/service/manager.go:41-47 | one that is under way is pushed again from its resume index |
| `Effects.AssignPushes` | internal/server/service/manager.go:41-47 | an accepted assignment to a connected agent always pushes exactly once |
| `Effects.MessageAgents` | internal/server/handlers/ws.go:177-227 | the sender is completed after deploy_done, failed after deploy_failed, and unchanged after any other message |
| `Effects.MessageRow` | internal/server/handlers/ws.go:110-227 | the row named by each of the six messages, with its finishing time the moment of the message |
| `Effects.MessageOtherRows` | internal/server/handlers/ws.go:255-263 | no other row changes, and an unknown deployment creates none |
| `Effects.RegisterRecord` | internal/server/handlers/auth.go:251-283 | the record of an accepted registration, new or kept with its id, registration time and playbook |
| `Effects.RegisterRefused` | internal/server/handlers/auth.go:230-241 | a registration without hostname, known platform or configured secret changes nothing |
| `Effects.ExpiryIs` | internal/server/handlers/auth.go:34-38 | tokens expire after thirty days by default, after the configured hours otherwise |
| `Effects.RequestMarks` | internal/server/handlers/auth.go:92-109 | an authenticated request marks its agent as seen now, and connected if it was offline |
| `Effects.RefreshSwaps` | internal/server/handlers/token.go:8-30 | the token table after a refresh |
| `Effects.DisconnectMarks` | internal/server/handlers/ws.go:46-53 | a connected agent goes offline, one in another status stays as it is |
| `Effects.PatchSets` | internal/server/handlers/admin.go:266-275 | what is given is set, what is not stays |
| `Effects.DeleteDrops` | internal/server/store/store.go:100-107 | agent and tokens go, deployments stay |
| `Lifecycle.TokenDiscipline` | internal/server/handlers/auth.go:220-299 | every reachable state has at most one unrevoked token per agent and no token without its agent |
| `Lifecycle.RejectedForever` | internal/server/handlers/auth.go:70-86 | a token that is rejected once is rejected after every further history |
| `Lifecycle.RefreshHasNoGap` | internal/server/handlers/token.go:8-30 | between the two steps of a refresh the old token works as before and the new one until it expires, both for the same agent; afterwards the old one is revoked |
| `Lifecycle.RegisterLeavesOne` | internal/server/handlers/auth.go:284-290 | an accepted registration leaves its agent exactly the token it answers with, and other agents theirs |
| `Lifecycle.RefreshReplaces` | internal/server/handlers/token.go:16-27 | a refresh run as one step replaces exactly the presented token by the one it answers with |
| `Refreshes.OneTokenExactly` | internal/server/handlers/token.go:8-30 | over all histories of authenticating, issuing, revoking and other handlers: an agent whose refreshes have ended has exactly one unrevoked token if and only if those that issued since its last registration authenticated since then and presented different tokens; it has at least one in any case |
| `Refreshes.TokensLeft` | internal/server/handlers/token.go:16-27 | the tokens left are those issued since the last registration except the ones presented |
| `Refreshes.OverlappingRefreshes` | internal/server/handlers/token.go:13-27 | two refreshes of one token that both issue before either revokes leave two tokens, in any state |
| `Refreshes.RefreshAcrossRegistration` | internal/server/handlers/token.go:13-27 | so does a refresh that authenticated before its machine registered again and issues afterwards |
| `Refreshes.NestedRefreshes` | internal/server/handlers/token.go:13-27 | a whole refresh of the new token inside the refresh that issued it leaves one |
| `Lifecycle.OneAgentPerMachine` | internal/server/handlers/auth.go:243-258 | no reachable state has two agents with the same non-empty trimmed machine id |
| `Lifecycle.IdentityKept` | internal/server/store/store.go:181-205 | through any history an agent that is not deleted keeps machine and registration time, and its playbook unless reassigned |
| `Lifecycle.AnswersOwnAgent` | internal/server/handlers/auth.go:243-258 | a registration answers with an existing agent if and only if the trimmed machine id is that agent's and not empty |
| `Lifecycle.NamelessMachine` | internal/server/handlers/auth.go:244-258 | without a machine id it makes a new agent, which has no playbook and no deployment |
| `Lifecycle.RebootFindsDeployment` | internal/server/handlers/auth.go:243-299 | after any such history, registering the machine again gives the same agent id and connecting with the new token resumes its active deployment |
| `Lifecycle.RegisterEffect` | internal/server/handlers/auth.go:251-290 | an accepted registration keeps the old record's id, registration time and playbook, revokes its tokens and issues one |
| `Servers.StepKeeps` | internal/server/handlers/ws.go:18-263 | every handler keeps: tokens of existing agents only, one agent per machine, distinct start times |
| `Servers.DeleteKeeps` | internal/server/store/store.go:100-107 | deleting an agent takes its tokens with it |
| `Tables.SomeLatest` | internal/server/store/store.go:315-329 | the latest-deployment lookup finds a row whenever the agent has one |
| `Tables.Store.GetActiveDeploymentForAgent` | internal/server/store/store.go:315-329 | returns a row of the agent with the greatest start time, the only one if start times differ, and none exactly if there is no row |
| `Tables.Store.SaveDeployment` | internal/server/store/store.go:285-301 | the row is stored, except that a row that was there keeps its start time; other rows and tables are untouched |
| `Tables.Store.SaveAgent` | internal/server/store/store.go:181-205 | the agent is stored, except that one that was there keeps its registration time; other agents and tables are untouched |
| `Tables.Store.DeleteAgent` | internal/server/store/store.go:242-245 | the agent and every token of it are gone, and nothing of any other agent |
| `Tables.Store.CreateAgentToken` | internal/server/store/store.go:717-727 | fails exactly for a hash or id that is taken or an agent that does not exist; older tokens are untouched |
| `Tables.Store.RevokeAgentToken` | internal/server/store/store.go:745-750 | the token with this id is stamped, a revoked one again; its other fields and all other tokens are untouched |
| `Tables.Store.RevokeAllAgentTokens` | internal/server/store/store.go:752-757 | the agent has no unrevoked token left; stamps of revoked ones and other agents' tokens are untouched |
| `Handlers.Handler.AgentIdFromToken` | internal/server/handlers/auth.go:70-86 | grants exactly a known, unrevoked, unexpired token, to the agent it was issued to |
| `Handlers.Handler.IssueAgentToken` | internal/server/handlers/auth.go:28-50 | stores the hash of a fresh token with the configured expiry, 720 hours if that is 0 |
| `Handlers.Handler.HandleAgentRegister` | internal/server/handlers/auth.go:220-299 | registers exactly if hostname, platform and a configured secret are given, otherwise refuses with the first of the three that is wrong; answers with the machine's agent and a fresh token |
| `Handlers.Handler.FindAgent` | internal/server/handlers/auth.go:243-252 | the search over all agents finds the agent of the machine exactly if there is one |
| `Handlers.Handler.HandleTokenRefresh` | internal/server/handlers/token.go:8-30 | answers with the new token exactly if the request authenticates, and that token authenticates the same agent until it expires; the presented token is revoked |
| `Handlers.Handler.RequireAgentAuth` | internal/server/handlers/auth.go:92-109 | authenticates and marks the agent as seen, offline agents as connected |
| `Handlers.Handler.PushPlaybookIfAssigned` | internal/server/service/manager.go:52-139 | does what `Effects.PushStarts`, `PushResumes` and `PushSkips` say, call by call |
| `Handlers.Handler.AssignPlaybookToAgent` | internal/server/service/manager.go:32-48 | both not-found errors in order; otherwise stores the assignment and pushes to a connected agent |
| `Handlers.Handler.Connect` | internal/server/handlers/ws.go:18-61 | accepts exactly a valid token, marks the agent connected and pushes |
| `Handlers.Handler.Disconnect` | internal/server/handlers/ws.go:46-56 | unregisters, and marks a connected agent offline |
| `Handlers.Handler.HandleWSMessage` | internal/server/handlers/ws.go:75-227 | does what `Effects.MessageAgents`, `MessageRow` and `MessageOtherRows` say, and keeps the invariant |
| `Handlers.Handler.UpdateAgent` | internal/server/handlers/admin.go:248-276 | changes the playbook and the status that are given |
| `Handlers.Handler.DeleteAgent` | internal/server/handlers/admin.go:278-287 | deletes the agent and keeps the invariant |
| `Runner.RunPlaybook` | internal/agent/agent.go:256-380 | the loop sends exactly the messages of `RunTrace` |
| `Runner.RunGrammar` | internal/agent/agent.go:256-380 | a run is contiguous start/complete pairs from its resume index and one ending: done, start and reboot to the next step, or start and failure |
| `Runner.NewRunTrace` | internal/agent/agent.go:256-263 | the run as a state machine has the whole trace before it |
| `Runner.SendTakesFirst` | internal/agent/agent.go:263-379 | and each of its sends is the first message of what remains |
| `Playbooks.FlattenPlaybook` | internal/common/types.go:65-81 | the double loop computes the flattening |
| `Playbooks.StepAt` | internal/common/types.go:65-81 | at the number of steps in earlier jobs plus its own position, the flattening holds each step of each job, with the job's name, both positions and the global index |
| `Playbooks.StepOf` | internal/common/types.go:65-81 | every position holds exactly one step of one job, with that job's name and positions, and its global index is the position |
| `Grammar.Counts` | internal/agent/agent.go:256-380 | how many steps a run began and reported, from the number of its messages |
| `Writer.WirePrefix` | internal/agent/agent.go:491-544 | in every interleaving the wire is a prefix of what was accepted; accepted is written, at most one lost, one in hand and the buffered; and each sender's messages arrive as a prefix of those it sent |
| `Writer.DropIsFinal` | internal/agent/agent.go:524-539 | after the first dropped message the wire never grows |
| `Writer.ConservedStep` | internal/agent/agent.go:498-519 | each step conserves messages between channel and wire |
| `Commands.DoneMeansComplete` | internal/agent/agent.go:438-482 | for any chunking, interleaving and point of loss: a session is done exactly when all messages of its command arrived, its output is always a prefix of the sanitized lines, and when done all of them, with the command's own exit code, or 1 and the reason if it could not be run |
| `Commands.SnapshotsGrow` | internal/server/handlers/handler.go:156-219 | an earlier snapshot's output is a prefix of every later one's, and done stays done |
| `Commands.SessionIsOwnTalk` | internal/server/handlers/handler.go:194-219 | a session depends only on the messages about its own command |
| `Commands.RunCommand` | internal/agent/agent.go:438-482 | sends the sanitized lines in order and then one completion with the command's exit code and error |
| `Commands.CommandStore.AppendOutput` | internal/server/handlers/handler.go:194-204 | the line is the session's last one, its other fields and all other sessions are untouched, and unknown commands change nothing |
| `Commands.CommandStore.SetDone` | internal/server/handlers/handler.go:207-219 | the session is done with exit code and error, its output and all other sessions are untouched |
| `Commands.CommandStore.HandleMessage` | internal/server/handlers/ws.go:229-248 | dispatches both kinds of command message |
| `Hubs.HubSafe` | internal/server/handlers/handler.go:54-98 | over all histories no stop channel is closed twice, registered connections are open, queues hold at most 64 and lose nothing |
| `Hubs.EntryIsLastRegistered` | internal/server/handlers/handler.go:54-69 | an agent has an entry exactly if its last register or unregister was a register, and then it is that connection |
| `Hubs.ReplacedConnectionEvictsSuccessor` | internal/server/handlers/ws.go:46-47 | when the handler of a replaced connection ends, the new connection stays open but is unreachable |
| `Hubs.Hub.Send` | internal/server/handlers/handler.go:80-98 | true exactly when the agent is registered, the message encodes and fewer than 64 are queued, and then the message is the last of that queue |
| `Hubs.Hub.Register` | internal/server/handlers/handler.go:54-62 | the new connection is the agent's, open and empty; the previous one is closed; other agents and connections are untouched; it panics exactly if the previous one had been closed |
| `Secrets.ResolveSecrets` | internal/common/types.go:87-105 | whenever the rewriting ends, the loop returns its normal form |
| `Secrets.SinglePassExactly` | internal/common/types.go:87-105 | the loop is single-pass substitution on every template if and only if no secret a reference can reach could begin a reference |
| `Secrets.InertSuffices` | internal/common/types.go:87-105 | with such secrets each reference is replaced by the value of its trimmed name, or "" |
| `Secrets.DollarFreeVault` | internal/common/types.go:87-105 | values without `$` are such secrets |
| `Secrets.TameHalts` | internal/common/types.go:91-103 | the loop ends on every text when some delimiter character is in no value |
| `Nesting.EndsExactly` | internal/common/types.go:87-105 | for secrets whose values are templates: the loop ends on every template if and only if no secret refers to itself, directly or through others |
| `Nesting.CycleNeverEnds` | internal/common/types.go:91-103 | it never ends on a template that refers to a secret on a cycle |
| `Nesting.Apart` | internal/common/types.go:91-103 | if the loop ends on a template it ends on both parts of it, in as many iterations together |
| `Secrets.ResolvedIsFixpoint` | internal/common/types.go:87-105 | resolving twice is resolving once |
| `Secrets.ResolveEnvSecrets` | internal/common/types.go:109-118 | same keys, each value resolved |
| `Secrets.EnvFixpoint` | internal/common/types.go:109-118 | resolving an environment twice is resolving it once |
| `Strings.IndexSpec` | internal/common/types.go:92-96 | the first occurrence, or -1 when there is none |
| `Strings.TrimSpaceLongest` | internal/common/types.go:101 | the trimmed text is the longest part with no space at either end |
| `Strings.SpaceIs` | internal/common/types.go:101 | which characters are space |
| `Lines.DrainPipeLines` | internal/agent/executor/executor.go:42-62 | for every way of cutting the stream into reads the lines are the split of the whole stream, without a trailing empty piece |
| `Lines.SplitUnique` | internal/agent/executor/executor.go:49-53 | the split is the only sequence of newline-free pieces that rebuilds the stream |
| `Lines.LinesExactly` | internal/agent/executor/executor.go:49-59 | the lines are the only newline-free texts such that the stream is each of them followed by a newline, the last one possibly without it if it is not empty |
| `Lines.FeedChunk` | internal/agent/executor/executor.go:47-54 | after each read, complete lines and leftover rebuild what was read so far |
| `Sanitize.ErasesStyling` | internal/agent/executor/executor.go:21-37 | text with two-byte escapes and control sequences in it (section 5.4 of ECMA-48) comes out as exactly the text |
| `Sanitize.SanitizedIsClean` | internal/agent/executor/executor.go:29-37 | no control character except tab remains, and sanitizing is idempotent |
| `Sanitize.ErasesOnlyControls` | internal/agent/executor/executor.go:29-37 | every input reads as text, whole escape sequences and stray control characters, and only the text remains |
| `Ulid.NewUlid` | internal/common/id.go:14-52 | the array filled cell by cell holds the time digits and the random digits |
| `Ulid.AlphabetIsCrockford` | internal/common/id.go:9 | the alphabet is the digits and capital letters without I, L, O and U, increasing |
| `Ulid.TimeOrder` | internal/common/id.go:17-28 | for times below 2^48 the order of the first ten characters is the order of time |
| `Ulid.RandomValue` | internal/common/id.go:30-50 | the sixteen characters in base 32 and the ten bytes in base 256 are the same number |
| `Ulid.RandomRoundTrip` | internal/common/id.go:30-50 | the bytes can be decoded from the characters |
| `Ulid.UlidInjective` | internal/common/id.go:14-52 | equal identifiers come from equal times and equal bytes |

## Left out

- TameHalts: arbitrary values need a delimiter character that none of them contains; `EndsExactly` is exact for values that are templates, and values that open a reference without closing it are in neither.
- ResolveSecrets: stated for the inputs on which the loop ends, since on the others the code does not return.
- SanitizeLine on invalid UTF-8: the code turns such bytes into U+FFFD, the model keeps bytes as they are.
- Log messages, and the log lines that handlers add: nothing in the protocol reads them.
- The text around a failure: the code sends `step "x" failed: ...`, the model the bare error.
- `step_failed` messages: the server's handler is modelled, no agent sends them, and `SingleRun` and `Transparency` have none.
- Editing and deleting playbooks, and deleting deployments, during a deployment.
- Other columns of agents (operating system, model, vendor, address, shells) and of deployments (names, update time).
- Sessions of the command store are values in its map, so that holding on to a session object while it changes is not modelled.
- A push is recorded as handed to the hub; `Server` keeps which agents are connected and not the queues, which `Hub` models.
- HTTP, JSON and YAML decoding, UI, pagination, UI login and root authentication.
- Processes, shells, artifacts, reboot calls, hardware probing, pings and timeouts.
- SQL, time formatting, cryptography and the overflow of durations.
