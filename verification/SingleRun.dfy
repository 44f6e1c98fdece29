/** One run of an agent at a time: its messages arrive in order, a lost connection loses a
    suffix of them, and nobody pushes to the agent while a run of it is under way. The server
    is the whole of `Servers`: every other event, about this agent or others, may happen in
    between. */
module SingleRun {
  import opened Options
  import opened Playbooks
  import opened Runner
  import opened Grammar
  import opened Deployments
  import opened Tables
  import opened Servers
  import opened Pushes
  import Writer

  /** A run the agent made: from which step, what it said, how much of that arrived, and
      whether its connection is up. A dead run's phase is `Over`. */
  datatype Attempt = Attempt(run: Run, from: int, emitted: seq<Message>, delivered: nat, up: bool)

  /** A step that was executed, for which deployment, and how it turned out. */
  datatype Execution = Execution(dep: DeploymentId, step: nat, outcome: Outcome)

  /** `log` records all executions, in order. */
  datatype State = State(server: Server, attempts: seq<Attempt>, log: seq<Execution>)

  /** The fixed surroundings: the server's configuration and the agent in question. */
  datatype World = World(config: Config, me: AgentId)

  datatype Action =
    | Happens(e: Event)      // any event at the server
    | Send                   // the run sends its next message
    | Execute(o: Outcome)    // the run executes its step, with any outcome
    | Arrive                 // the oldest message under way reaches the server
    | LoseConnection         // messages under way, and later ones, are lost
    | Die                    // the agent process stops: crash, kill or reboot

  ghost predicate Init(s: State) {
    Servers.Init(s.server) && s.attempts == [] && s.log == []
  }

  /** No run is under way, and nothing that one said can still arrive. */
  predicate Idle(s: State) {
    s.attempts == [] ||
    var last := s.attempts[|s.attempts| - 1];
    last.run.phase.Over? && (!last.up || last.delivered == |last.emitted|)
  }

  ghost predicate PushesTo(s: Server, s': Server, me: AgentId) {
    |s'.pushes| > |s.pushes| && s'.pushes[|s'.pushes| - 1].0 == me
  }

  type Rows = map<DeploymentId, Deployment>
  type Books = map<PlaybookId, Playbook>

  ghost predicate RowOf(rows: Rows, id: DeploymentId, agent: AgentId) {
    id in rows && rows[id].agent == agent
  }

  /** The playbook of a stored deployment exists. */
  predicate Known(rows: Rows, books: Books, id: DeploymentId) {
    id in rows && rows[id].playbook in books
  }

  function PlaybookOf(rows: Rows, books: Books, id: DeploymentId): Playbook
    requires Known(rows, books, id)
  {
    books[rows[id].playbook]
  }

  /** The agent starts a run of what was pushed. */
  function Accepted(rows: Rows, books: Books, push: Push): Attempt
    requires Known(rows, books, push.dep)
  {
    Attempt(NewRun(push.dep, PlaybookOf(rows, books, push.dep), push.resume), push.resume, [], 0, true)
  }

  function SetLast(s: State, a: Attempt): State
    requires s.attempts != []
  {
    s.(attempts := s.attempts[|s.attempts| - 1 := a])
  }

  ghost predicate Happened(w: World, s: State, e: Event, s': State) {
    var rows, books := s'.server.db.deployments, s'.server.db.playbooks;
    && !(e.Deliver? && RowOf(s.server.db.deployments, e.m.dep, w.me))
    && s'.server == After(s.server, w.config, e) && s'.log == s.log
    && if PushesTo(s.server, s'.server, w.me) then
         var push := s'.server.pushes[|s'.server.pushes| - 1].1;
         Idle(s) && Known(rows, books, push.dep) && s'.attempts == s.attempts + [Accepted(rows, books, push)]
       else s'.attempts == s.attempts
  }

  ghost predicate Next(w: World, s: State, action: Action, s': State) {
    if action.Happens? then Happened(w, s, action.e, s')
    else
      && s.attempts != []
      && var last := s.attempts[|s.attempts| - 1];
         match action
         case Send =>
           && ValidRun(last.run) && Runner.Pending(last.run) != []
           && s' == SetLast(s, last.(run := AfterSend(last.run),
               emitted := last.emitted + [Runner.Pending(last.run)[0]]))
         case Execute(o) =>
           && last.run.phase.Executing?
           && s' == SetLast(s, last.(run := last.run.(phase := Finished(o))))
                      .(log := s.log + [Execution(last.run.dep, last.run.at, o)])
         case Arrive =>
           && last.up && last.delivered < |last.emitted|
           && s' == SetLast(s, last.(delivered := last.delivered + 1))
                      .(server := AfterMessage(s.server, w.me, last.emitted[last.delivered]))
         case LoseConnection => s' == SetLast(s, last.(up := false))
         case Die => s' == SetLast(s, last.(run := last.run.(phase := Over)))
         case Happens(_) => false
  }

  // ── What a run said and what arrived ─────────────────────────────────────

  /** The step the server knows a run to have reached. */
  function Reached(a: Attempt): int
    requires a.delivered <= |a.emitted|
  {
    a.from + Completions(a.emitted[..a.delivered])
  }

  /** The run's position matches what it said. */
  ghost predicate InStep(a: Attempt) {
    match a.run.phase
    case Ready => |a.emitted| == 2 * (a.run.at - a.from) && Open(a.emitted)
    case Executing => |a.emitted| == 2 * (a.run.at - a.from) + 1 && Open(a.emitted)
    case Finished(_) => |a.emitted| == 2 * (a.run.at - a.from) + 1 && Open(a.emitted)
    case Over => true
  }

  /** By itself an attempt is a run that said what such a run says. */
  ghost predicate SoundAttempt(a: Attempt) {
    && ValidRun(a.run) && a.from >= 0 && a.delivered <= |a.emitted|
    && Good(a.emitted, a.run.dep, a.from, |a.run.flat|)
    && InStep(a)
  }

  /** The attempt runs the playbook of a deployment of this agent. */
  ghost predicate AttemptOf(rows: Rows, books: Books, me: AgentId, a: Attempt) {
    && RowOf(rows, a.run.dep, me) && Known(rows, books, a.run.dep)
    && a.run.flat == Flatten(PlaybookOf(rows, books, a.run.dep))
  }

  ghost predicate RowOk(rows: Rows, books: Books, id: DeploymentId) {
    && Known(rows, books, id)
    && 0 <= rows[id].resume <= StepCount(PlaybookOf(rows, books, id))
    && (rows[id].finishedAt.Some? <==> !Active(rows[id]))
    && (Active(rows[id]) ==> rows[id].error == "")
  }

  /** The row of the last run says what arrived of it. */
  ghost predicate Tracks(row: Deployment, a: Attempt) {
    && a.delivered <= |a.emitted|
    && row.resume == Reached(a)
    && Stands(row, a.emitted[..a.delivered])
  }

  /** How a deployment stands after the given messages of its last run. */
  ghost predicate Stands(row: Deployment, ms: seq<Message>) {
    if ms == [] then row.status.Running? && row.error == ""
    else match ms[|ms| - 1]
      case Reboot(_, _) => row.status.Rebooting? && row.error == ""
      case DeployDone(_) => row.status.Completed? && row.error == ""
      case DeployFailed(_, _, error) => row.status.Failed? && row.error == error
      case _ => row.status.Running? && row.error == ""
  }

  /** A run goes on with a deployment where the run before it had got to as far as the server
      knows, or starts a later deployment from its first step. */
  ghost predicate Follows(a: Attempt, b: Attempt) {
    && a.delivered <= |a.emitted|
    && a.run.dep <= b.run.dep
    && b.from == if a.run.dep == b.run.dep then Reached(a) else 0
  }

  ghost predicate RowIds(rows: Rows) {
    forall id :: id in rows ==> rows[id].id == id == rows[id].startedAt
  }

  ghost predicate RowsOk(rows: Rows, books: Books, me: AgentId) {
    forall id :: RowOf(rows, id, me) ==> RowOk(rows, books, id)
  }

  ghost predicate Attempts(rows: Rows, books: Books, me: AgentId, attempts: seq<Attempt>) {
    && (forall i :: 0 <= i < |attempts| ==> SoundAttempt(attempts[i]))
    && (forall i :: 0 <= i < |attempts| ==> AttemptOf(rows, books, me, attempts[i]))
  }

  ghost predicate Chained(attempts: seq<Attempt>) {
    && (attempts != [] ==> attempts[0].from == 0)
    && (forall i :: 0 < i < |attempts| ==> Follows(attempts[i - 1], attempts[i]))
  }

  ghost predicate LastTracked(rows: Rows, me: AgentId, attempts: seq<Attempt>) {
    if attempts == [] then forall id :: !RowOf(rows, id, me)
    else
      var last := attempts[|attempts| - 1];
      IsLatest(rows, me, last.run.dep) && Tracks(rows[last.run.dep], last)
  }

  /** The runs of an agent and its rows. */
  ghost predicate Sound(rows: Rows, books: Books, me: AgentId, attempts: seq<Attempt>) {
    && RowIds(rows) && RowsOk(rows, books, me)
    && Attempts(rows, books, me, attempts) && Chained(attempts) && LastTracked(rows, me, attempts)
  }

  ghost predicate SInv(w: World, s: State) {
    Inv(s.server) && Sound(s.server.db.deployments, s.server.db.playbooks, w.me, s.attempts)
  }

  /** Progress is never lost, and a finished deployment never changes again. */
  ghost predicate Progress(me: AgentId, rows: Rows, rows': Rows) {
    forall id :: RowOf(rows, id, me) ==>
      && RowOf(rows', id, me)
      && rows[id].resume <= rows'[id].resume
      && (!Active(rows[id]) ==> rows'[id] == rows[id])
  }

  // ── The run's own steps ──────────────────────────────────────────────────

  /** Replacing the last attempt by one of which the same has arrived. */
  lemma LocalStep(rows: Rows, books: Books, me: AgentId, attempts: seq<Attempt>, a: Attempt)
    requires Sound(rows, books, me, attempts) && attempts != [] && SoundAttempt(a)
    requires var last := attempts[|attempts| - 1];
      a.run.dep == last.run.dep && a.run.flat == last.run.flat && a.from == last.from && a.delivered == last.delivered
      && a.emitted[..a.delivered] == last.emitted[..a.delivered]
    ensures Sound(rows, books, me, attempts[|attempts| - 1 := a])
  {
  }

  lemma SendOk(a: Attempt)
    requires SoundAttempt(a) && Runner.Pending(a.run) != []
    ensures SoundAttempt(a.(run := AfterSend(a.run), emitted := a.emitted + [Runner.Pending(a.run)[0]]))
  {
    var m := Runner.Pending(a.run)[0];
    assert GoodAt(a.emitted + [m], |a.emitted|, a.run.dep, a.from, |a.run.flat|);
    GoodAppend(a.emitted, m, a.run.dep, a.from, |a.run.flat|);
  }

  lemma RunStep(w: World, s: State, action: Action, s': State)
    requires SInv(w, s) && Next(w, s, action, s') && !action.Happens? && !action.Arrive?
    ensures SInv(w, s') && s'.server == s.server
  {
    var last := s.attempts[|s.attempts| - 1];
    assert SoundAttempt(last);
    var a := s'.attempts[|s.attempts| - 1];
    if action.Send? {
      SendOk(last);
      assert a.emitted[..a.delivered] == last.emitted[..a.delivered];
    }
    LocalStep(s.server.db.deployments, s.server.db.playbooks, w.me, s.attempts, a);
  }

  // ── A message arrives ────────────────────────────────────────────────────

  /** As long as something is under way, what has arrived counts one completion per two
      messages and has not ended the deployment. */
  lemma UnderWay(a: Attempt, n: nat)
    requires a.from >= 0 && Good(a.emitted, a.run.dep, a.from, n) && a.delivered < |a.emitted|
    ensures Reached(a) == a.from + a.delivered / 2 && !Ended(a.emitted[..a.delivered])
  {
    GoodPrefix(a.emitted, a.delivered, a.run.dep, a.from, n);
    Counts(a.emitted[..a.delivered], a.run.dep, a.from, n);
    if a.delivered > 0 {
      assert GoodAt(a.emitted, a.delivered - 1, a.run.dep, a.from, n);
    }
  }

  /** The update a message of the run makes: the row goes on saying what has arrived. */
  lemma ArriveRow(row: Deployment, a: Attempt, n: nat, now: nat)
    requires a.from >= 0 && Good(a.emitted, a.run.dep, a.from, n) && a.delivered < |a.emitted|
    requires Tracks(row, a) && (row.finishedAt.Some? <==> !Active(row)) && (Active(row) ==> row.error == "")
    ensures var row', a' := Apply(row, a.emitted[a.delivered], now), a.(delivered := a.delivered + 1);
      && a.emitted[a.delivered].dep == a.run.dep && Active(row)
      && Tracks(row', a') && row.resume <= row'.resume <= n
      && (row'.finishedAt.Some? <==> !Active(row')) && (Active(row') ==> row'.error == "")
  {
    UnderWay(a, n);
    var m, k := a.emitted[a.delivered], a.delivered;
    assert GoodAt(a.emitted, k, a.run.dep, a.from, n);
    if k > 0 {
      assert GoodAt(a.emitted, k - 1, a.run.dep, a.from, n);
    }
    var seen := a.emitted[..k + 1];
    assert seen[..k] == a.emitted[..k] && seen[k] == m;
  }

  ghost predicate SamePlace(row: Deployment, row': Deployment) {
    row'.id == row.id && row'.agent == row.agent && row'.playbook == row.playbook && row'.startedAt == row.startedAt
  }

  /** Updating a row in place keeps all that is about other rows. */
  lemma UpdateRow(rows: Rows, books: Books, me: AgentId, attempts: seq<Attempt>, row: Deployment)
    requires RowIds(rows) && RowsOk(rows, books, me) && Attempts(rows, books, me, attempts)
    requires RowOf(rows, row.id, me) && SamePlace(rows[row.id], row)
    requires RowOk(rows[row.id := row], books, row.id)
    ensures var rows' := rows[row.id := row];
      && RowIds(rows') && RowsOk(rows', books, me) && Attempts(rows', books, me, attempts)
      && (IsLatest(rows, me, row.id) ==> IsLatest(rows', me, row.id))
  {
    var rows' := rows[row.id := row];
    forall id | RowOf(rows', id, me) ensures RowOk(rows', books, id) {
      assert RowOf(rows, id, me);
    }
    forall i | 0 <= i < |attempts| ensures AttemptOf(rows', books, me, attempts[i]) {
      assert AttemptOf(rows, books, me, attempts[i]);
    }
  }

  /** Updating the row of the last attempt together with what arrived of it. */
  lemma UpdateLast(rows: Rows, books: Books, me: AgentId, attempts: seq<Attempt>, row: Deployment)
    requires Sound(rows, books, me, attempts) && attempts != []
    requires var last := attempts[|attempts| - 1];
      last.delivered < |last.emitted| && row.id == last.run.dep && Tracks(row, last.(delivered := last.delivered + 1))
    requires SamePlace(rows[row.id], row) && RowOk(rows[row.id := row], books, row.id)
    ensures var last := attempts[|attempts| - 1];
      Sound(rows[row.id := row], books, me, attempts[|attempts| - 1 := last.(delivered := last.delivered + 1)])
  {
    UpdateRow(rows, books, me, attempts, row);
  }

  /** The oldest message under way of the last attempt, applied to its row. */
  lemma ArriveOk(rows: Rows, books: Books, me: AgentId, a: Attempt, now: nat) returns (row: Deployment)
    requires SoundAttempt(a) && AttemptOf(rows, books, me, a) && a.delivered < |a.emitted|
    requires RowIds(rows) && RowOk(rows, books, a.run.dep) && Tracks(rows[a.run.dep], a)
    ensures a.emitted[a.delivered].dep == a.run.dep == row.id && row == Apply(rows[row.id], a.emitted[a.delivered], now)
    ensures SamePlace(rows[row.id], row) && RowOk(rows[row.id := row], books, row.id)
    ensures Tracks(row, a.(delivered := a.delivered + 1))
    ensures Active(rows[row.id]) && rows[row.id].resume <= row.resume
  {
    var dep := a.run.dep;
    ArriveRow(rows[dep], a, |a.run.flat|, now);
    row := Apply(rows[dep], a.emitted[a.delivered], now);
  }

  lemma ArriveSound(rows: Rows, books: Books, me: AgentId, attempts: seq<Attempt>, now: nat) returns (row: Deployment)
    requires Sound(rows, books, me, attempts) && attempts != []
    requires attempts[|attempts| - 1].delivered < |attempts[|attempts| - 1].emitted|
    ensures var last := attempts[|attempts| - 1];
      var m := last.emitted[last.delivered];
      && m.dep in rows && row == Apply(rows[m.dep], m, now) && row.id == m.dep == last.run.dep
      && Sound(rows[row.id := row], books, me, attempts[|attempts| - 1 := last.(delivered := last.delivered + 1)])
      && Progress(me, rows, rows[row.id := row])
  {
    var last := attempts[|attempts| - 1];
    assert SoundAttempt(last) && AttemptOf(rows, books, me, last);
    assert RowOk(rows, books, last.run.dep);
    row := ArriveOk(rows, books, me, last, now);
    UpdateLast(rows, books, me, attempts, row);
  }

  lemma MessageRow(s: Server, me: AgentId, m: Message)
    requires Inv(s) && m.dep in s.db.deployments
    ensures var db := AfterMessage(s, me, m).db;
      && db.playbooks == s.db.playbooks
      && db.deployments == s.db.deployments[m.dep := Apply(s.db.deployments[m.dep], m, s.clock)]
  {
  }

  lemma MessageServer(s: Server, me: AgentId, m: Message, row: Deployment)
    requires Inv(s) && m.dep in s.db.deployments && row.id == m.dep && row == Apply(s.db.deployments[m.dep], m, s.clock)
    ensures var s' := AfterMessage(s, me, m);
      && Inv(s') && s'.db.playbooks == s.db.playbooks && s'.db.deployments == s.db.deployments[row.id := row]
  {
    MessageKeeps(s, me, m);
    MessageRow(s, me, m);
  }

  /** The last attempt once its oldest message under way has arrived. */
  function AfterArrival(attempts: seq<Attempt>): seq<Attempt>
    requires attempts != []
  {
    var last := attempts[|attempts| - 1];
    attempts[|attempts| - 1 := last.(delivered := last.delivered + 1)]
  }

  lemma ArriveAtServer(me: AgentId, s: Server, attempts: seq<Attempt>) returns (row: Deployment, s': Server)
    requires Inv(s) && Sound(s.db.deployments, s.db.playbooks, me, attempts) && attempts != []
    requires attempts[|attempts| - 1].delivered < |attempts[|attempts| - 1].emitted|
    ensures var last, rows := attempts[|attempts| - 1], s.db.deployments;
      && s' == AfterMessage(s, me, last.emitted[last.delivered])
      && row.id == last.run.dep && row.id in rows && row == Apply(rows[row.id], last.emitted[last.delivered], s.clock)
      && s'.db.deployments == rows[row.id := row] && s'.db.playbooks == s.db.playbooks
      && Progress(me, rows, s'.db.deployments)
    ensures Inv(s') && Sound(s'.db.deployments, s'.db.playbooks, me, AfterArrival(attempts))
  {
    var last := attempts[|attempts| - 1];
    row := ArriveSound(s.db.deployments, s.db.playbooks, me, attempts, s.clock);
    s' := AfterMessage(s, me, last.emitted[last.delivered]);
    MessageServer(s, me, last.emitted[last.delivered], row);
  }

  lemma ArriveStep(w: World, s: State, s': State) returns (row: Deployment)
    requires SInv(w, s) && Next(w, s, Arrive, s')
    ensures SInv(w, s') && Progress(w.me, s.server.db.deployments, s'.server.db.deployments)
    ensures var last, rows := s.attempts[|s.attempts| - 1], s.server.db.deployments;
      && last.delivered < |last.emitted| && row.id == last.run.dep && row.id in rows
      && row == Apply(rows[row.id], last.emitted[last.delivered], s.server.clock)
      && s'.server.db.deployments == rows[row.id := row] && s'.server.db.playbooks == s.server.db.playbooks
    ensures s'.attempts == AfterArrival(s.attempts) && s'.log == s.log
  {
    var server;
    row, server := ArriveAtServer(w.me, s.server, s.attempts);
  }

  // ── Other events at the server ───────────────────────────────────────────

  ghost predicate SameRows(rows: Rows, rows': Rows, me: AgentId) {
    && RowIds(rows')
    && (forall id :: RowOf(rows', id, me) <==> RowOf(rows, id, me))
    && (forall id :: RowOf(rows, id, me) ==> rows'[id] == rows[id])
  }

  lemma SameRowsKeep(rows: Rows, rows': Rows, books: Books, me: AgentId, attempts: seq<Attempt>)
    requires Sound(rows, books, me, attempts) && SameRows(rows, rows', me)
    ensures Sound(rows', books, me, attempts) && Progress(me, rows, rows')
  {
    forall i | 0 <= i < |attempts| ensures AttemptOf(rows', books, me, attempts[i]) {
      assert AttemptOf(rows, books, me, attempts[i]);
    }
    forall id | RowOf(rows', id, me) ensures RowOk(rows', books, id) {
      assert RowOf(rows, id, me);
    }
    if attempts != [] {
      var dep := attempts[|attempts| - 1].run.dep;
      assert RowOf(rows', dep, me);
      forall j | RowOf(rows', j, me) ensures rows'[j].startedAt <= rows'[dep].startedAt {
        assert RowOf(rows, j, me);
      }
    }
  }

  /** An active row marked running again, or a new row with the largest id. */
  ghost predicate Stored(rows: Rows, books: Books, me: AgentId, d: Deployment) {
    && d.agent == me && d.status.Running? && d.playbook in books
    && IsLatest(rows[d.id := d], me, d.id)
    && if d.id in rows then Active(rows[d.id]) && d == Resumed(rows[d.id]) else NewRow(rows, d)
  }

  ghost predicate NewRow(rows: Rows, d: Deployment) {
    && d.id == d.startedAt && d.resume == 0 && d.finishedAt.None? && d.error == ""
    && forall id :: id in rows ==> id < d.id
  }

  lemma StoredRows(rows: Rows, books: Books, me: AgentId, attempts: seq<Attempt>, d: Deployment)
    requires Sound(rows, books, me, attempts) && Stored(rows, books, me, d)
    ensures var rows' := rows[d.id := d];
      RowIds(rows') && RowsOk(rows', books, me) && Attempts(rows', books, me, attempts) && Progress(me, rows, rows')
  {
    var rows' := rows[d.id := d];
    if d.id in rows {
      assert RowOk(rows, books, d.id);
      UpdateRow(rows, books, me, attempts, d);
    } else {
      forall id | RowOf(rows', id, me) ensures RowOk(rows', books, id) {
        assert id != d.id ==> RowOf(rows, id, me);
      }
      forall i | 0 <= i < |attempts| ensures AttemptOf(rows', books, me, attempts[i]) {
        assert AttemptOf(rows, books, me, attempts[i]);
      }
    }
  }

  /** The run of a stored row follows the last one. */
  lemma StoredFollows(rows: Rows, books: Books, me: AgentId, attempts: seq<Attempt>, d: Deployment, a: Attempt)
    requires Sound(rows, books, me, attempts) && Stored(rows, books, me, d)
    requires a.run.dep == d.id && a.from == d.resume
    ensures if attempts == [] then a.from == 0 else Follows(attempts[|attempts| - 1], a)
  {
    if attempts == [] {
      assert !RowOf(rows, d.id, me);
    } else {
      var last := attempts[|attempts| - 1];
      assert IsLatest(rows, me, last.run.dep);
      if d.id in rows {
        var rows' := rows[d.id := d];
        assert last.run.dep in rows' && rows'[last.run.dep].startedAt <= d.startedAt;
        assert d.startedAt <= rows[last.run.dep].startedAt;
      }
    }
  }

  lemma StoredSound(rows: Rows, books: Books, me: AgentId, attempts: seq<Attempt>, d: Deployment)
    requires Sound(rows, books, me, attempts) && Stored(rows, books, me, d)
    ensures var rows' := rows[d.id := d];
      && Sound(rows', books, me, attempts + [Accepted(rows', books, Push(d.id, d.resume))])
      && Progress(me, rows, rows')
  {
    var rows' := rows[d.id := d];
    var a := Accepted(rows', books, Push(d.id, d.resume));
    StoredRows(rows, books, me, attempts, d);
    assert RowOf(rows', d.id, me) && RowOk(rows', books, d.id);
    StoredFollows(rows, books, me, attempts, d, a);
    assert First(a.run.flat, d.resume) == d.resume;
    assert SoundAttempt(a);
    assert AttemptOf(rows', books, me, a);
  }

  /** What an event at the server means to this agent: a row stored and pushed, or nothing. */
  ghost predicate Means(me: AgentId, s: Server, s': Server, d: Option<Deployment>) {
    && s'.db.playbooks == s.db.playbooks
    && match d
       case None => SameRows(s.db.deployments, s'.db.deployments, me) && !PushesTo(s, s', me)
       case Some(row) =>
         && Stored(s.db.deployments, s.db.playbooks, me, row)
         && s'.db.deployments == s.db.deployments[row.id := row]
         && s'.pushes == s.pushes + [(me, Push(row.id, row.resume))]
  }

  lemma OutcomeMeans(me: AgentId, s: Server, e: Event, s': Server, agent: AgentId, d: Option<Deployment>)
    requires IdsOk(s) && IdsOk(s') && !(e.Deliver? && RowOf(s.db.deployments, e.m.dep, me))
    requires s'.db.playbooks == s.db.playbooks && IsOutcome(s, e, s', agent, d)
    ensures Means(me, s, s', if agent == me then d else None)
  {
  }

  lemma EventMeaning(w: World, s: Server, e: Event) returns (s': Server, d: Option<Deployment>)
    requires Inv(s) && !(e.Deliver? && RowOf(s.db.deployments, e.m.dep, w.me))
    ensures s' == After(s, w.config, e) && Inv(s') && Means(w.me, s, s', d)
  {
    StepKeeps(s, w.config, e);
    PlaybooksFixed(s, w.config, e);
    var agent;
    agent, d := EventOutcome(s, w.config, e);
    s' := After(s, w.config, e);
    OutcomeMeans(w.me, s, e, s', agent, d);
    d := if agent == w.me then d else None;
  }

  lemma HappensStep(w: World, s: State, e: Event, s': State)
    requires SInv(w, s) && Next(w, s, Happens(e), s')
    ensures SInv(w, s') && Progress(w.me, s.server.db.deployments, s'.server.db.deployments)
  {
    var server, d := EventMeaning(w, s.server, e);
    var rows, books := s.server.db.deployments, s.server.db.playbooks;
    if d.Some? {
      StoredSound(rows, books, w.me, s.attempts, d.value);
    } else {
      SameRowsKeep(rows, server.db.deployments, books, w.me, s.attempts);
    }
  }

  // ── Over all histories ───────────────────────────────────────────────────

  ghost predicate Behaviour(w: World, states: seq<State>, actions: seq<Action>) {
    && |states| == |actions| + 1
    && Init(states[0])
    && forall i :: 0 <= i < |actions| ==> Next(w, states[i], actions[i], states[i + 1])
  }

  lemma StepKeepsAll(w: World, s: State, action: Action, s': State)
    requires SInv(w, s) && Next(w, s, action, s')
    ensures SInv(w, s') && Progress(w.me, s.server.db.deployments, s'.server.db.deployments)
  {
    match action
    case Happens(e) => HappensStep(w, s, e, s');
    case Arrive => var row := ArriveStep(w, s, s');
    case _ => RunStep(w, s, action, s');
  }

  /** While the agent is idle the regime forbids no event except a forged message. */
  lemma IdleAllowsEvents(w: World, s: State, e: Event) returns (s': State)
    requires SInv(w, s) && Idle(s) && !(e.Deliver? && RowOf(s.server.db.deployments, e.m.dep, w.me))
    ensures Next(w, s, Happens(e), s')
  {
    var server, d := EventMeaning(w, s.server, e);
    if d.Some? {
      var push := Push(d.value.id, d.value.resume);
      s' := State(server, s.attempts + [Accepted(server.db.deployments, server.db.playbooks, push)], s.log);
    } else {
      s' := s.(server := server);
    }
  }

  lemma {:induction false} Reachable(w: World, states: seq<State>, actions: seq<Action>, i: nat)
    requires Behaviour(w, states, actions) && i < |states|
    ensures SInv(w, states[i])
  {
    if i > 0 {
      Reachable(w, states, actions, i - 1);
      StepKeepsAll(w, states[i - 1], actions[i - 1], states[i]);
    }
  }

  lemma ProgressNext(w: World, states: seq<State>, actions: seq<Action>, i: nat)
    requires Behaviour(w, states, actions) && i < |actions|
    ensures Progress(w.me, states[i].server.db.deployments, states[i + 1].server.db.deployments)
  {
    Reachable(w, states, actions, i);
    StepKeepsAll(w, states[i], actions[i], states[i + 1]);
  }

  lemma {:induction false} ProgressChain(me: AgentId, tables: seq<Rows>, i: nat, j: nat)
    requires forall k :: 0 <= k < |tables| - 1 ==> Progress(me, tables[k], tables[k + 1])
    requires i <= j < |tables|
    ensures Progress(me, tables[i], tables[j])
    decreases j
  {
    if i < j {
      ProgressChain(me, tables, i, j - 1);
      assert Progress(me, tables[j - 1], tables[j - 1 + 1]);
    }
  }

  /** At any two moments of any history, a deployment's resume index at the later one is no
      smaller, and a deployment that had finished is exactly as it was. */
  lemma ProgressIsKept(w: World, states: seq<State>, actions: seq<Action>, i: nat, j: nat)
    requires Behaviour(w, states, actions) && i <= j < |states|
    ensures Progress(w.me, states[i].server.db.deployments, states[j].server.db.deployments)
  {
    var tables := seq(|states|, k requires 0 <= k < |states| => states[k].server.db.deployments);
    forall k | 0 <= k < |tables| - 1 ensures Progress(w.me, tables[k], tables[k + 1]) {
      ProgressNext(w, states, actions, k);
    }
    ProgressChain(w.me, tables, i, j);
  }

  /** In every reachable state each deployment's resume index is within its playbook, and it
      has a finishing time exactly when it is completed or failed. */
  lemma FinishedExactly(w: World, states: seq<State>, actions: seq<Action>, i: nat, id: DeploymentId)
    requires Behaviour(w, states, actions) && i < |states| && RowOf(states[i].server.db.deployments, id, w.me)
    ensures var rows, books := states[i].server.db.deployments, states[i].server.db.playbooks;
      && Known(rows, books, id) && 0 <= rows[id].resume <= StepCount(PlaybookOf(rows, books, id))
      && (rows[id].finishedAt.Some? <==> rows[id].status.Completed? || rows[id].status.Failed?)
  {
    Reachable(w, states, actions, i);
    assert RowOk(states[i].server.db.deployments, states[i].server.db.playbooks, id);
  }

  /** Exact accounting: the resume index is where the last run started plus the completions
      and reboots that arrived from it. */
  lemma ExactResume(w: World, states: seq<State>, actions: seq<Action>, i: nat)
    requires Behaviour(w, states, actions) && i < |states| && states[i].attempts != []
    ensures var a, rows := states[i].attempts[|states[i].attempts| - 1], states[i].server.db.deployments;
      && a.delivered <= |a.emitted| && RowOf(rows, a.run.dep, w.me)
      && rows[a.run.dep].resume == a.from + Completions(a.emitted[..a.delivered])
  {
    Reachable(w, states, actions, i);
  }

  /** Consecutive runs of one deployment, in any history: the later one starts no further than
      the earlier one had begun, and repeats at most one step more than the number of the
      earlier run's completions that were lost. */
  lemma RepeatsAreLost(w: World, states: seq<State>, actions: seq<Action>, i: nat, k: nat)
    requires Behaviour(w, states, actions) && i < |states| && 0 < k < |states[i].attempts|
    requires states[i].attempts[k - 1].run.dep == states[i].attempts[k].run.dep
    ensures var a, b := states[i].attempts[k - 1], states[i].attempts[k];
      var begun := a.from + Starts(a.emitted);
      && a.delivered <= |a.emitted|
      && a.from <= b.from <= begun <= b.from + Completions(a.emitted[a.delivered..]) + 1
  {
    Reachable(w, states, actions, i);
    var a, b := states[i].attempts[k - 1], states[i].attempts[k];
    assert SoundAttempt(a) && Follows(a, b);
    OneMore(a.emitted, a.delivered, a.run.dep, a.from, |a.run.flat|);
  }

  // ── Why messages arrive this way ─────────────────────────────────────────

  /** `Arrive` and `LoseConnection` are what the agent's writer does: in any interleaving of
      runs, commands, writes and `Stop`, what the socket carries of an attempt's messages is the
      first `k` of them for some `k`. */
  lemma ArrivesInOrder(states: seq<Writer.State<Message>>, steps: seq<Writer.Step<Message>>, i: nat, from: nat,
      a: Attempt)
    returns (k: nat)
    requires Writer.Run(states, steps) && i < |states|
    requires Writer.Bodies(Writer.By(from, states[i].offered)) == a.emitted
    requires forall k :: 0 <= k < |states[i].offered| && states[i].offered[k].from == from ==>
        states[i].offered[k].msg.encodes
    ensures k <= |a.emitted| && Writer.Bodies(Writer.By(from, states[i].wire)) == a.emitted[..k]
  {
    Writer.SenderPrefix(states, steps, i, from);
    k := |Writer.By(from, states[i].wire)|;
  }
}
