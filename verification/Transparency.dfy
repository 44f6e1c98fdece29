/** Reboots are transparent: over all histories of one agent's runs in which no message is lost
    and the agent stops only after its run, every step is executed once and in order, and a
    finished deployment ended as it would have without reboots. */
module Transparency {
  import opened Options
  import opened Playbooks
  import opened Runner
  import opened Grammar
  import opened Deployments
  import opened Tables
  import opened Servers
  import opened Reference
  import opened SingleRun

  ghost predicate Lossless(states: seq<State>, actions: seq<Action>) {
    |states| == |actions| + 1 && forall i :: 0 <= i < |actions| ==> Keeps(states[i], actions[i])
  }

  /** The action loses nothing: no connection breaks, and the agent stops only after its run. */
  predicate Keeps(s: State, action: Action) {
    && !action.LoseConnection?
    && (action.Die? && s.attempts != [] ==> s.attempts[|s.attempts| - 1].run.phase.Over?)
  }

  // ── What was executed ────────────────────────────────────────────────────

  /** The executions of one deployment. */
  function LogOf(log: seq<Execution>, dep: DeploymentId): seq<Execution> {
    if log == [] then []
    else LogOf(log[..|log| - 1], dep) + if log[|log| - 1].dep == dep then [log[|log| - 1]] else []
  }

  lemma LogOfAppend(log: seq<Execution>, e: Execution, dep: DeploymentId)
    ensures LogOf(log + [e], dep) == LogOf(log, dep) + if e.dep == dep then [e] else []
  {
    assert (log + [e])[..|log|] == log;
  }

  ghost predicate InOrder(l: seq<Execution>) {
    forall k :: 0 <= k < |l| ==> l[k].step == k
  }

  /** The first `k` executions let the run go on, at once or after a reboot. */
  ghost predicate AllPass(flat: seq<OrderedStep>, l: seq<Execution>, k: int) {
    k <= |l| && k <= |flat| && forall j :: 0 <= j < k ==> Passes(flat[j].step, l[j].outcome)
  }

  /** How many steps of its deployment are executed once a run is where it is. */
  function Done(r: Run): nat {
    match r.phase
    case Ready => r.at
    case Executing => r.at
    case Finished(_) => r.at + 1
    case Over => if r.at == |r.flat| then r.at else r.at + 1
  }

  /** The last run and the executions of its deployment. */
  ghost predicate Fits(a: Attempt, l: seq<Execution>) {
    var r := a.run;
    && r.at <= |r.flat| && |l| == Done(r)
    && match r.phase
       case Ready => AllPass(r.flat, l, |l|)
       case Executing => AllPass(r.flat, l, |l|)
       case Finished(o) => r.at < |r.flat| && AllPass(r.flat, l, r.at) && l[r.at].outcome == o
       case Over =>
         && a.emitted != []
         && var m := a.emitted[|a.emitted| - 1];
            if r.at == |r.flat| then AllPass(r.flat, l, |l|) && m == DeployDone(r.dep)
            else
              && AllPass(r.flat, l, r.at) && !Continues(r.flat[r.at].step, l[r.at].outcome)
              && m == StepEnd(r.dep, r.at, r.flat[r.at].step, l[r.at].outcome)
  }

  /** A finished deployment and its executions. */
  ghost predicate Told(row: Deployment, flat: seq<OrderedStep>, l: seq<Execution>) {
    match row.status
    case Completed => |l| == |flat| && AllPass(flat, l, |l|) && row.error == ""
    case Failed =>
      && 0 < |l| <= |flat| && AllPass(flat, l, |l| - 1)
      && l[|l| - 1].outcome == Failure(row.error) && !flat[|l| - 1].step.continueOnError
    case _ => true
  }

  ghost predicate AllTold(rows: Rows, books: Books, me: AgentId, log: seq<Execution>) {
    forall id :: RowOf(rows, id, me) && Known(rows, books, id) ==>
      Told(rows[id], Flatten(PlaybookOf(rows, books, id)), LogOf(log, id))
  }

  /** The runs of a deployment begin where the one before had begun its last step. */
  ghost predicate Seamless(attempts: seq<Attempt>) {
    forall i :: 0 < i < |attempts| && attempts[i].run.dep == attempts[i - 1].run.dep ==>
      attempts[i].from == attempts[i - 1].from + Starts(attempts[i - 1].emitted)
  }

  ghost predicate LogOk(attempts: seq<Attempt>, log: seq<Execution>) {
    && (forall dep: DeploymentId :: InOrder(LogOf(log, dep)))
    && (forall dep: DeploymentId :: LogOf(log, dep) != [] ==> attempts != [] && dep <= attempts[|attempts| - 1].run.dep)
    && (attempts != [] ==>
          var last := attempts[|attempts| - 1];
          Fits(last, LogOf(log, last.run.dep)))
  }

  /** All attempts are up and follow on each other, whatever becomes of the last one's run. */
  ghost predicate Whole(attempts: seq<Attempt>) {
    (forall i :: 0 <= i < |attempts| ==> attempts[i].up) && Seamless(attempts)
  }

  lemma StaysWhole(attempts: seq<Attempt>, a: Attempt)
    requires Whole(attempts) && attempts != [] && a.up
    requires a.run.dep == attempts[|attempts| - 1].run.dep && a.from == attempts[|attempts| - 1].from
    ensures Whole(attempts[|attempts| - 1 := a])
  {
  }

  ghost predicate Faithful(rows: Rows, books: Books, me: AgentId, attempts: seq<Attempt>, log: seq<Execution>) {
    Whole(attempts) && LogOk(attempts, log) && AllTold(rows, books, me, log)
  }

  ghost predicate TInv(w: World, s: State) {
    SInv(w, s) && Faithful(s.server.db.deployments, s.server.db.playbooks, w.me, s.attempts, s.log)
  }

  // ── The run's own steps ──────────────────────────────────────────────────

  lemma SendFits(a: Attempt, l: seq<Execution>)
    requires ValidRun(a.run) && Fits(a, l) && Runner.Pending(a.run) != []
    ensures Fits(a.(run := AfterSend(a.run), emitted := a.emitted + [Runner.Pending(a.run)[0]]), l)
  {
  }

  lemma ExecuteFits(a: Attempt, l: seq<Execution>, o: Outcome)
    requires ValidRun(a.run) && a.run.phase.Executing? && Fits(a, l)
    ensures Fits(a.(run := a.run.(phase := Finished(o))), l + [Execution(a.run.dep, a.run.at, o)])
  {
    var l' := l + [Execution(a.run.dep, a.run.at, o)];
    assert forall j :: 0 <= j < |l| ==> l'[j] == l[j];
  }

  /** Replacing the last attempt by one with the same deployment and start. */
  lemma ReplaceLast(rows: Rows, books: Books, me: AgentId, attempts: seq<Attempt>, log: seq<Execution>, a: Attempt)
    requires Faithful(rows, books, me, attempts, log) && attempts != [] && a.up
    requires a.run.dep == attempts[|attempts| - 1].run.dep && a.from == attempts[|attempts| - 1].from
    requires Fits(a, LogOf(log, a.run.dep))
    ensures Faithful(rows, books, me, attempts[|attempts| - 1 := a], log)
  {
    StaysWhole(attempts, a);
  }

  lemma SendStep(w: World, s: State, s': State)
    requires TInv(w, s) && Next(w, s, Send, s')
    ensures TInv(w, s')
  {
    RunStep(w, s, Send, s');
    var last := s.attempts[|s.attempts| - 1];
    SendFits(last, LogOf(s.log, last.run.dep));
    ReplaceLast(s.server.db.deployments, s.server.db.playbooks, w.me, s.attempts, s.log, s'.attempts[|s.attempts| - 1]);
  }

  /** The last row is not finished while its run executes. */
  lemma ExecutingIsActive(a: Attempt, row: Deployment)
    requires SoundAttempt(a) && a.run.phase.Executing? && Tracks(row, a)
    ensures Active(row)
  {
    var seen := a.emitted[..a.delivered];
    if seen != [] {
      assert GoodAt(a.emitted, a.delivered - 1, a.run.dep, a.from, |a.run.flat|);
    }
  }

  lemma ExecuteLogOk(attempts: seq<Attempt>, log: seq<Execution>, o: Outcome)
    requires LogOk(attempts, log) && attempts != [] && ValidRun(attempts[|attempts| - 1].run)
    requires attempts[|attempts| - 1].run.phase.Executing?
    ensures var last := attempts[|attempts| - 1];
      LogOk(attempts[|attempts| - 1 := last.(run := last.run.(phase := Finished(o)))],
            log + [Execution(last.run.dep, last.run.at, o)])
  {
    var last := attempts[|attempts| - 1];
    var e := Execution(last.run.dep, last.run.at, o);
    forall dep: DeploymentId ensures LogOf(log + [e], dep) == LogOf(log, dep) + if e.dep == dep then [e] else [] {
      LogOfAppend(log, e, dep);
    }
    ExecuteFits(last, LogOf(log, last.run.dep), o);
  }

  lemma ExecuteFaithful(rows: Rows, books: Books, me: AgentId, attempts: seq<Attempt>, log: seq<Execution>, o: Outcome)
    requires Faithful(rows, books, me, attempts, log) && attempts != [] && SoundAttempt(attempts[|attempts| - 1])
    requires attempts[|attempts| - 1].run.phase.Executing?
    requires var last := attempts[|attempts| - 1]; last.run.dep in rows && Tracks(rows[last.run.dep], last)
    ensures var last := attempts[|attempts| - 1];
      Faithful(rows, books, me, attempts[|attempts| - 1 := last.(run := last.run.(phase := Finished(o)))],
               log + [Execution(last.run.dep, last.run.at, o)])
  {
    var last := attempts[|attempts| - 1];
    ExecuteLogOk(attempts, log, o);
    StaysWhole(attempts, last.(run := last.run.(phase := Finished(o))));
    ExecutingIsActive(last, rows[last.run.dep]);
    ExecuteTold(rows, books, me, last.run.dep, log, Execution(last.run.dep, last.run.at, o));
  }

  lemma ExecuteTold(rows: Rows, books: Books, me: AgentId, dep: DeploymentId, log: seq<Execution>, e: Execution)
    requires AllTold(rows, books, me, log) && e.dep == dep && dep in rows && Active(rows[dep])
    ensures AllTold(rows, books, me, log + [e])
  {
    forall id | RowOf(rows, id, me) && Known(rows, books, id)
      ensures Told(rows[id], Flatten(PlaybookOf(rows, books, id)), LogOf(log + [e], id))
    {
      LogOfAppend(log, e, id);
      if id != dep {
        assert LogOf(log, id) + [] == LogOf(log, id);
        assert Told(rows[id], Flatten(PlaybookOf(rows, books, id)), LogOf(log, id));
      }
    }
  }

  lemma ExecuteStep(w: World, s: State, o: Outcome, s': State)
    requires TInv(w, s) && Next(w, s, Execute(o), s')
    ensures TInv(w, s')
  {
    RunStep(w, s, Execute(o), s');
    assert SoundAttempt(s.attempts[|s.attempts| - 1]);
    ExecuteFaithful(s.server.db.deployments, s.server.db.playbooks, w.me, s.attempts, s.log, o);
  }

  // ── A message arrives ────────────────────────────────────────────────────

  /** The end of a run that arrives is the end its executions call for. */
  lemma ArriveTold(a: Attempt, l: seq<Execution>, row: Deployment, now: nat)
    requires SoundAttempt(a) && Fits(a, l) && a.delivered < |a.emitted| && Tracks(row, a)
    requires Active(row) ==> row.error == ""
    ensures Told(Apply(row, a.emitted[a.delivered], now), a.run.flat, l)
  {
    var k, m := a.delivered, a.emitted[a.delivered];
    UnderWay(a, |a.run.flat|);
    assert GoodAt(a.emitted, k, a.run.dep, a.from, |a.run.flat|);
    if k > 0 {
      assert GoodAt(a.emitted, k - 1, a.run.dep, a.from, |a.run.flat|);
    }
  }

  lemma UpdateTold(rows: Rows, books: Books, me: AgentId, log: seq<Execution>, row: Deployment)
    requires AllTold(rows, books, me, log) && row.id in rows && row.playbook == rows[row.id].playbook &&
        row.playbook in books
    requires Told(row, Flatten(books[row.playbook]), LogOf(log, row.id))
    ensures AllTold(rows[row.id := row], books, me, log)
  {
    var rows' := rows[row.id := row];
    forall id | RowOf(rows', id, me) && Known(rows', books, id)
      ensures Told(rows'[id], Flatten(PlaybookOf(rows', books, id)), LogOf(log, id))
    {
      if id != row.id {
        assert Told(rows[id], Flatten(PlaybookOf(rows, books, id)), LogOf(log, id));
      }
    }
  }

  /** What is told about the last run's row once its oldest message under way has arrived. */
  lemma ArriveRowTold(rows: Rows, books: Books, me: AgentId, a: Attempt, log: seq<Execution>, now: nat, row: Deployment)
    requires SoundAttempt(a) && AttemptOf(rows, books, me, a) && RowOk(rows, books, a.run.dep) &&
        Tracks(rows[a.run.dep], a)
    requires Fits(a, LogOf(log, a.run.dep)) && a.delivered < |a.emitted|
    requires row.id == a.run.dep && row == Apply(rows[row.id], a.emitted[a.delivered], now)
    ensures row.playbook == rows[row.id].playbook && row.playbook in books
    ensures Told(row, Flatten(books[row.playbook]), LogOf(log, row.id))
  {
    ArriveTold(a, LogOf(log, a.run.dep), rows[a.run.dep], now);
  }

  lemma ArriveFaithful(rows: Rows, books: Books, me: AgentId, attempts: seq<Attempt>, log: seq<Execution>,
      now: nat, row: Deployment)
    requires Faithful(rows, books, me, attempts, log) && attempts != []
    requires var last := attempts[|attempts| - 1];
      && SoundAttempt(last) && AttemptOf(rows, books, me, last) && RowOk(rows, books, last.run.dep)
      && Tracks(rows[last.run.dep], last) && last.delivered < |last.emitted| && row.id == last.run.dep
      && row == Apply(rows[row.id], last.emitted[last.delivered], now)
    ensures var last := attempts[|attempts| - 1];
      Faithful(rows[row.id := row], books, me, attempts[|attempts| - 1 := last.(delivered := last.delivered + 1)], log)
  {
    var last := attempts[|attempts| - 1];
    ArriveRowTold(rows, books, me, last, log, now, row);
    UpdateTold(rows, books, me, log, row);
    FaithfulApart(rows, rows[row.id := row], books, me, attempts, log);
    ReplaceLast(rows[row.id := row], books, me, attempts, log, last.(delivered := last.delivered + 1));
  }

  lemma FaithfulApart(rows: Rows, rows': Rows, books: Books, me: AgentId, attempts: seq<Attempt>, log: seq<Execution>)
    requires Faithful(rows, books, me, attempts, log) && AllTold(rows', books, me, log)
    ensures Faithful(rows', books, me, attempts, log)
  {
  }

  lemma LastSound(rows: Rows, books: Books, me: AgentId, attempts: seq<Attempt>)
    requires Sound(rows, books, me, attempts) && attempts != []
    ensures var last := attempts[|attempts| - 1];
      && SoundAttempt(last) && AttemptOf(rows, books, me, last)
      && RowOk(rows, books, last.run.dep) && Tracks(rows[last.run.dep], last)
  {
    assert AttemptOf(rows, books, me, attempts[|attempts| - 1]);
  }

  lemma ArriveStateFaithful(me: AgentId, s: State, s': State, row: Deployment)
    requires Sound(s.server.db.deployments, s.server.db.playbooks, me, s.attempts) && s.attempts != []
    requires Faithful(s.server.db.deployments, s.server.db.playbooks, me, s.attempts, s.log)
    requires var last, rows := s.attempts[|s.attempts| - 1], s.server.db.deployments;
      && last.delivered < |last.emitted| && row.id == last.run.dep && row.id in rows
      && row == Apply(rows[row.id], last.emitted[last.delivered], s.server.clock)
      && s'.server.db.deployments == rows[row.id := row] && s'.server.db.playbooks == s.server.db.playbooks
    requires s'.attempts == AfterArrival(s.attempts) && s'.log == s.log
    ensures Faithful(s'.server.db.deployments, s'.server.db.playbooks, me, s'.attempts, s'.log)
  {
    LastSound(s.server.db.deployments, s.server.db.playbooks, me, s.attempts);
    ArriveFaithful(s.server.db.deployments, s.server.db.playbooks, me, s.attempts, s.log, s.server.clock, row);
  }

  lemma ArriveKeeps(w: World, s: State, s': State)
    requires TInv(w, s) && Next(w, s, Arrive, s')
    ensures TInv(w, s')
  {
    var row := ArriveStep(w, s, s');
    ArriveStateFaithful(w.me, s, s', row);
  }

  // ── Other events at the server ───────────────────────────────────────────

  lemma SameRowsFaithful(rows: Rows, rows': Rows, books: Books, me: AgentId, attempts: seq<Attempt>,
      log: seq<Execution>)
    requires Faithful(rows, books, me, attempts, log) && SameRows(rows, rows', me)
    ensures Faithful(rows', books, me, attempts, log)
  {
    forall id | RowOf(rows', id, me) && Known(rows', books, id)
      ensures Told(rows'[id], Flatten(PlaybookOf(rows', books, id)), LogOf(log, id))
    {
      assert RowOf(rows, id, me);
      assert Told(rows[id], Flatten(PlaybookOf(rows, books, id)), LogOf(log, id));
    }
  }

  /** A run that is over and whose messages have all arrived, of a deployment that is not
      finished: it ended by a reboot, and the server knows how far it got. */
  lemma EndedByReboot(a: Attempt, l: seq<Execution>, row: Deployment)
    requires SoundAttempt(a) && Fits(a, l) && a.run.phase.Over? && a.delivered == |a.emitted|
    requires Tracks(row, a) && Active(row)
    ensures row.status.Rebooting? && a.run.at < |a.run.flat|
    ensures Reached(a) == |l| == a.from + Starts(a.emitted) && AllPass(a.run.flat, l, |l|)
    ensures |l| > a.from
  {
    var k := |a.emitted| - 1;
    assert a.emitted[..a.delivered] == a.emitted;
    assert GoodAt(a.emitted, k, a.run.dep, a.from, |a.run.flat|);
    Counts(a.emitted, a.run.dep, a.from, |a.run.flat|);
  }

  /** The run that a push starts fits the executions of its deployment. */
  lemma PushedFits(rows: Rows, books: Books, me: AgentId, attempts: seq<Attempt>, log: seq<Execution>,
      d: Deployment, a: Attempt)
    requires Sound(rows, books, me, attempts) && Faithful(rows, books, me, attempts, log) && Stored(rows, books, me, d)
    requires attempts != [] ==>
      attempts[|attempts| - 1].run.phase.Over? &&
          attempts[|attempts| - 1].delivered == |attempts[|attempts| - 1].emitted|
    requires a.run.dep == d.id && a.from == d.resume == a.run.at && a.run.phase.Ready?
    requires a.run.flat == Flatten(books[d.playbook]) && a.run.at <= |a.run.flat|
    ensures Fits(a, LogOf(log, d.id))
    ensures attempts != [] && attempts[|attempts| - 1].run.dep == d.id ==>
      a.from == attempts[|attempts| - 1].from + Starts(attempts[|attempts| - 1].emitted)
    ensures attempts != [] ==> attempts[|attempts| - 1].run.dep <= d.id
  {
    StoredFollows(rows, books, me, attempts, d, a);
    if attempts == [] {
      assert !RowOf(rows, d.id, me);
    } else {
      var last := attempts[|attempts| - 1];
      assert SoundAttempt(last) && AttemptOf(rows, books, me, last);
      assert IsLatest(rows, me, last.run.dep);
      if d.id in rows {
        StoredSame(rows, books, me, last.run.dep, d);
        EndedByReboot(last, LogOf(log, last.run.dep), rows[d.id]);
      }
    }
  }

  lemma StoredSame(rows: Rows, books: Books, me: AgentId, dep: DeploymentId, d: Deployment)
    requires RowIds(rows) && Stored(rows, books, me, d) && d.id in rows && IsLatest(rows, me, dep)
    ensures d.id == dep
  {
    var rows' := rows[d.id := d];
    assert dep in rows' && rows'[dep].startedAt <= d.startedAt;
    assert d.startedAt <= rows[dep].startedAt;
  }

  lemma PushedFaithful(rows: Rows, books: Books, me: AgentId, attempts: seq<Attempt>, log: seq<Execution>,
      d: Deployment)
    requires Sound(rows, books, me, attempts) && Faithful(rows, books, me, attempts, log) && Stored(rows, books, me, d)
    requires attempts != [] ==>
      attempts[|attempts| - 1].run.phase.Over? &&
          attempts[|attempts| - 1].delivered == |attempts[|attempts| - 1].emitted|
    ensures var rows' := rows[d.id := d];
      Faithful(rows', books, me, attempts + [Accepted(rows', books, Push(d.id, d.resume))], log)
  {
    var rows' := rows[d.id := d];
    var a := Accepted(rows', books, Push(d.id, d.resume));
    StoredRows(rows, books, me, attempts, d);
    assert RowOf(rows', d.id, me) && RowOk(rows', books, d.id);
    PushedFits(rows, books, me, attempts, log, d, a);
    PushedTold(rows, books, me, log, d);
    FaithfulApart(rows, rows', books, me, attempts, log);
    AppendAttempt(rows', books, me, attempts, log, a);
  }

  lemma PushedTold(rows: Rows, books: Books, me: AgentId, log: seq<Execution>, d: Deployment)
    requires AllTold(rows, books, me, log) && d.status.Running?
    ensures AllTold(rows[d.id := d], books, me, log)
  {
    var rows' := rows[d.id := d];
    forall id | RowOf(rows', id, me) && Known(rows', books, id)
      ensures Told(rows'[id], Flatten(PlaybookOf(rows', books, id)), LogOf(log, id))
    {
      if id != d.id {
        assert Told(rows[id], Flatten(PlaybookOf(rows, books, id)), LogOf(log, id));
      }
    }
  }

  lemma AppendAttempt(rows: Rows, books: Books, me: AgentId, attempts: seq<Attempt>, log: seq<Execution>, a: Attempt)
    requires Faithful(rows, books, me, attempts, log) && a.up && Fits(a, LogOf(log, a.run.dep))
    requires attempts != [] && attempts[|attempts| - 1].run.dep == a.run.dep ==>
      a.from == attempts[|attempts| - 1].from + Starts(attempts[|attempts| - 1].emitted)
    requires attempts != [] ==> attempts[|attempts| - 1].run.dep <= a.run.dep
    ensures Faithful(rows, books, me, attempts + [a], log)
  {
  }

  /** What an event does to the attempts. */
  lemma HappenedAttempts(w: World, s: State, e: Event, s': State) returns (d: Option<Deployment>)
    requires Inv(s.server) && Next(w, s, Happens(e), s')
    ensures Means(w.me, s.server, s'.server, d) && s'.log == s.log
    ensures d.None? ==> s'.attempts == s.attempts
    ensures d.Some? ==>
      && Idle(s)
      && s'.attempts == s.attempts
           + [Accepted(s'.server.db.deployments, s.server.db.playbooks, Push(d.value.id, d.value.resume))]
  {
    var server;
    server, d := EventMeaning(w, s.server, e);
  }

  lemma HappensKeeps(w: World, s: State, e: Event, s': State)
    requires TInv(w, s) && Next(w, s, Happens(e), s')
    ensures TInv(w, s')
  {
    var d := HappenedAttempts(w, s, e, s');
    HappensStep(w, s, e, s');
    MeansFaithful(w.me, s, s', d);
  }

  lemma MeansFaithful(me: AgentId, s: State, s': State, d: Option<Deployment>)
    requires Sound(s.server.db.deployments, s.server.db.playbooks, me, s.attempts)
    requires Faithful(s.server.db.deployments, s.server.db.playbooks, me, s.attempts, s.log)
    requires Means(me, s.server, s'.server, d) && s'.log == s.log
    requires d.None? ==> s'.attempts == s.attempts
    requires d.Some? ==>
      && Idle(s)
      && s'.attempts == s.attempts
           + [Accepted(s'.server.db.deployments, s.server.db.playbooks, Push(d.value.id, d.value.resume))]
    ensures Faithful(s'.server.db.deployments, s'.server.db.playbooks, me, s'.attempts, s'.log)
  {
    var rows, books := s.server.db.deployments, s.server.db.playbooks;
    if d.Some? {
      PushedFaithful(rows, books, me, s.attempts, s.log, d.value);
    } else {
      SameRowsFaithful(rows, s'.server.db.deployments, books, me, s.attempts, s.log);
    }
  }

  lemma StepKeepsFaith(w: World, s: State, action: Action, s': State)
    requires TInv(w, s) && Next(w, s, action, s') && Keeps(s, action)
    ensures TInv(w, s')
  {
    match action
    case Happens(e) => HappensKeeps(w, s, e, s');
    case Send => SendStep(w, s, s');
    case Execute(o) => ExecuteStep(w, s, o, s');
    case Arrive => ArriveKeeps(w, s, s');
    case Die => assert s'.attempts == s.attempts;
  }

  // ── Over all histories ───────────────────────────────────────────────────

  lemma {:induction false} ReachableFaithful(w: World, states: seq<State>, actions: seq<Action>, i: nat)
    requires Behaviour(w, states, actions) && Lossless(states, actions) && i < |states|
    ensures TInv(w, states[i])
  {
    if i > 0 {
      ReachableFaithful(w, states, actions, i - 1);
      StepKeepsFaith(w, states[i - 1], actions[i - 1], states[i]);
    }
  }

  /** Every deployment's executions are of the steps 0, 1, 2, ..., once each and in this order. */
  lemma ExecutedOnceInOrder(w: World, states: seq<State>, actions: seq<Action>, i: nat, dep: DeploymentId, k: nat)
    requires Behaviour(w, states, actions) && Lossless(states, actions) && i < |states|
    requires k < |LogOf(states[i].log, dep)|
    ensures LogOf(states[i].log, dep)[k].step == k
  {
    ReachableFaithful(w, states, actions, i);
  }

  /** Each run of a deployment starts the step after the last one that the run before it started. */
  lemma NothingStartedTwice(w: World, states: seq<State>, actions: seq<Action>, i: nat, k: nat)
    requires Behaviour(w, states, actions) && Lossless(states, actions) && i < |states|
    requires 0 < k < |states[i].attempts| && states[i].attempts[k - 1].run.dep == states[i].attempts[k].run.dep
    ensures states[i].attempts[k].from == states[i].attempts[k - 1].from + Starts(states[i].attempts[k - 1].emitted)
  {
    ReachableFaithful(w, states, actions, i);
  }

  ghost predicate Agrees(outcome: nat -> Outcome, l: seq<Execution>) {
    forall k :: 0 <= k < |l| ==> outcome(k) == l[k].outcome
  }

  lemma ToldIsUninterrupted(row: Deployment, flat: seq<OrderedStep>, l: seq<Execution>, outcome: nat -> Outcome)
    requires Told(row, flat, l) && (row.status.Completed? || row.status.Failed?) && Agrees(outcome, l)
    ensures |l| <= |flat| && Uninterrupted(flat, 0, outcome) == Report(Range(0, |l|), row.status, row.error)
  {
    if row.status.Completed? {
      UninterruptedPasses(flat, 0, |l|, outcome);
      assert Range(0, |l|) + [] == Range(0, |l|);
    } else {
      var k := |l| - 1;
      UninterruptedPasses(flat, 0, k, outcome);
      assert Range(0, k) + [k] == Range(0, |l|);
    }
  }

  /** Whenever a deployment is completed or failed: the steps it executed, in order, its status
      and its error are those of one uninterrupted execution with the outcomes that were drawn. */
  lemma EndsAsUninterrupted(w: World, states: seq<State>, actions: seq<Action>, i: nat, id: DeploymentId,
      outcome: nat -> Outcome)
    requires Behaviour(w, states, actions) && Lossless(states, actions) && i < |states|
    requires RowOf(states[i].server.db.deployments, id, w.me) && Agrees(outcome, LogOf(states[i].log, id))
    requires var row := states[i].server.db.deployments[id]; row.status.Completed? || row.status.Failed?
    ensures var rows, books, l := states[i].server.db.deployments, states[i].server.db.playbooks,
        LogOf(states[i].log, id);
      && Known(rows, books, id)
      && Uninterrupted(Flatten(PlaybookOf(rows, books, id)), 0, outcome)
         == Report(StepsOf(l), rows[id].status, rows[id].error)
  {
    ReachableFaithful(w, states, actions, i);
    var rows, books, l := states[i].server.db.deployments, states[i].server.db.playbooks, LogOf(states[i].log, id);
    RowIsTold(rows, books, w.me, states[i].attempts, states[i].log, id);
    ToldIsUninterrupted(rows[id], Flatten(PlaybookOf(rows, books, id)), l, outcome);
    StepsInOrder(l);
  }

  lemma RowIsTold(rows: Rows, books: Books, me: AgentId, attempts: seq<Attempt>, log: seq<Execution>, id: DeploymentId)
    requires RowsOk(rows, books, me) && Faithful(rows, books, me, attempts, log) && RowOf(rows, id, me)
    ensures Known(rows, books, id) && Told(rows[id], Flatten(PlaybookOf(rows, books, id)), LogOf(log, id))
    ensures InOrder(LogOf(log, id))
  {
    assert RowOk(rows, books, id);
  }

  /** The steps of these executions. */
  function StepsOf(l: seq<Execution>): (steps: seq<nat>)
    ensures |steps| == |l| && forall k :: 0 <= k < |l| ==> steps[k] == l[k].step
  {
    seq(|l|, k requires 0 <= k < |l| => l[k].step)
  }

  lemma StepsInOrder(l: seq<Execution>)
    requires InOrder(l)
    ensures StepsOf(l) == Range(0, |l|)
  {
  }

  /** Whenever the agent is idle and its last deployment is not finished: it is rebooting, its
      resume index is the number of steps executed, and what an uninterrupted execution would do
      is what was done and then the rest from that index. */
  lemma RebootingInBetween(w: World, states: seq<State>, actions: seq<Action>, i: nat, outcome: nat -> Outcome)
    requires Behaviour(w, states, actions) && Lossless(states, actions) && i < |states|
    requires states[i].attempts != [] && Idle(states[i])
    requires var last := states[i].attempts[|states[i].attempts| - 1];
      && last.run.dep in states[i].server.db.deployments && Active(states[i].server.db.deployments[last.run.dep])
      && Agrees(outcome, LogOf(states[i].log, last.run.dep))
    ensures var last := states[i].attempts[|states[i].attempts| - 1];
      var row, l := states[i].server.db.deployments[last.run.dep], LogOf(states[i].log, last.run.dep);
      && row.status.Rebooting? && row.resume == |l| <= |last.run.flat|
      && var rest := Uninterrupted(last.run.flat, |l|, outcome);
         Uninterrupted(last.run.flat, 0, outcome) == rest.(executed := Range(0, |l|) + rest.executed)
  {
    ReachableFaithful(w, states, actions, i);
    var last := states[i].attempts[|states[i].attempts| - 1];
    var row, l := states[i].server.db.deployments[last.run.dep], LogOf(states[i].log, last.run.dep);
    assert SoundAttempt(last);
    EndedByReboot(last, l, row);
    UninterruptedPasses(last.run.flat, 0, |l|, outcome);
  }
}
