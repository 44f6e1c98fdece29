/** Ad-hoc commands end to end: the agent runs a command and streams its output
    (internal/agent/agent.go), the server collects it in a session
    (internal/server/handlers/handler.go, ws.go) that an operator polls. */
module Commands {
  import opened Lines
  import opened Sanitize
  import Writer

  /** Agent-to-server messages, as far as command sessions care. */
  datatype Payload =
    | CommandStream(cmd: string, output: Text)
    | CommandCompleted(cmd: string, exitCode: int, error: string)
    | OtherMessage

  predicate About(p: Payload, cmd: string) {
    !p.OtherMessage? && p.cmd == cmd
  }

  // ── The agent's side ─────────────────────────────────────────────────────

  /** How starting the command went: an early failure, or a pipe to read and an exit status. */
  datatype Launch =
    | NotStarted(error: string)
    | Started(output: seq<Read>, exit: Exit)

  datatype Exit = Ok | ExitError(code: int) | WaitError(error: string)

  /** Everything a command produced: nothing if it never started. */
  function OutputOf(l: Launch): Text {
    match l
    case NotStarted(_) => []
    case Started(output, _) => Stream(output)
  }

  function Completion(cmd: string, l: Launch): Payload {
    match l
    case NotStarted(error) => CommandCompleted(cmd, 1, error)
    case Started(_, Ok) => CommandCompleted(cmd, 0, "")
    case Started(_, ExitError(code)) => CommandCompleted(cmd, code, "")
    case Started(_, WaitError(error)) => CommandCompleted(cmd, 1, error)
  }

  /** The exit code and error text that tell how a command went: its own exit code if it exited
      by itself, 1 and a reason if it could not be started or waited for. */
  predicate Reports(l: Launch, exitCode: int, error: string) {
    && (l.Started? && l.exit.Ok? ==> exitCode == 0 && error == "")
    && (l.Started? && l.exit.ExitError? ==> exitCode == l.exit.code && error == "")
    && (l.Started? && l.exit.WaitError? ==> exitCode == 1 && error == l.exit.error)
    && (l.NotStarted? ==> exitCode == 1 && error == l.error)
  }

  /** The sanitized lines of everything the command wrote. */
  function Clean(stream: Text): (ts: seq<Text>)
    ensures |ts| == |LinesOf(stream)|
    ensures forall i :: 0 <= i < |ts| ==> ts[i] == SanitizeLine(LinesOf(stream)[i])
  {
    var lines := LinesOf(stream);
    seq(|lines|, i requires 0 <= i < |lines| => SanitizeLine(lines[i]))
  }

  function Streamed(cmd: string, texts: seq<Text>): (ms: seq<Payload>)
    ensures |ms| == |texts|
    ensures forall i :: 0 <= i < |texts| ==> ms[i] == CommandStream(cmd, texts[i])
  {
    seq(|texts|, i requires 0 <= i < |texts| => CommandStream(cmd, texts[i]))
  }

  /** The messages of one command, in the order they are handed to the writer. */
  function Script(cmd: string, l: Launch): seq<Payload> {
    Streamed(cmd, Clean(OutputOf(l))) + [Completion(cmd, l)]
  }

  method RunCommand(cmd: string, l: Launch) returns (sent: seq<Payload>)
    requires l.Started? ==> Pipe(l.output)
    ensures var lines := LinesOf(if l.Started? then Stream(l.output) else []);
      && |sent| == |lines| + 1
      && (forall i :: 0 <= i < |lines| ==> sent[i] == CommandStream(cmd, SanitizeLine(lines[i])))
    ensures sent[|sent| - 1].CommandCompleted? && sent[|sent| - 1].cmd == cmd
    ensures Reports(l, sent[|sent| - 1].exitCode, sent[|sent| - 1].error)
    ensures sent == Script(cmd, l)
  {
    match l
    case NotStarted(error) =>
      NoOutput();
      sent := [CommandCompleted(cmd, 1, error)];
    case Started(output, exit) =>
      sent := StreamOutput(cmd, output);
      var exitCode, errMsg := 0, "";
      match exit {
        case Ok =>
        case ExitError(code) => exitCode := code;
        case WaitError(error) => exitCode, errMsg := 1, error;
      }
      sent := sent + [CommandCompleted(cmd, exitCode, errMsg)];
  }

  lemma NoOutput()
    ensures Clean([]) == []
  {
    assert Split([]) == [[]];
  }

  method StreamOutput(cmd: string, output: seq<Read>) returns (sent: seq<Payload>)
    requires Pipe(output)
    ensures sent == Streamed(cmd, Clean(Stream(output)))
  {
    var lines := DrainPipeLines(output);
    ghost var clean := Clean(Stream(output));
    sent := [];
    for i := 0 to |lines|
      invariant sent == Streamed(cmd, clean[..i])
    {
      sent := sent + [CommandStream(cmd, SanitizeLine(lines[i]))];
    }
    assert clean[..|lines|] == clean;
  }

  // ── The server's side ────────────────────────────────────────────────────

  datatype Session = Session(agent: string, command: string, output: seq<Text>, done: bool, exitCode: int,
      error: string)

  type Sessions = map<string, Session>

  /** The effect of one message on the session it is about. */
  function Update(s: Session, p: Payload): Session {
    match p
    case CommandStream(_, line) => s.(output := s.output + [line])
    case CommandCompleted(_, code, error) => s.(done := true, exitCode := code, error := error)
    case OtherMessage => s
  }

  /** The effect of one message on the store; unknown commands are ignored. */
  function Receive(cmds: Sessions, p: Payload): Sessions {
    if p.OtherMessage? || p.cmd !in cmds then cmds else cmds[p.cmd := Update(cmds[p.cmd], p)]
  }

  function ReceiveAll(cmds: Sessions, ps: seq<Payload>): Sessions {
    if ps == [] then cmds else Receive(ReceiveAll(cmds, ps[..|ps| - 1]), ps[|ps| - 1])
  }

  class CommandStore {
    var cmds: Sessions

    constructor ()
      ensures cmds == map[]
    {
      cmds := map[];
    }

    method Create(cmdID: string, agentID: string, command: string)
      modifies this
      ensures cmds == old(cmds)[cmdID := Session(agentID, command, [], false, 0, "")]
    {
      cmds := cmds[cmdID := Session(agentID, command, [], false, 0, "")];
    }

    method AppendOutput(cmdID: string, line: Text)
      modifies this
      ensures cmds.Keys == old(cmds).Keys
      ensures cmdID in cmds ==> cmds[cmdID] == old(cmds)[cmdID].(output := old(cmds)[cmdID].output + [line])
      ensures forall k :: k in cmds && k != cmdID ==> cmds[k] == old(cmds)[k]
      ensures cmds == Receive(old(cmds), CommandStream(cmdID, line))
    {
      if cmdID !in cmds {
        return;
      }
      var sess := cmds[cmdID];
      cmds := cmds[cmdID := sess.(output := sess.output + [line])];
    }

    method SetDone(cmdID: string, exitCode: int, errMsg: string)
      modifies this
      ensures cmds.Keys == old(cmds).Keys
      ensures cmdID in cmds ==>
        && cmds[cmdID].done && cmds[cmdID].exitCode == exitCode && cmds[cmdID].error == errMsg
        && cmds[cmdID].output == old(cmds)[cmdID].output
      ensures forall k :: k in cmds && k != cmdID ==> cmds[k] == old(cmds)[k]
      ensures cmds == Receive(old(cmds), CommandCompleted(cmdID, exitCode, errMsg))
    {
      if cmdID !in cmds {
        return;
      }
      var sess := cmds[cmdID];
      cmds := cmds[cmdID := sess.(done := true, exitCode := exitCode, error := errMsg)];
    }

    /** The command cases of the message dispatch. */
    method HandleMessage(p: Payload)
      modifies this
      ensures cmds == Receive(old(cmds), p)
    {
      match p
      case CommandStream(cmd, output) => AppendOutput(cmd, output);
      case CommandCompleted(cmd, code, error) => SetDone(cmd, code, error);
      case OtherMessage =>
    }
  }

  // ── What a poll can show ─────────────────────────────────────────────────

  function Talk(cmd: string, ps: seq<Payload>): seq<Payload> {
    if ps == [] then [] else
      Talk(cmd, ps[..|ps| - 1]) + if About(ps[|ps| - 1], cmd) then [ps[|ps| - 1]] else []
  }

  function UpdateAll(s: Session, ps: seq<Payload>): Session {
    if ps == [] then s else Update(UpdateAll(s, ps[..|ps| - 1]), ps[|ps| - 1])
  }

  /** A session depends only on the messages about its own command. */
  lemma {:induction false} SessionIsOwnTalk(cmds: Sessions, ps: seq<Payload>, cmd: string)
    requires cmd in cmds
    ensures cmd in ReceiveAll(cmds, ps)
    ensures ReceiveAll(cmds, ps)[cmd] == UpdateAll(cmds[cmd], Talk(cmd, ps))
  {
    if ps != [] {
      var front, p := ps[..|ps| - 1], ps[|ps| - 1];
      SessionIsOwnTalk(cmds, front, cmd);
      if About(p, cmd) {
        var t := Talk(cmd, front) + [p];
        assert t[..|t| - 1] == Talk(cmd, front);
      } else {
        assert Talk(cmd, front) + [] == Talk(cmd, front);
      }
    }
  }

  /** Snapshots only grow: whatever messages arrive, an earlier poll's output is a prefix of
      a later one's, and a finished command stays finished. */
  lemma {:induction false} SnapshotsGrow(cmds: Sessions, ps: seq<Payload>, i: nat, cmd: string)
    requires cmd in cmds && i <= |ps|
    ensures cmd in ReceiveAll(cmds, ps[..i]) && cmd in ReceiveAll(cmds, ps)
    ensures var early, late := ReceiveAll(cmds, ps[..i])[cmd], ReceiveAll(cmds, ps)[cmd];
      early.output <= late.output && (early.done ==> late.done)
    decreases |ps| - i
  {
    if i == |ps| {
      assert ps[..i] == ps;
      SessionIsOwnTalk(cmds, ps, cmd);
    } else {
      SnapshotsGrow(cmds, ps, i + 1, cmd);
      assert ps[..i + 1][..i] == ps[..i];
      SessionIsOwnTalk(cmds, ps[..i], cmd);
    }
  }

  lemma {:induction false} OutputsCollected(s: Session, cmd: string, texts: seq<Text>)
    ensures UpdateAll(s, Streamed(cmd, texts)) == s.(output := s.output + texts)
  {
    if texts != [] {
      var n := |texts| - 1;
      OutputsCollected(s, cmd, texts[..n]);
      assert Streamed(cmd, texts)[..n] == Streamed(cmd, texts[..n]);
      assert s.output + texts == (s.output + texts[..n]) + [texts[n]];
    } else {
      assert s.output + texts == s.output;
    }
  }

  /** After any prefix of a command's messages: done exactly when all of them have arrived,
      and the output so far is a prefix of the lines, all of them when done. */
  lemma PrefixOfScript(s: Session, cmd: string, texts: seq<Text>, last: Payload, ms: seq<Payload>)
    requires s.output == [] && !s.done && last.CommandCompleted? && ms <= Streamed(cmd, texts) + [last]
    ensures var t := UpdateAll(s, ms);
      && (t.done <==> ms == Streamed(cmd, texts) + [last])
      && t.output <= texts
      && (t.done ==> t.output == texts && t.exitCode == last.exitCode && t.error == last.error)
  {
    var script, n := Streamed(cmd, texts) + [last], |texts|;
    if |ms| <= n {
      assert ms == Streamed(cmd, texts[..|ms|]);
      OutputsCollected(s, cmd, texts[..|ms|]);
    } else {
      assert ms == script && ms[..n] == Streamed(cmd, texts);
      OutputsCollected(s, cmd, texts);
    }
  }

  // ── End to end ───────────────────────────────────────────────────────────

  lemma {:induction false} TalkPrefix(cmd: string, ps: seq<Payload>, qs: seq<Payload>)
    requires ps <= qs
    ensures Talk(cmd, ps) <= Talk(cmd, qs)
    decreases |qs|
  {
    if |ps| < |qs| {
      TalkPrefix(cmd, ps, qs[..|qs| - 1]);
    } else {
      assert ps == qs;
    }
  }

  /** The messages about `cmd` are not affected by what does not encode, if they all do. */
  lemma {:induction false} TalkEncodes(cmd: string, xs: seq<Writer.Sent<Payload>>)
    requires forall i :: 0 <= i < |xs| && About(xs[i].msg.body, cmd) ==> xs[i].msg.encodes
    ensures Talk(cmd, Writer.Bodies(Writer.Encodable(xs))) == Talk(cmd, Writer.Bodies(xs))
  {
    if xs != [] {
      var n := |xs| - 1;
      var front, x := xs[..n], xs[n];
      TalkEncodes(cmd, front);
      assert xs == front + [x];
      Writer.EncodableAppend(front, [x]);
      assert Writer.Encodable([x]) == if x.msg.encodes then [x] else [];
      assert Writer.Bodies(xs)[..n] == Writer.Bodies(front);
      var kept := Writer.Encodable(front);
      if x.msg.encodes {
        assert Writer.Bodies(kept + [x])[..|kept|] == Writer.Bodies(kept);
      } else {
        assert kept + [] == kept;
      }
    }
  }

  /** Whatever the interleaving in the writer, wherever the connection is lost and however
      other traffic is mixed in: if a poll shows the command done, its output is exactly the
      sanitized lines of the whole command output, with its exit status; and every poll
      shows a prefix of those lines. `states` is a run of the writer of the connection the
      command runs on, `received` what the server has handled since the session was created. */
  lemma DoneMeansComplete(states: seq<Writer.State<Payload>>, steps: seq<Writer.Step<Payload>>, i: nat,
                          cmds: Sessions, received: seq<Payload>, cmd: string, l: Launch)
    requires Writer.Run(states, steps) && i < |states|
    requires Talk(cmd, Writer.Bodies(states[i].offered)) <= Script(cmd, l)
    requires forall k :: 0 <= k < |states[i].offered| && About(states[i].offered[k].msg.body, cmd)
               ==> states[i].offered[k].msg.encodes
    requires Talk(cmd, received) <= Talk(cmd, Writer.Bodies(states[i].wire))
    requires cmd in cmds && cmds[cmd].output == [] && !cmds[cmd].done
    ensures cmd in ReceiveAll(cmds, received)
    ensures var s := ReceiveAll(cmds, received)[cmd];
      && (s.done <==> Talk(cmd, received) == Script(cmd, l))
      && s.output <= Clean(OutputOf(l))
      && (s.done ==> s.output == Clean(OutputOf(l)) && Reports(l, s.exitCode, s.error))
  {
    var talk := Talk(cmd, received);
    assert talk <= Script(cmd, l) by {
      OnTheWire(states, steps, i, cmd);
    }
    SessionIsOwnTalk(cmds, received, cmd);
    TalkOfScript(cmds[cmd], cmd, l, talk);
  }

  lemma TalkOfScript(s: Session, cmd: string, l: Launch, talk: seq<Payload>)
    requires talk <= Script(cmd, l) && s.output == [] && !s.done
    ensures var t := UpdateAll(s, talk);
      && (t.done <==> talk == Script(cmd, l))
      && t.output <= Clean(OutputOf(l))
      && (t.done ==> t.output == Clean(OutputOf(l)) && CommandCompleted(cmd, t.exitCode, t.error) == Completion(cmd, l))
  {
    PrefixOfScript(s, cmd, Clean(OutputOf(l)), Completion(cmd, l), talk);
  }

  /** What the wire says about a command is a prefix of what was sent about it. */
  lemma OnTheWire(states: seq<Writer.State<Payload>>, steps: seq<Writer.Step<Payload>>, i: nat, cmd: string)
    requires Writer.Run(states, steps) && i < |states|
    requires forall k :: 0 <= k < |states[i].offered| && About(states[i].offered[k].msg.body, cmd)
               ==> states[i].offered[k].msg.encodes
    ensures Talk(cmd, Writer.Bodies(states[i].wire)) <= Talk(cmd, Writer.Bodies(states[i].offered))
  {
    var s := states[i];
    Writer.Reachable(states, steps, i);
    assert Writer.Bodies(s.wire) <= Writer.Bodies(Writer.Encodable(s.offered));
    TalkPrefix(cmd, Writer.Bodies(s.wire), Writer.Bodies(Writer.Encodable(s.offered)));
    TalkEncodes(cmd, s.offered);
  }
}
