/** The agent's `MessageWriter` (internal/agent/agent.go): senders put messages on a
    bounded channel, one goroutine takes them off and writes them to the socket, and
    `Stop` or a failed write ends that goroutine. Every interleaving of these is a run
    of the transition system below. */
module Writer {

  const CAPACITY: nat := 256

  /** A message, and whether json.Marshal accepts it. */
  datatype Message<M> = Message(body: M, encodes: bool)

  /** A message with the run or command that sent it. */
  datatype Sent<M> = Sent(from: nat, msg: Message<M>)

  /** Where the writer goroutine is: in its select, in ws.Write, or returned (done closed). */
  datatype Pump<M> = Selecting | Writing(item: Sent<M>) | Exited

  datatype State<M> = State(
    pump: Pump<M>,
    stopped: bool,                           // stop channel closed
    outbox: seq<Sent<M>>,
    passed: map<nat, Message<M>>,            // senders past the fast-path check, with their message
    wire: seq<Sent<M>>,                      // written to the socket, in order
    lost: seq<Sent<M>>,                      // taken off the channel by the write that failed
    accepted: seq<Sent<M>>,                  // every message ever put on the channel, in order
    offered: seq<Sent<M>>                    // every completed Send call, accepted or dropped, in order
  )

  ghost predicate Init<M>(s: State<M>) {
    s == State(Selecting, false, [], map[], [], [], [], [])
  }

  datatype Step<M> =
    | BeginSend(from: nat, msg: Message<M>)
    | DropEarly(from: nat, msg: Message<M>)
    | DropLate(from: nat)
    | Enqueue(from: nat)
    | Take
    | WriteOk
    | WriteFail
    | Stop
    | Quit

  /** One atomic step; a select with several ready cases may take any of them. */
  ghost predicate Next<M>(s: State<M>, a: Step<M>, s': State<M>) {
    match a
    // Send: the fast path sees done open; Send by one sender is sequential.
    case BeginSend(from, msg) => !s.pump.Exited? && from !in s.passed && s' == s.(passed := s.passed[from := msg])
    // Send: the fast path sees done closed and drops the message.
    case DropEarly(from, msg) => s.pump.Exited? && from !in s.passed &&
        s' == s.(offered := s.offered + [Sent(from, msg)])
    // Send: the second select finds done closed.
    case DropLate(from) => s.pump.Exited? && from in s.passed
      && s' == s.(passed := s.passed - {from}, offered := s.offered + [Sent(from, s.passed[from])])
    // Send: the second select finds room on the channel, whether or not done is closed.
    case Enqueue(from) => from in s.passed && |s.outbox| < CAPACITY
      && (var item := Sent(from, s.passed[from]);
          s' == s.(passed := s.passed - {from}, outbox := s.outbox + [item],
                   accepted := s.accepted + [item], offered := s.offered + [item]))
    // Goroutine: receive; a message that does not encode is skipped.
    case Take => s.pump.Selecting? && s.outbox != []
      && (var item := s.outbox[0];
          s' == s.(outbox := s.outbox[1..], pump := if item.msg.encodes then Writing(item) else Selecting))
    case WriteOk => s.pump.Writing? && s' == s.(wire := s.wire + [s.pump.item], pump := Selecting)
    case WriteFail => s.pump.Writing? && s' == s.(lost := s.lost + [s.pump.item], pump := Exited)
    // Stop closes the channel; the goroutine may see it at its next select.
    case Stop => !s.stopped && s' == s.(stopped := true)
    case Quit => s.pump.Selecting? && s.stopped && s' == s.(pump := Exited)
  }

  /** A run: states and the steps between them. */
  ghost predicate Run<M(!new)>(states: seq<State<M>>, steps: seq<Step<M>>) {
    && |states| == |steps| + 1
    && Init(states[0])
    && forall i :: 0 <= i < |steps| ==> Next(states[i], steps[i], states[i + 1])
  }

  // ── Projections ──────────────────────────────────────────────────────────

  function Encodable<M>(xs: seq<Sent<M>>): seq<Sent<M>> {
    if xs == [] then []
    else if xs[0].msg.encodes then [xs[0]] + Encodable(xs[1..])
    else Encodable(xs[1..])
  }

  function By<M>(from: nat, xs: seq<Sent<M>>): seq<Sent<M>> {
    if xs == [] then []
    else if xs[0].from == from then [xs[0]] + By(from, xs[1..])
    else By(from, xs[1..])
  }

  function Bodies<M>(xs: seq<Sent<M>>): (ps: seq<M>)
    ensures |ps| == |xs| && forall i :: 0 <= i < |xs| ==> ps[i] == xs[i].msg.body
  {
    seq(|xs|, i requires 0 <= i < |xs| => xs[i].msg.body)
  }

  lemma {:induction false} EncodableAppend<M>(xs: seq<Sent<M>>, ys: seq<Sent<M>>)
    ensures Encodable(xs + ys) == Encodable(xs) + Encodable(ys)
  {
    if xs == [] {
      assert xs + ys == ys;
    } else {
      assert (xs + ys)[1..] == xs[1..] + ys;
      EncodableAppend(xs[1..], ys);
    }
  }

  lemma {:induction false} ByAppend<M>(from: nat, xs: seq<Sent<M>>, ys: seq<Sent<M>>)
    ensures By(from, xs + ys) == By(from, xs) + By(from, ys)
  {
    if xs == [] {
      assert xs + ys == ys;
    } else {
      assert (xs + ys)[1..] == xs[1..] + ys;
      ByAppend(from, xs[1..], ys);
    }
  }

  // ── The invariant ────────────────────────────────────────────────────────

  function InHand<M>(p: Pump<M>): seq<Sent<M>> {
    if p.Writing? then [p.item] else []
  }

  /** Conservation: nothing is reordered, duplicated or lost between channel and wire,
      except the one message whose write failed. */
  ghost predicate Conserved<M>(s: State<M>) {
    && Encodable(s.accepted) == s.wire + s.lost + InHand(s.pump) + Encodable(s.outbox)
    && |s.lost| <= 1
    && (s.lost != [] ==> s.pump.Exited?)
    && (s.pump.Writing? ==> s.pump.item.msg.encodes)
    && |s.outbox| <= CAPACITY
  }

  /** Order of calls: until the writer is closed every Send is accepted, and the wire
      always holds a prefix of the encodable messages offered. */
  ghost predicate InOrder<M>(s: State<M>) {
    && (!s.pump.Exited? ==> s.accepted == s.offered)
    && s.wire <= Encodable(s.offered)
  }

  lemma ConservedStep<M(!new)>(s: State<M>, a: Step<M>, s': State<M>)
    requires Conserved(s) && Next(s, a, s')
    ensures Conserved(s')
  {
    match a
    case Enqueue(from) => EnqueueConserves(s, from, s');
    case Take => TakeConserves(s, s');
    case _ =>
  }

  lemma EnqueueConserves<M(!new)>(s: State<M>, from: nat, s': State<M>)
    requires Conserved(s) && Next(s, Enqueue(from), s')
    ensures Conserved(s')
  {
    var item := Sent(from, s.passed[from]);
    EncodableAppend(s.accepted, [item]);
    EncodableAppend(s.outbox, [item]);
  }

  lemma TakeConserves<M(!new)>(s: State<M>, s': State<M>)
    requires Conserved(s) && Next(s, Take, s')
    ensures Conserved(s')
  {
    assert s.outbox == [s.outbox[0]] + s.outbox[1..];
    EncodableHead(s.outbox);
  }

  lemma EncodableHead<M>(xs: seq<Sent<M>>)
    requires xs != []
    ensures Encodable(xs) == (if xs[0].msg.encodes then [xs[0]] else []) + Encodable(xs[1..])
  {
  }

  lemma InOrderStep<M(!new)>(s: State<M>, a: Step<M>, s': State<M>)
    requires Conserved(s) && InOrder(s) && Next(s, a, s')
    ensures InOrder(s')
  {
    if |s'.offered| > |s.offered| {
      var last := s'.offered[|s.offered|];
      assert s'.offered == s.offered + [last];
      EncodableAppend(s.offered, [last]);
    }
  }

  /** Every reachable state keeps both. */
  lemma {:induction false} Reachable<M(!new)>(states: seq<State<M>>, steps: seq<Step<M>>, i: nat)
    requires Run(states, steps) && i < |states|
    ensures Conserved(states[i]) && InOrder(states[i])
  {
    if i > 0 {
      Reachable(states, steps, i - 1);
      ConservedStep(states[i - 1], steps[i - 1], states[i]);
      InOrderStep(states[i - 1], steps[i - 1], states[i]);
    }
  }

  lemma ByPrefix<M>(from: nat, xs: seq<Sent<M>>, ys: seq<Sent<M>>)
    requires xs <= ys
    ensures By(from, xs) <= By(from, ys)
  {
    assert ys == xs + ys[|xs|..];
    ByAppend(from, xs, ys[|xs|..]);
  }

  /** In every reachable state of every interleaving: the wire is a prefix of what was
      accepted; accepted is written, at most one lost, one in hand and the rest buffered;
      and for each sender the wire holds a prefix of its own Send calls, so a message
      after a dropped one is never delivered. */
  lemma WirePrefix<M(!new)>(states: seq<State<M>>, steps: seq<Step<M>>, i: nat, from: nat)
    requires Run(states, steps) && i < |states|
    ensures var s := states[i];
      && s.wire <= Encodable(s.accepted)
      && |Encodable(s.accepted)| == |s.wire| + |s.lost| + |InHand(s.pump)| + |Encodable(s.outbox)|
      && |s.lost| <= 1 && |s.outbox| <= 256
      && By(from, s.wire) <= By(from, Encodable(s.offered))
  {
    Reachable(states, steps, i);
    ByPrefix(from, states[i].wire, Encodable(states[i].offered));
  }

  /** Once a Send has been dropped, the wire never grows again. */
  lemma DropIsFinal<M(!new)>(states: seq<State<M>>, steps: seq<Step<M>>, i: nat, j: nat)
    requires Run(states, steps) && i <= j < |states| && states[i].offered != states[i].accepted
    ensures states[j].wire == states[i].wire && states[j].pump.Exited?
  {
    Reachable(states, steps, i);
    StayExited(states, steps, i, j);
  }

  lemma {:induction false} StayExited<M(!new)>(states: seq<State<M>>, steps: seq<Step<M>>, i: nat, j: nat)
    requires Run(states, steps) && i <= j < |states| && states[i].pump.Exited?
    ensures states[j].pump.Exited? && states[j].wire == states[i].wire
    decreases j - i
  {
    if i < j {
      assert Next(states[j - 1], steps[j - 1], states[j]);
      StayExited(states, steps, i, j - 1);
    }
  }

  lemma {:induction false} ByEncodable<M>(from: nat, xs: seq<Sent<M>>)
    requires forall k :: 0 <= k < |xs| && xs[k].from == from ==> xs[k].msg.encodes
    ensures By(from, Encodable(xs)) == By(from, xs)
  {
    if xs != [] {
      ByEncodable(from, xs[1..]);
      if xs[0].msg.encodes {
        assert Encodable(xs)[1..] == Encodable(xs[1..]);
      }
    }
  }

  /** Of what one sender sent, the wire carries a first part, in order: all that a lost
      connection can lose is the rest. */
  lemma SenderPrefix<M(!new)>(states: seq<State<M>>, steps: seq<Step<M>>, i: nat, from: nat)
    requires Run(states, steps) && i < |states|
    requires forall k :: 0 <= k < |states[i].offered| && states[i].offered[k].from == from ==>
        states[i].offered[k].msg.encodes
    ensures Bodies(By(from, states[i].wire)) <= Bodies(By(from, states[i].offered))
  {
    WirePrefix(states, steps, i, from);
    ByEncodable(from, states[i].offered);
  }
}
