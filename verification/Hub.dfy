/** The server's WebSocket hub (internal/server/handlers/handler.go): which connection
    each agent has, a bounded outbound queue per connection, and a stop channel that is
    closed when the connection is replaced. */
module Hubs {
  import Deployments

  const CAPACITY: nat := 64

  type AgentId = Deployments.AgentId
  type ConnId = nat

  /** A connection: its queue, what the write pump has taken off it, what Send ever put on
      it, and whether its stop channel has been closed. */
  datatype Conn<M> = Conn(agent: AgentId, outbox: seq<M>, pumped: seq<M>, queued: seq<M>, stopClosed: bool)

  /** `panicked` records a second close of a stop channel, which ends the program. */
  datatype State<M> = State(conns: map<AgentId, ConnId>, table: map<ConnId, Conn<M>>, panicked: bool)

  // ── The operations as functions ──────────────────────────────────────────

  function Close<M>(s: State<M>, c: ConnId): State<M>
    requires c in s.table
  {
    if s.table[c].stopClosed then s.(panicked := true)
    else s.(table := s.table[c := s.table[c].(stopClosed := true)])
  }

  /** newAgentConn followed by register, as the connection handler does. */
  function AfterConnect<M>(s: State<M>, c: ConnId, agent: AgentId): State<M> {
    var s1 := if agent in s.conns && s.conns[agent] in s.table then Close(s, s.conns[agent]) else s;
    s1.(conns := s1.conns[agent := c], table := s1.table[c := Conn(agent, [], [], [], false)])
  }

  function AfterUnregister<M>(s: State<M>, agent: AgentId): State<M> {
    s.(conns := s.conns - {agent})
  }

  predicate CanSend<M>(s: State<M>, agent: AgentId, encodes: bool) {
    agent in s.conns && encodes && s.conns[agent] in s.table && |s.table[s.conns[agent]].outbox| < CAPACITY
  }

  function AfterSend<M>(s: State<M>, agent: AgentId, m: M, encodes: bool): State<M> {
    if CanSend(s, agent, encodes) then
      var c := s.conns[agent];
      var conn := s.table[c];
      s.(table := s.table[c := conn.(outbox := conn.outbox + [m], queued := conn.queued + [m])])
    else s
  }

  /** The write pump takes the oldest message, on any connection, registered or not. */
  function AfterPump<M>(s: State<M>, c: ConnId): State<M> {
    if c in s.table && s.table[c].outbox != [] then
      var conn := s.table[c];
      s.(table := s.table[c := conn.(outbox := conn.outbox[1..], pumped := conn.pumped + [conn.outbox[0]])])
    else s
  }

  // ── The hub object ───────────────────────────────────────────────────────

  class Hub<M> {
    var conns: map<AgentId, ConnId>
    var table: map<ConnId, Conn<M>>
    var panicked: bool

    ghost function View(): State<M>
      reads this
    {
      State(conns, table, panicked)
    }

    /** Every registered connection exists. */
    ghost predicate Valid()
      reads this
    {
      forall a :: a in conns ==> conns[a] in table
    }

    constructor ()
      ensures Valid() && View() == State(map[], map[], false)
    {
      conns, table, panicked := map[], map[], false;
    }

    method Register(c: ConnId, agent: AgentId)
      requires Valid()
      modifies this
      ensures agent in conns && conns[agent] == c && c in table && table[c].outbox == [] && !table[c].stopClosed
      ensures forall a :: a != agent ==> (a in conns <==> a in old(conns)) && (a in conns ==> conns[a] == old(conns)[a])
      ensures agent in old(conns) && old(conns)[agent] != c ==>
        old(conns)[agent] in table && table[old(conns)[agent]].stopClosed
      ensures forall k :: k in old(table) && k != c && !(agent in old(conns) && k == old(conns)[agent]) ==>
        k in table && table[k] == old(table)[k]
      ensures panicked <==> old(panicked) || (agent in old(conns) && old(table)[old(conns)[agent]].stopClosed)
      ensures Valid() && View() == AfterConnect(old(View()), c, agent)
    {
      if agent in conns {
        var previous := conns[agent];
        if table[previous].stopClosed {
          panicked := true;
        } else {
          table := table[previous := table[previous].(stopClosed := true)];
        }
      }
      table := table[c := Conn(agent, [], [], [], false)];
      conns := conns[agent := c];
    }

    method Unregister(agent: AgentId)
      requires Valid()
      modifies this
      ensures Valid() && View() == AfterUnregister(old(View()), agent)
    {
      conns := conns - {agent};
    }

    method IsConnected(agent: AgentId) returns (ok: bool)
      requires Valid()
      ensures ok <==> agent in View().conns
    {
      ok := agent in conns;
    }

    /** True exactly when the message was appended to the queue of the agent's current connection. */
    method Send(agent: AgentId, m: M, encodes: bool) returns (ok: bool)
      requires Valid()
      modifies this
      ensures Valid() && View() == AfterSend(old(View()), agent, m, encodes)
      ensures ok <==> agent in old(conns) && encodes && |old(table)[old(conns)[agent]].outbox| < 64
      ensures ok <==> agent in old(conns) && table[old(conns)[agent]].queued == old(table[conns[agent]].queued) + [m]
      ensures ok ==> table[old(conns)[agent]].outbox == old(table[conns[agent]].outbox) + [m]
      ensures forall k :: k in old(table) && (agent in old(conns) ==> k != old(conns)[agent]) ==>
        k in table && table[k] == old(table)[k]
      ensures conns == old(conns) && (!ok ==> View() == old(View()))
    {
      if agent !in conns {
        return false;
      }
      var c := conns[agent];
      if !encodes {
        return false;
      }
      var conn := table[c];
      if |conn.outbox| < CAPACITY {
        table := table[c := conn.(outbox := conn.outbox + [m], queued := conn.queued + [m])];
        return true;
      }
      return false;
    }
  }

  // ── Whole histories ──────────────────────────────────────────────────────

  datatype Event<M> =
    | Connected(c: ConnId, agent: AgentId)
    | Unregistered(agent: AgentId)
    | Sent(agent: AgentId, m: M, encodes: bool)
    | Pumped(c: ConnId)

  function Apply<M>(s: State<M>, e: Event<M>): State<M> {
    match e
    case Connected(c, agent) => AfterConnect(s, c, agent)
    case Unregistered(agent) => AfterUnregister(s, agent)
    case Sent(agent, m, encodes) => AfterSend(s, agent, m, encodes)
    case Pumped(c) => AfterPump(s, c)
  }

  function Final<M>(es: seq<Event<M>>): State<M> {
    if es == [] then State(map[], map[], false) else Apply(Final(es[..|es| - 1]), es[|es| - 1])
  }

  /** Every connection is a new object. */
  predicate NewConnections<M>(es: seq<Event<M>>) {
    forall i, j :: 0 <= i < j < |es| && es[i].Connected? && es[j].Connected? ==> es[i].c != es[j].c
  }

  predicate WasConnected<M>(es: seq<Event<M>>, c: ConnId) {
    exists i :: 0 <= i < |es| && es[i].Connected? && es[i].c == c
  }

  /** The connection of the last register of `agent`, unless an unregister came after it. */
  function LastRegistered<M>(es: seq<Event<M>>, agent: AgentId): set<ConnId> {
    if es == [] then {}
    else match es[|es| - 1]
      case Connected(c, a) => if a == agent then {c} else LastRegistered(es[..|es| - 1], agent)
      case Unregistered(a) => if a == agent then {} else LastRegistered(es[..|es| - 1], agent)
      case _ => LastRegistered(es[..|es| - 1], agent)
  }

  /** What every state keeps: a registered connection is open and belongs to its agent;
      queues are bounded and conserve what was put on them; nothing was closed twice. */
  ghost predicate Safe<M>(s: State<M>) {
    && !s.panicked
    && (forall a :: a in s.conns ==>
          s.conns[a] in s.table && s.table[s.conns[a]].agent == a && !s.table[s.conns[a]].stopClosed)
    && (forall c :: c in s.table ==>
          |s.table[c].outbox| <= 64 && s.table[c].pumped + s.table[c].outbox == s.table[c].queued)
  }

  lemma SafeStep<M>(s: State<M>, e: Event<M>)
    requires Safe(s) && (e.Connected? ==> e.c !in s.table)
    ensures Safe(Apply(s, e))
  {
    match e
    case Pumped(c) =>
      if c in s.table && s.table[c].outbox != [] {
        var conn := s.table[c];
        assert conn.pumped + conn.outbox == (conn.pumped + [conn.outbox[0]]) + conn.outbox[1..];
      }
    case _ =>
  }

  /** A known connection is one that connected. */
  lemma {:induction false} KnownConnected<M>(es: seq<Event<M>>, c: ConnId)
    requires c in Final(es).table
    ensures WasConnected(es, c)
  {
    if es != [] {
      var front, e := es[..|es| - 1], es[|es| - 1];
      if c in Final(front).table {
        KnownConnected(front, c);
        var i :| 0 <= i < |front| && front[i].Connected? && front[i].c == c;
        assert es[i] == front[i];
      } else {
        assert e.Connected? && e.c == c;
      }
    }
  }

  /** Over all histories of connects, unregisters, sends and pumps: no stop channel is closed
      twice, registered connections are open, queues are bounded and lose nothing. */
  lemma {:induction false} HubSafe<M>(es: seq<Event<M>>)
    requires NewConnections(es)
    ensures Safe(Final(es))
  {
    if es != [] {
      var front, e := es[..|es| - 1], es[|es| - 1];
      HubSafe(front);
      assert forall i :: 0 <= i < |front| ==> front[i] == es[i];
      if e.Connected? {
        assert !WasConnected(front, e.c);
        if e.c in Final(front).table {
          KnownConnected(front, e.c);
        }
      }
      SafeStep(Final(front), e);
    }
  }

  /** Over all histories: an agent has an entry exactly when its last register or unregister
      was a register, and then the entry is that connection. */
  lemma {:induction false} EntryIsLastRegistered<M>(es: seq<Event<M>>, agent: AgentId)
    ensures LastRegistered(es, agent) == if agent in Final(es).conns then {Final(es).conns[agent]} else {}
  {
    if es != [] {
      EntryIsLastRegistered(es[..|es| - 1], agent);
    }
  }

  /** `unregister` names the agent, not the connection. In any state where an agent is
      connected, let it connect again on `c`, which closes the old connection, and let the old
      connection's handler end: `c` is still open, yet the hub can no longer reach it. */
  lemma ReplacedConnectionEvictsSuccessor<M>(s: State<M>, c: ConnId, agent: AgentId, m: M)
    requires Safe(s) && agent in s.conns && c !in s.table
    ensures var t := AfterUnregister(AfterConnect(s, c, agent), agent);
      && t.table[s.conns[agent]].stopClosed
      && c in t.table && !t.table[c].stopClosed
      && agent !in t.conns && AfterSend(t, agent, m, true) == t
  {
    var d := s.conns[agent];
    var s1 := AfterConnect(s, c, agent);
    assert s1.table[d] == s.table[d].(stopClosed := true);
  }
}
