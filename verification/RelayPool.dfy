/** The relay servers the id server hands out: lists, health checks, reconfiguration. The main loop and every
    task it spawned have lists of their own, copied when the task was spawned; all share one counter. */
module RelayPool {
  import opened Net
  import opened Rotation

  type Servers = seq<string>

  /** A connection's task or a spawned punch-hole request; each works on a clone of the server object. */
  type Task = nat

  /** None is the main loop. */
  type Caller = Option<Task>

  datatype Message = Reconfigured(servers: Servers) | Alive(servers: Servers)

  /** The main loop's lists, the shared counter, the health checks still running, the messages on
      their way to the main loop, and the lists the tasks hold. */
  datatype State = State(configured: Servers, active: Servers, counter: nat,
                         checks: multiset<Servers>, queue: seq<Message>, held: map<Task, Servers>)

  datatype Event =
    | Tick
    | CheckDone(servers: Servers, order: seq<nat>)
    | Operator(servers: Servers)
    | Deliver
    | Spawn(t: Task)
    | End(t: Task)
    | GetRelay(caller: Caller)

  /** The answers of a check, in order of arrival: `order` lists who answered, each at most once. */
  function Picked(servers: Servers, order: seq<nat>): Servers
    requires forall i :: 0 <= i < |order| ==> order[i] < |servers|
  {
    seq(|order|, i requires 0 <= i < |order| => servers[order[i]])
  }

  ghost predicate Distinct(order: seq<nat>, bound: nat) {
    && (forall i :: 0 <= i < |order| ==> order[i] < bound)
    && (forall i, j :: 0 <= i < j < |order| ==> order[i] != order[j])
  }

  /** The configured and active lists after the main loop takes a message. */
  function Applied(configured: Servers, msg: Message): (Servers, Servers) {
    match msg
    case Reconfigured(l) => (l, l)
    case Alive(l) => (configured, l)
  }

  /** `get_relay_server` on this list: the answer, and the counter after it. */
  function Handed(list: Servers, counter: nat): (string, nat) {
    if list == [] then ("", counter)
    else if |list| == 1 then (list[0], counter)
    else (list[counter % |list|], Next(counter))
  }

  // ---------- The server's own objects ----------

  /** `ROTATION_RELAY_SERVER`. */
  class Counter {
    var value: nat

    constructor ()
      ensures value == 0
    {
      value := 0;
    }
  }

  /** The part of a server object, or of a clone of it, that concerns relay servers. */
  class Pool {
    const rotation: Counter
    var relayServers0: Servers
    var relayServers: Servers

    constructor (rotation: Counter, relayServers0: Servers, relayServers: Servers)
      ensures this.rotation == rotation && this.relayServers0 == relayServers0 && this.relayServers == relayServers
    {
      this.rotation, this.relayServers0, this.relayServers := rotation, relayServers0, relayServers;
    }

    /** The lists are shared by reference, but no clone ever replaces the contents of one. */
    method Clone() returns (p: Pool)
      ensures fresh(p) && p.rotation == rotation
      ensures p.relayServers0 == relayServers0 && p.relayServers == relayServers
    {
      p := new Pool(rotation, relayServers0, relayServers);
    }

    /** Empty and one-element lists leave the counter alone. */
    method GetRelayServer() returns (server: string)
      requires rotation.value < WRAP
      modifies rotation
      ensures (server, rotation.value) == Handed(relayServers, old(rotation.value)) && rotation.value < WRAP
      ensures relayServers != [] ==> server == relayServers[old(rotation.value) % |relayServers|]
    {
      if relayServers == [] {
        return "";
      } else if |relayServers| == 1 {
        ModIs(rotation.value, 1, rotation.value, 0);
        return relayServers[0];
      }
      var i := rotation.value % |relayServers|;
      rotation.value := Next(rotation.value);
      return relayServers[i];
    }

    method OnData(msg: Message)
      modifies this
      ensures (relayServers0, relayServers) == Applied(old(relayServers0), msg)
    {
      match msg
      case Reconfigured(servers) => ParseRelayServers(servers);
      case Alive(servers) => relayServers := servers;
    }

    method ParseRelayServers(servers: Servers)
      modifies this
      ensures relayServers0 == relayServers == servers
    {
      relayServers0 := servers;
      relayServers := relayServers0;
    }
  }

  lemma WithoutLast(servers: Servers, order: seq<nat>, k: nat)
    requires Distinct(order, |servers|) && k < |order| && order[k] == |servers| - 1
    ensures var (front, a, b) := (servers[..|servers| - 1], order[..k], order[k + 1..]);
            && Distinct(a + b, |front|)
            && Picked(front, a + b) == Picked(front, a) + Picked(front, b)
            && Picked(servers, order) == Picked(front, a) + [servers[|servers| - 1]] + Picked(front, b)
  {
  }

  lemma {:induction false} PickedIsSubBag(servers: Servers, order: seq<nat>)
    requires Distinct(order, |servers|)
    ensures multiset(Picked(servers, order)) <= multiset(servers)
    decreases |servers|
  {
    if order == [] {
      assert Picked(servers, order) == [];
    } else {
      assert order[0] < |servers|;
      var last := |servers| - 1;
      var front := servers[..last];
      assert servers == front + [servers[last]];
      if k :| 0 <= k < |order| && order[k] == last {
        WithoutLast(servers, order, k);
        PickedIsSubBag(front, order[..k] + order[k + 1..]);
      } else {
        assert Picked(front, order) == Picked(servers, order);
        PickedIsSubBag(front, order);
      }
    }
  }

  /** One answer after another is pushed onto the shared list. */
  method CheckRelayServers(rs0: Servers, order: seq<nat>) returns (rs: Servers)
    requires Distinct(order, |rs0|)
    ensures rs == Picked(rs0, order)
    ensures multiset(rs) <= multiset(rs0)
  {
    rs := [];
    for k := 0 to |order|
      invariant rs == Picked(rs0, order[..k])
    {
      rs := rs + [rs0[order[k]]];
    }
    assert order[..|order|] == order;
    PickedIsSubBag(rs0, order);
  }

  // ---------- Steps of the whole ----------

  predicate Holds(s: State, caller: Caller) {
    caller.Some? ==> caller.value in s.held
  }

  /** The list this caller hands out servers from. */
  function Used(s: State, caller: Caller): Servers
    requires Holds(s, caller)
  {
    if caller.None? then s.active else s.held[caller.value]
  }

  /** Can this event happen in this state? */
  ghost predicate Enabled(s: State, ev: Event) {
    match ev
    case CheckDone(servers, order) => servers in s.checks && Distinct(order, |servers|)
    case Deliver => s.queue != []
    case Spawn(t) => t !in s.held
    case End(t) => t in s.held
    case GetRelay(caller) => Holds(s, caller)
    case _ => true
  }

  ghost function Step(s: State, ev: Event): State
    requires Enabled(s, ev)
  {
    match ev
    case Tick =>
      if |s.configured| > 1 then s.(checks := s.checks + multiset{s.configured}) else s
    case CheckDone(servers, order) =>
      var alive := Picked(servers, order);
      s.(checks := s.checks - multiset{servers}, queue := if alive == [] then s.queue else s.queue + [Alive(alive)])
    case Operator(servers) => s.(queue := s.queue + [Reconfigured(servers)])
    case Deliver =>
      var (configured, active) := Applied(s.configured, s.queue[0]);
      s.(configured := configured, active := active, queue := s.queue[1..])
    case Spawn(t) => s.(held := s.held[t := s.active])
    case End(t) => s.(held := s.held - {t})
    case GetRelay(caller) => s.(counter := Handed(Used(s, caller), s.counter).1)
  }

  ghost predicate Path(states: seq<State>, tr: seq<Event>) {
    && |states| == |tr| + 1
    && (forall i :: 0 <= i < |tr| ==> Enabled(states[i], tr[i]) && states[i + 1] == Step(states[i], tr[i]))
  }

  function Start(servers: Servers): State {
    State(servers, servers, 0, multiset{}, [], map[])
  }

  // ---------- The whole in place ----------

  /** The main loop's object, its tasks' clones, and what is under way; one method an event. */
  class Hbbs {
    const main: Pool
    var tasks: map<Task, Pool>
    var checks: multiset<Servers>
    var queue: seq<Message>

    constructor (servers: Servers)
      ensures Valid() && fresh(main) && Abs() == Start(servers)
    {
      var rotation := new Counter();
      main := new Pool(rotation, servers, servers);
      tasks, checks, queue := map[], multiset{}, [];
    }

    ghost predicate Valid()
      reads this, main.rotation
    {
      && main.rotation.value < WRAP
      && forall t :: t in tasks ==> tasks[t] != main && tasks[t].rotation == main.rotation
    }

    ghost function Abs(): State
      reads this, main, main.rotation, tasks.Values
    {
      State(main.relayServers0, main.relayServers, main.rotation.value, checks, queue, map t | t in tasks :: tasks[t].relayServers)
    }

    method CheckTimer()
      requires Valid()
      modifies this`checks
      ensures Valid() && Abs() == Step(old(Abs()), Tick)
    {
      if |main.relayServers0| > 1 {
        checks := checks + multiset{main.relayServers0};
      }
    }

    method FinishCheck(rs0: Servers, order: seq<nat>)
      requires Valid() && Enabled(Abs(), CheckDone(rs0, order))
      modifies this`checks, this`queue
      ensures Valid() && Abs() == Step(old(Abs()), CheckDone(rs0, order))
    {
      var rs := CheckRelayServers(rs0, order);
      checks := checks - multiset{rs0};
      if rs != [] {
        queue := queue + [Alive(rs)];
      }
    }

    method SendConfiguration(servers: Servers)
      requires Valid()
      modifies this`queue
      ensures Valid() && Abs() == Step(old(Abs()), Operator(servers))
    {
      queue := queue + [Reconfigured(servers)];
    }

    /** Only the main loop's own object changes. */
    method TakeMessage()
      requires Valid() && queue != []
      modifies this`queue, main
      ensures Valid() && Abs() == Step(old(Abs()), Deliver)
    {
      main.OnData(queue[0]);
      queue := queue[1..];
    }

    method SpawnTask(t: Task)
      requires Valid() && t !in tasks
      modifies this`tasks
      ensures Valid() && fresh(tasks.Values - old(tasks.Values)) && Abs() == Step(old(Abs()), Spawn(t))
    {
      var p := main.Clone();
      tasks := tasks[t := p];
    }

    method EndTask(t: Task)
      requires Valid() && t in tasks
      modifies this`tasks
      ensures Valid() && tasks.Values <= old(tasks.Values) && Abs() == Step(old(Abs()), End(t))
    {
      tasks := tasks - {t};
    }

    method GetRelayServer(caller: Caller) returns (server: string)
      requires Valid() && Enabled(Abs(), GetRelay(caller))
      modifies main.rotation
      ensures Valid() && Abs() == Step(old(Abs()), GetRelay(caller))
      ensures server == Handed(Used(Abs(), caller), old(Abs()).counter).0
    {
      if caller.None? {
        server := main.GetRelayServer();
      } else {
        server := tasks[caller.value].GetRelayServer();
      }
    }
  }
}
