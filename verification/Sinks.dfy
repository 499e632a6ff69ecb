/** Who owns the writing half of a TCP or WebSocket connection to the id server: its task, the
    `tcp_punch` map, the `ws_map`, a sender, or nobody. */
module Sinks {
  import opened Net

  /** A connection, and its sink, go by the same number. */
  type Conn = nat

  /** What a connection's task is doing between two awaits. */
  datatype Phase =
    | Reading
    | Answering(to: Option<Addr>)  // after a punch-hole request: None answers the asker itself
    | Closing
    | Closed

  /** `key` is the map key made from the connection's address; keys may collide. */
  datatype Task = Task(key: Addr, ws: bool, hasSink: bool, phase: Phase)

  /** `leaving` holds sinks taken out of a map for their last message; `told` counts the
      messages a sink transmitted after it was first parked. */
  datatype State = State(tasks: map<Conn, Task>, tcpPunch: map<Addr, Conn>, wsMap: map<Addr, Conn>,
                         leaving: set<Conn>, told: map<Conn, nat>)

  datatype Event =
    | Open(c: Conn, key: Addr, ws: bool)
    | PunchHoleRequest(c: Conn, to: Option<Addr>)
    | AnswerPunch(c: Conn)
    | RequestRelay(c: Conn)
    | Reply(c: Conn, addressee: Addr)        // RelayResponse, PunchHoleSent, LocalAddr
    | RegisterPk(c: Conn, ok: bool)
    | KeyExchange(c: Conn, ok: bool)
    | Plain(c: Conn)                       // RegisterPeer, TestNat, Online and unknown messages
    | HangUp(c: Conn)                      // timeout or end of stream
    | Close(c: Conn)
    | Transmit(x: Conn)

  // ---------- Steps ----------

  predicate Enabled(s: State, ev: Event) {
    match ev
    case Open(c, _, _) => c !in s.tasks
    case AnswerPunch(c) => c in s.tasks && s.tasks[c].phase.Answering?
    case Close(c) => c in s.tasks && s.tasks[c].phase == Closing
    case Transmit(x) => x in s.leaving
    case _ => ev.c in s.tasks && s.tasks[ev.c].phase == Reading
  }

  function SetPhase(s: State, c: Conn, phase: Phase): State
    requires c in s.tasks
  {
    s.(tasks := s.tasks[c := s.tasks[c].(phase := phase)])
  }

  /** `sink.take()` into `tcp_punch`; a sink already under that key is dropped. */
  function Park(s: State, c: Conn): State
    requires c in s.tasks
  {
    var t := s.tasks[c];
    if t.hasSink then s.(tasks := s.tasks[c := t.(hasSink := false)], tcpPunch := s.tcpPunch[t.key := c], told := s.told[c := 0])
    else s
  }

  function ParkWs(s: State, c: Conn): State
    requires c in s.tasks
  {
    var t := s.tasks[c];
    if t.hasSink then s.(tasks := s.tasks[c := t.(hasSink := false)], wsMap := s.wsMap[t.key := c], told := s.told[c := 0])
    else s
  }

  /** `tcp_punch.remove(key)` for a last message. */
  function TakeTcp(s: State, key: Addr): State {
    if key in s.tcpPunch then s.(tcpPunch := s.tcpPunch - {key}, leaving := s.leaving + {s.tcpPunch[key]}) else s
  }

  function TakeWs(s: State, key: Addr): State {
    if key in s.wsMap then s.(wsMap := s.wsMap - {key}, leaving := s.leaving + {s.wsMap[key]}) else s
  }

  function Step(s: State, ev: Event): State
    requires Enabled(s, ev)
  {
    match ev
    case Open(c, key, ws) => s.(tasks := s.tasks[c := Task(key, ws, true, Reading)])
    case PunchHoleRequest(c, to) => SetPhase(Park(s, c), c, Answering(to))
    case AnswerPunch(c) =>
      var t := s.tasks[c];
      SetPhase(if t.phase.to.Some? then TakeWs(s, t.phase.to.value) else TakeTcp(s, t.key), c, Reading)
    case RequestRelay(c) => Park(s, c)
    case Reply(c, to) => SetPhase(TakeTcp(s, to), c, Closing)
    case RegisterPk(c, ok) =>
      if !ok then SetPhase(s, c, Closing) else if s.tasks[c].ws then ParkWs(s, c) else s
    case KeyExchange(c, ok) => if ok then s else SetPhase(s, c, Closing)
    case Plain(c) => SetPhase(s, c, Closing)
    case HangUp(c) => SetPhase(s, c, Closing)
    case Close(c) =>
      var t := s.tasks[c];
      var s' := s.(tasks := s.tasks[c := t.(hasSink := false, phase := Closed)]);
      if t.hasSink then s' else s'.(tcpPunch := s.tcpPunch - {t.key})
    case Transmit(x) =>
      s.(leaving := s.leaving - {x}, told := s.told[x := (if x in s.told then s.told[x] else 0) + 1])
  }

  ghost predicate Path(states: seq<State>, tr: seq<Event>) {
    && |states| == |tr| + 1
    && states[0] == State(map[], map[], map[], {}, map[])
    && (forall i :: 0 <= i < |tr| ==> Enabled(states[i], tr[i]) && states[i + 1] == Step(states[i], tr[i]))
  }

  // ---------- The server's own maps ----------

  /** The shared maps and the task-local `sink` variables, updated in place; one method an event. */
  class SinkMaps {
    var tasks: map<Conn, Task>
    var tcpPunch: map<Addr, Conn>
    var wsMap: map<Addr, Conn>
    var leaving: set<Conn>
    ghost var told: map<Conn, nat>

    ghost function Abs(): State
      reads this
    {
      State(tasks, tcpPunch, wsMap, leaving, told)
    }

    constructor ()
      ensures Abs() == State(map[], map[], map[], {}, map[])
    {
      tasks, tcpPunch, wsMap, leaving, told := map[], map[], map[], {}, map[];
    }

    method OpenTask(c: Conn, key: Addr, ws: bool)
      requires Enabled(Abs(), Open(c, key, ws))
      modifies this
      ensures Abs() == Step(old(Abs()), Open(c, key, ws))
    {
      tasks := tasks[c := Task(key, ws, true, Reading)];
    }

    /** The start of the PunchHoleRequest and RequestRelay branches of `handle_tcp`. */
    method ParkSink(c: Conn)
      requires c in tasks
      modifies this
      ensures Abs() == Park(old(Abs()), c)
    {
      var t := tasks[c];
      if t.hasSink {
        tasks := tasks[c := t.(hasSink := false)];
        tcpPunch := tcpPunch[t.key := c];
        told := told[c := 0];
      }
    }

    /** The end of the RegisterPk branch for a WebSocket. */
    method ParkWsSink(c: Conn)
      requires c in tasks
      modifies this
      ensures Abs() == ParkWs(old(Abs()), c)
    {
      var t := tasks[c];
      if t.hasSink {
        tasks := tasks[c := t.(hasSink := false)];
        wsMap := wsMap[t.key := c];
        told := told[c := 0];
      }
    }

    /** `send_to_tcp` and `send_to_tcp_sync` up to the point where the sink is in hand. */
    method TakeTcpSink(key: Addr) returns (sink: Option<Conn>)
      modifies this
      ensures Abs() == TakeTcp(old(Abs()), key)
      ensures sink == if key in old(tcpPunch) then Some(old(tcpPunch)[key]) else None
    {
      sink := None;
      if key in tcpPunch {
        sink := Some(tcpPunch[key]);
        leaving := leaving + {tcpPunch[key]};
        tcpPunch := tcpPunch - {key};
      }
    }

    method TakeWsSink(key: Addr) returns (sink: Option<Conn>)
      modifies this
      ensures Abs() == TakeWs(old(Abs()), key)
      ensures sink == if key in old(wsMap) then Some(old(wsMap)[key]) else None
    {
      sink := None;
      if key in wsMap {
        sink := Some(wsMap[key]);
        leaving := leaving + {wsMap[key]};
        wsMap := wsMap - {key};
      }
    }

    /** The reading loop goes on or is left. */
    method Enter(c: Conn, phase: Phase)
      requires c in tasks
      modifies this`tasks
      ensures Abs() == SetPhase(old(Abs()), c, phase)
    {
      tasks := tasks[c := tasks[c].(phase := phase)];
    }

    /** `handle_tcp`, up to its first await where it has one. */
    method HandleTcp(ev: Event)
      requires Enabled(Abs(), ev) && !ev.Open? && !ev.AnswerPunch? && !ev.HangUp? && !ev.Close? && !ev.Transmit?
      modifies this
      ensures Abs() == Step(old(Abs()), ev)
    {
      match ev
      case PunchHoleRequest(c, to) =>
        ParkSink(c);
        Enter(c, Answering(to));
      case RequestRelay(c) => ParkSink(c);
      case Reply(c, addressee) =>
        var _ := TakeTcpSink(addressee);
        Enter(c, Closing);
      case RegisterPk(c, ok) =>
        if !ok {
          Enter(c, Closing);
        } else if tasks[c].ws {
          ParkWsSink(c);
        }
      case KeyExchange(c, ok) =>
        if !ok {
          Enter(c, Closing);
        }
      case Plain(c) => Enter(c, Closing);
    }

    /** `handle_tcp_punch_hole_request` once it is decided whom to answer. */
    method AnswerPunchHole(c: Conn)
      requires Enabled(Abs(), AnswerPunch(c))
      modifies this
      ensures Abs() == Step(old(Abs()), AnswerPunch(c))
    {
      var t := tasks[c];
      if t.phase.to.Some? {
        var _ := TakeWsSink(t.phase.to.value);
      } else {
        var _ := TakeTcpSink(t.key);
      }
      Enter(c, Reading);
    }

    method StopReading(c: Conn)
      requires Enabled(Abs(), HangUp(c))
      modifies this
      ensures Abs() == Step(old(Abs()), HangUp(c))
    {
      Enter(c, Closing);
    }

    /** The last lines of `handle_listener_inner`. */
    method CloseTask(c: Conn)
      requires Enabled(Abs(), Close(c))
      modifies this
      ensures Abs() == Step(old(Abs()), Close(c))
    {
      var t := tasks[c];
      if !t.hasSink {
        tcpPunch := tcpPunch - {t.key};
      }
      tasks := tasks[c := t.(hasSink := false, phase := Closed)];
    }

    /** A sender transmits and drops the sink in its hand. */
    method SendAndDrop(x: Conn)
      requires Enabled(Abs(), Transmit(x))
      modifies this
      ensures Abs() == Step(old(Abs()), Transmit(x))
    {
      leaving := leaving - {x};
      told := told[x := (if x in told then told[x] else 0) + 1];
    }
  }

  // ---------- Ownership ----------

  predicate OwnedByTask(s: State, x: Conn) { x in s.tasks && s.tasks[x].hasSink }

  predicate InTcp(s: State, x: Conn) { x in s.tasks && s.tasks[x].key in s.tcpPunch && s.tcpPunch[s.tasks[x].key] == x }

  predicate InWs(s: State, x: Conn) { x in s.tasks && s.tasks[x].key in s.wsMap && s.wsMap[s.tasks[x].key] == x }

  function One(b: bool): nat { if b then 1 else 0 }

  /** Every entry lies under the key of the connection it came from. */
  ghost predicate Keyed(m: map<Addr, Conn>, tasks: map<Conn, Task>) {
    forall k :: k in m ==> m[k] in tasks && tasks[m[k]].key == k
  }

  /** In how many of the four places is this sink? */
  function Places(s: State, x: Conn): nat {
    One(OwnedByTask(s, x)) + One(InTcp(s, x)) + One(InWs(s, x)) + One(x in s.leaving)
  }

  /** A sink sits in at most one place; parked it has transmitted nothing since, afterwards at most once;
      and whoever is in `tcp_punch` has a task that is still open. */
  ghost predicate SinkOk(s: State, x: Conn) {
    && Places(s, x) <= 1
    && (Places(s, x) == 1 && !OwnedByTask(s, x) ==> x in s.told && s.told[x] == 0)
    && (OwnedByTask(s, x) ==> x !in s.told)
    && (x in s.told ==> s.told[x] <= 1)
    && (InTcp(s, x) ==> s.tasks[x].phase != Closed)
    && (x in s.tasks && s.tasks[x].phase == Closed ==> !OwnedByTask(s, x))
    && (x !in s.tasks ==> x !in s.leaving && x !in s.told)
  }

  ghost predicate Inv(s: State) {
    && Keyed(s.tcpPunch, s.tasks) && Keyed(s.wsMap, s.tasks)
    && forall x :: SinkOk(s, x)
  }

  lemma ParkInv(s: State, c: Conn)
    requires Inv(s) && c in s.tasks && s.tasks[c].phase != Closed
    ensures Inv(Park(s, c)) && c in Park(s, c).tasks && Park(s, c).tasks[c].phase == s.tasks[c].phase
  {
    var s' := Park(s, c);
    forall x ensures SinkOk(s', x) { assert SinkOk(s, x) && SinkOk(s, c); }
  }

  lemma ParkWsInv(s: State, c: Conn)
    requires Inv(s) && c in s.tasks && s.tasks[c].phase != Closed
    ensures Inv(ParkWs(s, c))
  {
    var s' := ParkWs(s, c);
    forall x ensures SinkOk(s', x) { assert SinkOk(s, x) && SinkOk(s, c); }
  }

  lemma TakeInv(s: State, key: Addr)
    requires Inv(s)
    ensures Inv(TakeTcp(s, key)) && TakeTcp(s, key).tasks == s.tasks
    ensures Inv(TakeWs(s, key)) && TakeWs(s, key).tasks == s.tasks
  {
    forall x ensures SinkOk(TakeTcp(s, key), x) && SinkOk(TakeWs(s, key), x) { assert SinkOk(s, x); }
  }

  lemma PhaseInv(s: State, c: Conn, phase: Phase)
    requires Inv(s) && c in s.tasks && phase != Closed && s.tasks[c].phase != Closed
    ensures Inv(SetPhase(s, c, phase))
  {
    forall x ensures SinkOk(SetPhase(s, c, phase), x) { assert SinkOk(s, x); }
  }

  lemma OpenInv(s: State, c: Conn, key: Addr, ws: bool)
    requires Inv(s) && c !in s.tasks
    ensures Inv(Step(s, Open(c, key, ws)))
  {
    var s' := Step(s, Open(c, key, ws));
    forall x ensures SinkOk(s', x) { assert SinkOk(s, x) && SinkOk(s, c); }
  }

  lemma CloseInv(s: State, c: Conn)
    requires Inv(s) && Enabled(s, Close(c))
    ensures Inv(Step(s, Close(c)))
  {
    var s' := Step(s, Close(c));
    forall x ensures SinkOk(s', x) { assert SinkOk(s, x) && SinkOk(s, c); }
  }

  lemma TransmitInv(s: State, x: Conn)
    requires Inv(s) && x in s.leaving
    ensures Inv(Step(s, Transmit(x)))
  {
    var s' := Step(s, Transmit(x));
    forall y ensures SinkOk(s', y) { assert SinkOk(s, y) && SinkOk(s, x); }
  }

  lemma StepInv(s: State, ev: Event)
    requires Inv(s) && Enabled(s, ev)
    ensures Inv(Step(s, ev))
  {
    match ev
    case Open(c, key, ws) => OpenInv(s, c, key, ws);
    case PunchHoleRequest(c, to) => ParkInv(s, c); PhaseInv(Park(s, c), c, Answering(to));
    case AnswerPunch(c) =>
      var t := s.tasks[c];
      var key := if t.phase.to.Some? then t.phase.to.value else t.key;
      TakeInv(s, key);
      PhaseInv(if t.phase.to.Some? then TakeWs(s, key) else TakeTcp(s, key), c, Reading);
    case RequestRelay(c) => ParkInv(s, c);
    case Reply(c, to) => TakeInv(s, to); PhaseInv(TakeTcp(s, to), c, Closing);
    case RegisterPk(c, ok) => ParkWsInv(s, c); PhaseInv(s, c, Closing);
    case Close(c) => CloseInv(s, c);
    case Transmit(x) => TransmitInv(s, x);
    case _ => PhaseInv(s, ev.c, Closing);
  }

  /** The invariant holds in every reachable state. */
  lemma {:induction false} Reachable(states: seq<State>, tr: seq<Event>, k: nat)
    requires Path(states, tr) && k <= |tr|
    ensures Inv(states[k])
  {
    if k == 0 {
    } else {
      Reachable(states, tr, k - 1);
      StepInv(states[k - 1], tr[k - 1]);
    }
  }

  /** Over all runs: a sink is in at most one place, and after being parked it transmits at most
      one message, after which it is nowhere. */
  lemma SinkIsOwnedOnce(states: seq<State>, tr: seq<Event>, k: nat, x: Conn)
    requires Path(states, tr) && k <= |tr|
    ensures Places(states[k], x) <= 1
    ensures x in states[k].told ==> states[k].told[x] <= 1 && (states[k].told[x] == 1 ==> Places(states[k], x) == 0)
  {
    Reachable(states, tr, k);
    assert SinkOk(states[k], x);
  }

  /** `tcp_punch` holds sinks of open connections only, each under its own address; once every
      connection is closed it is empty, even if addresses collide. */
  lemma PunchMapHoldsOpenConnections(states: seq<State>, tr: seq<Event>, k: nat)
    requires Path(states, tr) && k <= |tr|
    ensures forall a :: a in states[k].tcpPunch ==>
              var c := states[k].tcpPunch[a];
              c in states[k].tasks && states[k].tasks[c].key == a && states[k].tasks[c].phase != Closed
    ensures (forall c :: c in states[k].tasks ==> states[k].tasks[c].phase == Closed) ==> states[k].tcpPunch == map[]
  {
    Reachable(states, tr, k);
    var s := states[k];
    forall a | a in s.tcpPunch
      ensures var c := s.tcpPunch[a]; c in s.tasks && s.tasks[c].key == a && s.tasks[c].phase != Closed
    {
      assert SinkOk(s, s.tcpPunch[a]);
    }
    if forall c :: c in s.tasks ==> s.tasks[c].phase == Closed {
      assert s.tcpPunch.Keys == {};
    }
  }

  /** The ways to lose a sink: it has sent its last message, its task closes with it, another connection
      with the same key is parked over it, or one closes and clears the key. */
  predicate Loses(s: State, ev: Event, x: Conn)
    requires Enabled(s, ev)
  {
    || ev == Transmit(x)
    || (ev == Close(x) && OwnedByTask(s, x))
    || ((ev.PunchHoleRequest? || ev.RequestRelay?) && InTcp(s, x) && OwnedByTask(s, ev.c) && s.tasks[ev.c].key == s.tasks[x].key)
    || (ev.RegisterPk? && ev.ok && InWs(s, x) && OwnedByTask(s, ev.c) && s.tasks[ev.c].ws && s.tasks[ev.c].key == s.tasks[x].key)
    || (ev.Close? && InTcp(s, x) && !OwnedByTask(s, ev.c) && s.tasks[ev.c].key == s.tasks[x].key)
  }

  lemma PhaseKeeps(s: State, c: Conn, phase: Phase, x: Conn)
    requires c in s.tasks
    ensures Places(SetPhase(s, c, phase), x) == Places(s, x)
  {
  }

  lemma TakeKeeps(s: State, key: Addr, x: Conn)
    requires Inv(s) && Places(s, x) == 1
    ensures Places(TakeTcp(s, key), x) == 1 && Places(TakeWs(s, key), x) == 1
  {
    assert SinkOk(s, x);
  }

  lemma ParkKeeps(s: State, c: Conn, x: Conn)
    requires Inv(s) && c in s.tasks && Places(s, x) == 1
    ensures Places(Park(s, c), x) == if InTcp(s, x) && OwnedByTask(s, c) && s.tasks[c].key == s.tasks[x].key then 0 else 1
    ensures Places(ParkWs(s, c), x) == if InWs(s, x) && OwnedByTask(s, c) && s.tasks[c].key == s.tasks[x].key then 0 else 1
  {
    assert SinkOk(s, x) && SinkOk(s, c);
  }

  lemma LifecycleKeeps(s: State, ev: Event, x: Conn)
    requires Inv(s) && Enabled(s, ev) && Places(s, x) == 1 && (ev.Open? || ev.Close? || ev.Transmit?)
    ensures Places(Step(s, ev), x) == if Loses(s, ev, x) then 0 else 1
  {
    assert SinkOk(s, x);
  }

  /** A sink that is somewhere stays somewhere, except for exactly these losses. */
  lemma SinkIsKeptUnlessLost(s: State, ev: Event, x: Conn)
    requires Inv(s) && Enabled(s, ev) && Places(s, x) == 1
    ensures Places(Step(s, ev), x) == if Loses(s, ev, x) then 0 else 1
  {
    match ev
    case PunchHoleRequest(c, to) => ParkKeeps(s, c, x); PhaseKeeps(Park(s, c), c, Answering(to), x);
    case AnswerPunch(c) =>
      var t := s.tasks[c];
      var key := if t.phase.to.Some? then t.phase.to.value else t.key;
      TakeKeeps(s, key, x);
      PhaseKeeps(if t.phase.to.Some? then TakeWs(s, key) else TakeTcp(s, key), c, Reading, x);
    case RequestRelay(c) => ParkKeeps(s, c, x);
    case Reply(c, to) => TakeKeeps(s, to, x); PhaseKeeps(TakeTcp(s, to), c, Closing, x);
    case RegisterPk(c, ok) => ParkKeeps(s, c, x); PhaseKeeps(s, c, Closing, x);
    case KeyExchange(c, ok) => PhaseKeeps(s, c, Closing, x);
    case Plain(c) => PhaseKeeps(s, c, Closing, x);
    case HangUp(c) => PhaseKeeps(s, c, Closing, x);
    case _ => LifecycleKeeps(s, ev, x);
  }

  /** After its connection is closed a sink can only be left in `ws_map` or be on its way out. */
  lemma ClosedSinkIsInWsMapOrLeaving(states: seq<State>, tr: seq<Event>, k: nat, c: Conn)
    requires Path(states, tr) && k <= |tr|
    requires c in states[k].tasks && states[k].tasks[c].phase == Closed
    ensures Places(states[k], c) == One(InWs(states[k], c)) + One(c in states[k].leaving) <= 1
  {
    Reachable(states, tr, k);
    assert SinkOk(states[k], c);
  }

  // ---------- How long a sink stays in `ws_map` ----------

  /** A punch-hole request is delivered to this key, or another WebSocket sink is parked under it. */
  predicate ClearsWs(s: State, ev: Event, key: Addr)
    requires Enabled(s, ev)
  {
    || (ev.AnswerPunch? && s.tasks[ev.c].phase.to == Some(key))
    || (ev.RegisterPk? && ev.ok && s.tasks[ev.c].ws && s.tasks[ev.c].hasSink && s.tasks[ev.c].key == key)
  }

  lemma ParkInWs(s: State, c: Conn, x: Conn)
    requires c in s.tasks && x in s.tasks && !s.tasks[x].hasSink
    ensures InWs(Park(s, c), x) <==> InWs(s, x)
    ensures InWs(ParkWs(s, c), x) <==> InWs(s, x) && !(s.tasks[c].hasSink && s.tasks[c].key == s.tasks[x].key)
  {
  }

  lemma TakeInWs(s: State, key: Addr, x: Conn)
    requires x in s.tasks
    ensures InWs(TakeTcp(s, key), x) <==> InWs(s, x)
    ensures InWs(TakeWs(s, key), x) <==> InWs(s, x) && s.tasks[x].key != key
  {
  }

  lemma PhaseInWs(s: State, c: Conn, phase: Phase, x: Conn)
    requires c in s.tasks
    ensures InWs(SetPhase(s, c, phase), x) <==> InWs(s, x)
  {
  }

  lemma StepNoSink(s: State, ev: Event, x: Conn)
    requires Enabled(s, ev) && x in s.tasks && !s.tasks[x].hasSink
    ensures var s' := Step(s, ev); x in s'.tasks && !s'.tasks[x].hasSink && s'.tasks[x].key == s.tasks[x].key
  {
  }

  lemma StepInWs(s: State, ev: Event, x: Conn)
    requires Enabled(s, ev) && x in s.tasks && !s.tasks[x].hasSink
    ensures InWs(Step(s, ev), x) <==> InWs(s, x) && !ClearsWs(s, ev, s.tasks[x].key)
  {
    match ev
    case PunchHoleRequest(c, to) => ParkInWs(s, c, x); PhaseInWs(Park(s, c), c, Answering(to), x);
    case AnswerPunch(c) =>
      var t := s.tasks[c];
      var key := if t.phase.to.Some? then t.phase.to.value else t.key;
      TakeInWs(s, key, x);
      PhaseInWs(if t.phase.to.Some? then TakeWs(s, key) else TakeTcp(s, key), c, Reading, x);
    case RequestRelay(c) => ParkInWs(s, c, x);
    case Reply(c, addressee) => TakeInWs(s, addressee, x); PhaseInWs(TakeTcp(s, addressee), c, Closing, x);
    case RegisterPk(c, ok) => ParkInWs(s, c, x); PhaseInWs(s, c, Closing, x);
    case KeyExchange(c, ok) => PhaseInWs(s, c, Closing, x);
    case Plain(c) => PhaseInWs(s, c, Closing, x);
    case HangUp(c) => PhaseInWs(s, c, Closing, x);
    case _ =>
  }

  lemma {:induction false} ParkedInWs(states: seq<State>, tr: seq<Event>, j: nat, k: nat, x: Conn)
    requires Path(states, tr) && j < k <= |tr| && tr[j] == RegisterPk(x, true)
    requires states[j].tasks[x].ws && states[j].tasks[x].hasSink
    ensures var key := states[j].tasks[x].key;
            && x in states[k].tasks && !states[k].tasks[x].hasSink && states[k].tasks[x].key == key
            && (InWs(states[k], x) <==> forall i :: j < i < k ==> !ClearsWs(states[i], tr[i], key))
  {
    if k == j + 1 {
    } else {
      ParkedInWs(states, tr, j, k - 1, x);
      StepNoSink(states[k - 1], tr[k - 1], x);
      StepInWs(states[k - 1], tr[k - 1], x);
    }
  }

  /** A WebSocket sink parked by a registration stays in `ws_map` exactly until a punch-hole request is
      delivered to its key or another one is parked under it. Closing the connection plays no part. */
  lemma WsMapOutlivesConnection(states: seq<State>, tr: seq<Event>, j: nat, k: nat, x: Conn)
    requires Path(states, tr) && j < k <= |tr| && tr[j] == RegisterPk(x, true)
    requires states[j].tasks[x].ws && states[j].tasks[x].hasSink
    ensures InWs(states[k], x) <==> forall i :: j < i < k ==> !ClearsWs(states[i], tr[i], states[j].tasks[x].key)
  {
    ParkedInWs(states, tr, j, k, x);
  }

  /** So a WebSocket that registers and closes leaves its sink behind. */
  lemma ClosedWebSocketLeavesSink(s: State, c: Conn)
    requires c in s.tasks && s.tasks[c].ws && s.tasks[c].hasSink && s.tasks[c].phase == Reading
    ensures var s3 := Step(Step(Step(s, RegisterPk(c, true)), HangUp(c)), Close(c));
            c in s3.tasks && s3.tasks[c].phase == Closed && s3.wsMap == s.wsMap[s.tasks[c].key := c]
  {
  }
}
