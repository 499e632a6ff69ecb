/** Pairing of relay connections: every connection's task runs `make_pair_` from await to
    await, and all tasks share the maps PEERS and USAGE. Timers fire on time. */
module Pairing {
  import opened Net

  /** A connection, its task and its stream go by the same number. */
  type Conn = nat

  datatype Phase =
    | Greeting                 // waiting for the first message, stream in hand
    | Unpaired                 // looked up, found nobody, stream still in hand
    | Sleeping(wake: int)      // stream parked, task asleep
    | Paired(peer: Conn)       // own stream and the peer's in hand
    | Relaying(peer: Conn)     // usage entry made
    | Ended(peer: Conn)        // relay over, usage entry still to be removed
    | Done

  /** `id` is the "ip:port" text of the connection; two connections can have the same one. */
  datatype Task = Task(id: string, uuid: string, phase: Phase)

  const WAIT := 30_000

  /** `parkedAt` and `started` are history: when a stream was parked, and who began a relay with whom. */
  datatype State = State(now: int, tasks: map<Conn, Task>, peers: map<string, Conn>, usage: set<string>,
                         parkedAt: map<Conn, int>, started: seq<(Conn, Conn)>)

  datatype Event =
    | Accept(c: Conn, id: string)
    | Reject(c: Conn)                   // timeout, other message, wrong key or empty uuid
    | LookUp(c: Conn, uuid: string)
    | Park(c: Conn)
    | Unpark(c: Conn)
    | EnterUsage(c: Conn)
    | Sample(c: Conn)                   // the relay rewrites its usage entry
    | Finish(c: Conn)
    | LeaveUsage(c: Conn)
    | Wait(until: int)

  // ---------- Steps ----------

  predicate Enabled(s: State, ev: Event) {
    match ev
    case Accept(c, _) => c !in s.tasks
    case Reject(c) => c in s.tasks && s.tasks[c].phase == Greeting
    case LookUp(c, uuid) => c in s.tasks && s.tasks[c].phase == Greeting && uuid != ""
    case Park(c) => c in s.tasks && s.tasks[c].phase == Unpaired
    case Unpark(c) => c in s.tasks && s.tasks[c].phase.Sleeping? && s.now >= s.tasks[c].phase.wake
    case EnterUsage(c) => c in s.tasks && s.tasks[c].phase.Paired?
    case Sample(c) => c in s.tasks && s.tasks[c].phase.Relaying?
    case Finish(c) => c in s.tasks && s.tasks[c].phase.Relaying?
    case LeaveUsage(c) => c in s.tasks && s.tasks[c].phase.Ended?
    case Wait(until) =>
      s.now <= until && forall c :: c in s.tasks && s.tasks[c].phase.Sleeping? ==> until <= s.tasks[c].phase.wake
  }

  function To(s: State, c: Conn, phase: Phase): State
    requires c in s.tasks
  {
    s.(tasks := s.tasks[c := s.tasks[c].(phase := phase)])
  }

  function Step(s: State, ev: Event): State
    requires Enabled(s, ev)
  {
    match ev
    case Accept(c, id) => s.(tasks := s.tasks[c := Task(id, "", Greeting)])
    case Reject(c) => To(s, c, Done)
    case LookUp(c, uuid) =>
      var t := s.tasks[c].(uuid := uuid);
      if uuid in s.peers then
        var p := s.peers[uuid];
        s.(tasks := s.tasks[c := t.(phase := Paired(p))], peers := s.peers - {uuid}, started := s.started + [(c, p)])
      else s.(tasks := s.tasks[c := t.(phase := Unpaired)])
    case Park(c) =>
      To(s, c, Sleeping(s.now + WAIT)).(peers := s.peers[s.tasks[c].uuid := c], parkedAt := s.parkedAt[c := s.now])
    case Unpark(c) => To(s, c, Done).(peers := s.peers - {s.tasks[c].uuid})
    case EnterUsage(c) => To(s, c, Relaying(s.tasks[c].phase.peer)).(usage := s.usage + {s.tasks[c].id})
    case Sample(c) => s.(usage := s.usage + {s.tasks[c].id})
    case Finish(c) => To(s, c, Ended(s.tasks[c].phase.peer))
    case LeaveUsage(c) => To(s, c, Done).(usage := s.usage - {s.tasks[c].id})
    case Wait(until) => s.(now := until)
  }

  ghost predicate Path(states: seq<State>, tr: seq<Event>) {
    && |states| == |tr| + 1
    && states[0] == State(0, map[], map[], {}, map[], [])
    && (forall i :: 0 <= i < |tr| ==> Enabled(states[i], tr[i]) && states[i + 1] == Step(states[i], tr[i]))
  }

  // ---------- The shared maps ----------

  class Hbbr {
    var now: int
    var tasks: map<Conn, Task>
    var peers: map<string, Conn>
    var usage: set<string>
    ghost var parkedAt: map<Conn, int>
    ghost var started: seq<(Conn, Conn)>

    ghost function Abs(): State
      reads this
    {
      State(now, tasks, peers, usage, parkedAt, started)
    }

    constructor ()
      ensures Abs() == State(0, map[], map[], {}, map[], [])
    {
      now, tasks, peers, usage, parkedAt, started := 0, map[], map[], {}, map[], [];
    }

    /** `PEERS.remove(&rf.uuid)` and the branch on its result. */
    method LookUpPeer(c: Conn, uuid: string) returns (peer: Option<Conn>)
      requires Enabled(Abs(), LookUp(c, uuid))
      modifies this
      ensures Abs() == Step(old(Abs()), LookUp(c, uuid))
      ensures peer == if uuid in old(peers) then Some(old(peers)[uuid]) else None
    {
      peer := if uuid in peers then Some(peers[uuid]) else None;
      peers := peers - {uuid};
      var t := tasks[c].(uuid := uuid);
      if peer.Some? {
        tasks := tasks[c := t.(phase := Paired(peer.value))];
        started := started + [(c, peer.value)];
      } else {
        tasks := tasks[c := t.(phase := Unpaired)];
        assert peers == old(peers);
      }
    }

    method ParkStream(c: Conn)
      requires Enabled(Abs(), Park(c))
      modifies this
      ensures Abs() == Step(old(Abs()), Park(c))
    {
      peers := peers[tasks[c].uuid := c];
      parkedAt := parkedAt[c := now];
      tasks := tasks[c := tasks[c].(phase := Sleeping(now + WAIT))];
    }

    method UnparkStream(c: Conn)
      requires Enabled(Abs(), Unpark(c))
      modifies this
      ensures Abs() == Step(old(Abs()), Unpark(c))
    {
      peers := peers - {tasks[c].uuid};
      tasks := tasks[c := tasks[c].(phase := Done)];
    }

    method AcceptConn(c: Conn, id: string)
      requires Enabled(Abs(), Accept(c, id))
      modifies this
      ensures Abs() == Step(old(Abs()), Accept(c, id))
    {
      tasks := tasks[c := Task(id, "", Greeting)];
    }

    method RejectConn(c: Conn)
      requires Enabled(Abs(), Reject(c))
      modifies this
      ensures Abs() == Step(old(Abs()), Reject(c))
    {
      tasks := tasks[c := tasks[c].(phase := Done)];
    }

    method InsertUsage(c: Conn)
      requires Enabled(Abs(), EnterUsage(c))
      modifies this
      ensures Abs() == Step(old(Abs()), EnterUsage(c))
    {
      usage := usage + {tasks[c].id};
      tasks := tasks[c := tasks[c].(phase := Relaying(tasks[c].phase.peer))];
    }

    method SampleUsage(c: Conn)
      requires Enabled(Abs(), Sample(c))
      modifies this
      ensures Abs() == Step(old(Abs()), Sample(c))
    {
      usage := usage + {tasks[c].id};
    }

    method FinishRelay(c: Conn)
      requires Enabled(Abs(), Finish(c))
      modifies this
      ensures Abs() == Step(old(Abs()), Finish(c))
    {
      tasks := tasks[c := tasks[c].(phase := Ended(tasks[c].phase.peer))];
    }

    method PassTime(until: int)
      requires Enabled(Abs(), Wait(until))
      modifies this
      ensures Abs() == Step(old(Abs()), Wait(until))
    {
      now := until;
    }

    method RemoveUsage(c: Conn)
      requires Enabled(Abs(), LeaveUsage(c))
      modifies this
      ensures Abs() == Step(old(Abs()), LeaveUsage(c))
    {
      usage := usage - {tasks[c].id};
      tasks := tasks[c := tasks[c].(phase := Done)];
    }
  }

  // ---------- Streams ----------

  predicate HasPeer(p: Phase) { p.Paired? || p.Relaying? || p.Ended? }

  /** The stream's own task still holds it. */
  predicate Own(s: State, x: Conn) {
    x in s.tasks && (s.tasks[x].phase.Greeting? || s.tasks[x].phase.Unpaired? || HasPeer(s.tasks[x].phase))
  }

  predicate Parked(s: State, x: Conn) {
    x in s.tasks && s.tasks[x].uuid in s.peers && s.peers[s.tasks[x].uuid] == x
  }

  /** Task `c` took the stream `x` out of PEERS and holds it. */
  predicate Took(s: State, c: Conn, x: Conn) {
    c in s.tasks && HasPeer(s.tasks[c].phase) && s.tasks[c].phase.peer == x
  }

  /** The stream is in at most one place: its own task, PEERS, or one other task. */
  ghost predicate OnePlace(s: State, x: Conn) {
    && (Own(s, x) ==> !Parked(s, x) && forall c :: !Took(s, c, x))
    && (Parked(s, x) ==> forall c :: !Took(s, c, x))
    && (forall c: Conn, d: Conn :: Took(s, c, x) && Took(s, d, x) ==> c == d)
  }

  /** Every entry lies under its connection's uuid, and that connection's task will remove this
      uuid 30 s after it parked, a moment not yet past. */
  ghost predicate EntryOk(s: State, u: string) {
    u in s.peers ==>
      var x := s.peers[u];
      && x in s.tasks && s.tasks[x].uuid == u && s.tasks[x].phase.Sleeping?
      && x in s.parkedAt && s.tasks[x].phase.wake == s.parkedAt[x] + WAIT && s.now <= s.parkedAt[x] + WAIT
  }

  predicate Active(p: Phase) { p.Relaying? || p.Ended? }

  ghost predicate UsageOk(s: State, id: string) {
    id in s.usage ==> exists c :: c in s.tasks && Active(s.tasks[c].phase) && s.tasks[c].id == id
  }

  /** A pair that began a relay: both asked for one uuid; the taker still holds the other or is done,
      and the other is neither held by its own task nor parked. */
  ghost predicate PairOk(s: State, p: (Conn, Conn)) {
    && p.0 != p.1 && p.0 in s.tasks && p.1 in s.tasks && s.tasks[p.0].uuid == s.tasks[p.1].uuid
    && (Took(s, p.0, p.1) || s.tasks[p.0].phase.Done?)
    && (s.tasks[p.1].phase.Sleeping? || s.tasks[p.1].phase.Done?) && !Parked(s, p.1)
  }

  ghost predicate Disjoint(p: (Conn, Conn), q: (Conn, Conn)) {
    p.0 != q.0 && p.0 != q.1 && p.1 != q.0 && p.1 != q.1
  }

  ghost predicate Streams(s: State) {
    && (forall x: Conn :: OnePlace(s, x))
    && (forall u :: EntryOk(s, u))
    && (forall c: Conn, x: Conn :: Took(s, c, x) ==> (c, x) in s.started)
    && (forall c: Conn :: c in s.tasks && s.tasks[c].phase.Sleeping? ==> s.now <= s.tasks[c].phase.wake)
  }

  ghost predicate Pairs(s: State) {
    && (forall i :: 0 <= i < |s.started| ==> PairOk(s, s.started[i]))
    && (forall i, j :: 0 <= i < j < |s.started| ==> Disjoint(s.started[i], s.started[j]))
  }

  ghost predicate Inv(s: State) {
    Streams(s) && Pairs(s) && forall id :: UsageOk(s, id)
  }

  lemma StepOnePlace(s: State, ev: Event, x: Conn)
    requires Inv(s) && Enabled(s, ev)
    ensures OnePlace(Step(s, ev), x)
  {
    var s' := Step(s, ev);
    assert OnePlace(s, x) && (!ev.Wait? ==> OnePlace(s, ev.c));
    assert EntryOk(s, if ev.LookUp? then ev.uuid else "");
    if x in s.tasks {
      assert EntryOk(s, s.tasks[x].uuid);
    }
    assert forall c: Conn :: Took(s', c, x) ==> Took(s, c, x) || (ev.LookUp? && c == ev.c && Parked(s, x));
  }

  lemma StepEntry(s: State, ev: Event, u: string)
    requires Inv(s) && Enabled(s, ev)
    ensures EntryOk(Step(s, ev), u)
  {
    assert EntryOk(s, u);
    if ev.Unpark? || ev.Park? {
      assert EntryOk(s, s.tasks[ev.c].uuid);
    }
  }

  lemma StepPair(s: State, ev: Event, p: (Conn, Conn))
    requires Inv(s) && Enabled(s, ev) && p in s.started
    ensures PairOk(Step(s, ev), p)
  {
    assert PairOk(s, p);
  }

  lemma StepUsage(s: State, ev: Event, id: string)
    requires Inv(s) && Enabled(s, ev)
    ensures UsageOk(Step(s, ev), id)
  {
    assert UsageOk(s, id);
    var s' := Step(s, ev);
    if id in s'.usage {
      if id in s.usage {
        var c :| c in s.tasks && Active(s.tasks[c].phase) && s.tasks[c].id == id;
        assert c in s'.tasks && Active(s'.tasks[c].phase) && s'.tasks[c].id == id;
      } else {
        assert ev.c in s'.tasks && Active(s'.tasks[ev.c].phase) && s'.tasks[ev.c].id == id;
      }
    }
  }

  /** A new pair is made of a stream that was never in a relay and a parked one. */
  lemma NewPair(s: State, c: Conn, uuid: string)
    requires Inv(s) && Enabled(s, LookUp(c, uuid)) && uuid in s.peers
    ensures PairOk(Step(s, LookUp(c, uuid)), (c, s.peers[uuid]))
    ensures forall i :: 0 <= i < |s.started| ==> Disjoint(s.started[i], (c, s.peers[uuid]))
  {
    assert EntryOk(s, uuid);
    forall i | 0 <= i < |s.started|
      ensures Disjoint(s.started[i], (c, s.peers[uuid]))
    {
      assert PairOk(s, s.started[i]);
    }
  }

  lemma StepInv(s: State, ev: Event)
    requires Inv(s) && Enabled(s, ev)
    ensures Inv(Step(s, ev))
  {
    var s' := Step(s, ev);
    forall x: Conn ensures OnePlace(s', x) { StepOnePlace(s, ev, x); }
    forall u ensures EntryOk(s', u) { StepEntry(s, ev, u); }
    forall id ensures UsageOk(s', id) { StepUsage(s, ev, id); }
    forall i | 0 <= i < |s.started| ensures PairOk(s', s.started[i]) { StepPair(s, ev, s.started[i]); }
    if ev.LookUp? && ev.uuid in s.peers {
      NewPair(s, ev.c, ev.uuid);
    }
    assert Pairs(s');
    assert Streams(s');
  }

  lemma {:induction false} Reachable(states: seq<State>, tr: seq<Event>, k: nat)
    requires Path(states, tr) && k <= |tr|
    ensures Inv(states[k])
  {
    if k == 0 {
    } else {
      Reachable(states, tr, k - 1);
      StepInv(states[k - 1], tr[k - 1]);
    }
  }

  // ---------- Main results ----------

  /** In every reachable state of any number of interleaved tasks, a stream is with its own task, or
      parked under its uuid, or with exactly one other task, or gone. */
  lemma StreamIsInOnePlace(states: seq<State>, tr: seq<Event>, k: nat, x: Conn)
    requires Path(states, tr) && k <= |tr|
    ensures var s := states[k];
            && !(Own(s, x) && Parked(s, x))
            && (Own(s, x) || Parked(s, x) ==> forall c: Conn :: !Took(s, c, x))
            && (forall c: Conn, d: Conn :: Took(s, c, x) && Took(s, d, x) ==> c == d)
            && (forall u :: u in s.peers && s.peers[u] == x ==> x in s.tasks && s.tasks[x].uuid == u)
  {
    Reachable(states, tr, k);
    assert OnePlace(states[k], x);
    forall u | u in states[k].peers && states[k].peers[u] == x
      ensures x in states[k].tasks && states[k].tasks[x].uuid == u
    {
      assert EntryOk(states[k], u);
    }
  }

  /** No stream ever takes part in two relays, and the two ends of a relay asked for the same uuid. */
  lemma NoStreamIsRelayedTwice(states: seq<State>, tr: seq<Event>, k: nat)
    requires Path(states, tr) && k <= |tr|
    ensures var pairs := states[k].started;
            && (forall i :: 0 <= i < |pairs| ==> pairs[i].0 != pairs[i].1)
            && (forall i, j :: 0 <= i < j < |pairs| ==> Disjoint(pairs[i], pairs[j]))
            && (forall i :: 0 <= i < |pairs| ==>
                  pairs[i].0 in states[k].tasks && pairs[i].1 in states[k].tasks
                  && states[k].tasks[pairs[i].0].uuid == states[k].tasks[pairs[i].1].uuid)
            && (forall c: Conn, x: Conn :: Took(states[k], c, x) ==> (c, x) in pairs)
  {
    Reachable(states, tr, k);
    forall i | 0 <= i < |states[k].started| ensures PairOk(states[k], states[k].started[i]) {}
  }

  /** Every PEERS entry was parked at most 30 s ago by a task that is still asleep and will remove
      that very uuid 30 s after the parking. */
  lemma EntriesExpire(states: seq<State>, tr: seq<Event>, k: nat, u: string)
    requires Path(states, tr) && k <= |tr| && u in states[k].peers
    ensures var s := states[k]; var x := s.peers[u];
            && x in s.tasks && s.tasks[x].uuid == u && x in s.parkedAt
            && s.tasks[x].phase == Sleeping(s.parkedAt[x] + 30_000) && s.now - s.parkedAt[x] <= 30_000
  {
    Reachable(states, tr, k);
    assert EntryOk(states[k], u);
  }

  /** Every USAGE key is the id of a relay that still runs or is about to remove it. */
  lemma UsageHasARelay(states: seq<State>, tr: seq<Event>, k: nat, id: string)
    requires Path(states, tr) && k <= |tr| && id in states[k].usage
    ensures exists c :: c in states[k].tasks && Active(states[k].tasks[c].phase) && states[k].tasks[c].id == id
  {
    Reachable(states, tr, k);
    assert UsageOk(states[k], id);
  }

  /** Nothing leaks: when every task is done both shared maps are empty. */
  lemma NoLeaks(states: seq<State>, tr: seq<Event>, k: nat)
    requires Path(states, tr) && k <= |tr|
    requires forall c :: c in states[k].tasks ==> states[k].tasks[c].phase.Done?
    ensures states[k].peers == map[] && states[k].usage == {}
  {
    if u :| u in states[k].peers {
      EntriesExpire(states, tr, k, u);
    }
    if id :| id in states[k].usage {
      UsageHasARelay(states, tr, k, id);
    }
    assert states[k].peers.Keys == {};
  }

  // ---------- Meeting ----------

  /** The stream is somewhere. */
  ghost predicate Alive(s: State, x: Conn) {
    Own(s, x) || Parked(s, x) || exists c :: Took(s, c, x)
  }

  /** The ways to lose a stream: its task gives up, a relay it is in is over, another stream is parked
      over it, or its uuid is cleared. */
  predicate Drops(s: State, ev: Event, x: Conn)
    requires Enabled(s, ev)
  {
    || ev == Reject(x)
    || (ev.LeaveUsage? && (ev.c == x || Took(s, ev.c, x)))
    || ((ev.Park? || ev.Unpark?) && Parked(s, x) && s.tasks[ev.c].uuid == s.tasks[x].uuid)
  }

  lemma TookMoves(s: State, ev: Event, c: Conn, x: Conn)
    requires Inv(s) && Enabled(s, ev)
    ensures Took(Step(s, ev), c, x) <==>
              || (Took(s, c, x) && ev != LeaveUsage(c))
              || (ev.LookUp? && c == ev.c && Parked(s, x) && s.tasks[x].uuid == ev.uuid)
  {
    assert EntryOk(s, if ev.LookUp? then ev.uuid else "");
  }

  /** A stream that is somewhere stays somewhere, except for exactly these losses. */
  lemma StreamIsKeptUnlessDropped(s: State, ev: Event, x: Conn)
    requires Inv(s) && Enabled(s, ev) && Alive(s, x)
    ensures Alive(Step(s, ev), x) <==> !Drops(s, ev, x)
  {
    var s' := Step(s, ev);
    assert OnePlace(s, x) && EntryOk(s, if ev.LookUp? then ev.uuid else "");
    assert x in s.tasks ==> EntryOk(s, s.tasks[x].uuid);
    forall c: Conn
      ensures Took(s', c, x) <==>
                || (Took(s, c, x) && ev != LeaveUsage(c))
                || (ev.LookUp? && c == ev.c && Parked(s, x) && s.tasks[x].uuid == ev.uuid)
    {
      TookMoves(s, ev, c, x);
    }
    if c :| Took(s, c, x) {
      assert !Own(s, x) && !Parked(s, x);
      assert Took(s', c, x) <==> !Drops(s, ev, x);
    }
  }

  /** Somebody acts on this uuid. */
  predicate Touches(s: State, ev: Event, u: string) {
    (ev.LookUp? && ev.uuid == u) || ((ev.Park? || ev.Unpark?) && ev.c in s.tasks && s.tasks[ev.c].uuid == u)
  }

  /** A stream whose task has parked it once is never parked again. */
  predicate Rested(s: State, x: Conn, u: string) {
    x in s.tasks && s.tasks[x].uuid == u && (s.tasks[x].phase.Sleeping? || s.tasks[x].phase.Done?)
  }

  lemma StepParked(s: State, ev: Event, x: Conn, u: string)
    requires Inv(s) && Enabled(s, ev) && Rested(s, x, u)
    ensures Rested(Step(s, ev), x, u)
    ensures Parked(Step(s, ev), x) <==> Parked(s, x) && !Touches(s, ev, u)
  {
    assert EntryOk(s, u);
  }

  /** A parked stream stays parked exactly until somebody acts on its uuid. */
  lemma {:induction false} ParkedUntilTouched(states: seq<State>, tr: seq<Event>, j: nat, k: nat, x: Conn)
    requires Path(states, tr) && j < k <= |tr| && tr[j] == Park(x)
    ensures var u := states[j].tasks[x].uuid;
            && Rested(states[k], x, u)
            && (Parked(states[k], x) <==> forall i :: j < i < k ==> !Touches(states[i], tr[i], u))
  {
    if k == j + 1 {
    } else {
      ParkedUntilTouched(states, tr, j, k - 1, x);
      Reachable(states, tr, k - 1);
      StepParked(states[k - 1], tr[k - 1], x, states[j].tasks[x].uuid);
    }
  }

  /** Two connections meet exactly if the second is the first to act on the uuid after the first parked:
      no other look-up, parking or waking, the first's own included, comes between. */
  lemma SameUuidMeets(states: seq<State>, tr: seq<Event>, j: nat, k: nat, x: Conn, c: Conn)
    requires Path(states, tr) && j < k < |tr| && tr[j] == Park(x) && tr[k] == LookUp(c, states[j].tasks[x].uuid)
    ensures Took(states[k + 1], c, x) <==> forall i :: j < i < k ==> !Touches(states[i], tr[i], states[j].tasks[x].uuid)
    ensures Took(states[k + 1], c, x) ==> states[k + 1].started == states[k].started + [(c, x)]
  {
    ParkedUntilTouched(states, tr, j, k, x);
    Reachable(states, tr, k);
    TookMoves(states[k], tr[k], c, x);
  }

  // ---------- Usage entries when ids are distinct ----------

  ghost predicate DistinctIds(s: State) {
    forall c, d :: c in s.tasks && d in s.tasks && s.tasks[c].id == s.tasks[d].id ==> c == d
  }

  ghost predicate Listed(s: State) {
    forall c :: c in s.tasks && Active(s.tasks[c].phase) ==> s.tasks[c].id in s.usage
  }

  lemma StepListed(s: State, ev: Event)
    requires Enabled(s, ev) && DistinctIds(Step(s, ev)) && (DistinctIds(s) ==> Listed(s))
    ensures DistinctIds(s) && Listed(Step(s, ev))
  {
    var s' := Step(s, ev);
    assert forall c :: c in s.tasks ==> c in s'.tasks && s'.tasks[c].id == s.tasks[c].id;
    assert DistinctIds(s);
    forall c | c in s'.tasks && Active(s'.tasks[c].phase)
      ensures s'.tasks[c].id in s'.usage
    {
      assert (ev.EnterUsage? && c == ev.c) || (c in s.tasks && Active(s.tasks[c].phase));
    }
  }

  lemma {:induction false} AllListed(states: seq<State>, tr: seq<Event>, k: nat)
    requires Path(states, tr) && k <= |tr| && DistinctIds(states[k])
    ensures Listed(states[k])
  {
    if k == 0 {
    } else {
      var (s, ev) := (states[k - 1], tr[k - 1]);
      assert forall c :: c in s.tasks ==> c in states[k].tasks && states[k].tasks[c].id == s.tasks[c].id;
      assert DistinctIds(s);
      AllListed(states, tr, k - 1);
      StepListed(s, ev);
    }
  }

  /** If no two connections share an "ip:port" text, USAGE lists exactly the active relays. */
  lemma UsageIsExact(states: seq<State>, tr: seq<Event>, k: nat, id: string)
    requires Path(states, tr) && k <= |tr| && DistinctIds(states[k])
    ensures id in states[k].usage
            <==> exists c :: c in states[k].tasks && Active(states[k].tasks[c].phase) && states[k].tasks[c].id == id
  {
    AllListed(states, tr, k);
    if id in states[k].usage {
      UsageHasARelay(states, tr, k, id);
    }
  }

  // ---------- What is not promised ----------

  /** Two connections that both look up before either parks always miss each other: the second
      parking drops the first stream, which from then on is nowhere. */
  lemma CrossingLookUpsMiss(s: State, c: Conn, d: Conn, u: string)
    requires Inv(s) && c != d && u != "" && u !in s.peers
    requires c in s.tasks && d in s.tasks && s.tasks[c].phase == s.tasks[d].phase == Greeting
    ensures var s1 := Step(s, LookUp(c, u));
            var s2 := Step(s1, LookUp(d, u));
            var s3 := Step(s2, Park(c));
            var s4 := Step(s3, Park(d));
            s4.started == s.started && s4.peers == s.peers[u := d] && !Own(s4, c) && !Parked(s4, c) && forall e :: !Took(s4, e, c)
  {
    assert OnePlace(s, c);
    var s4 := Step(Step(Step(Step(s, LookUp(c, u)), LookUp(d, u)), Park(c)), Park(d));
    assert forall e :: Took(s4, e, c) ==> Took(s, e, c);
  }
}
