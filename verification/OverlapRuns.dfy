/** Runs of two calls that overlap, from the start of the server. */
module OverlapRuns {
  import opened Net
  import opened Database
  import Registry
  import opened Overlap
  import opened OverlapBinding
  import Binding

  const ACCEPTED := Done(Some(Registry.OK))

  // ---------- Two calls for one new id ----------

  /** Calls for one id on the first record made. */
  function OnFirst(id: string, p: Registry.Peer, rows: Rows, tasks: map<Call, Task>,
                   writer: map<Handle, Call>, inserter: map<string, Call>): State {
    State.State(map[id := 0], [Record(id, p)], rows, tasks, History(writer, inserter, inserter))
  }

  function Two(a: Job, next: Phase, b: Job, next': Phase): map<Call, Task> {
    map[0 := Task(a, next), 1 := Task(b, next')]
  }

  predicate Gated(job: Job) {
    job.Register? ==> job.rk.uuid != [] && job.rk.pk != []
  }

  predicate SameId(a: Job, b: Job) {
    a.Id() == b.Id() && Gated(a) && Gated(b)
  }

  predicate Rivals(a: Job, b: Job) {
    a.Register? && b.Register? && a.rk.id == b.rk.id && Gated(a) && Gated(b)
  }

  /** The two calls only, and reads that succeed. */
  predicate ByThese(ev: Event, a: Job, b: Job) {
    ev == Arrive(0, a) || ev == Arrive(1, b) || (ev.Go? && ev.env.readOk)
  }

  ghost predicate Leads(s: State, s': State, a: Job, b: Job) {
    exists states: seq<State>, tr: seq<Event> ::
      Path(states, tr) && states[0] == s && states[|tr|] == s' && forall i :: 0 <= i < |tr| ==> ByThese(tr[i], a, b)
  }

  lemma Stays(s: State, a: Job, b: Job)
    ensures Leads(s, s, a, b)
  {
    assert Path([s], []);
  }

  lemma Then(s: State, s1: State, ev: Event, a: Job, b: Job)
    requires Leads(s, s1, a, b) && Enabled(s1, ev) && ByThese(ev, a, b)
    ensures Leads(s, Step(s1, ev), a, b)
  {
    var states: seq<State>, tr: seq<Event> :|
      Path(states, tr) && states[0] == s && states[|tr|] == s1 && forall i :: 0 <= i < |tr| ==> ByThese(tr[i], a, b);
    var (states', tr') := (states + [Step(s1, ev)], tr + [ev]);
    PathGoesOn(states, tr, ev, Step(s1, ev));
    assert states'[|tr'|] == Step(s1, ev);
    assert forall i :: 0 <= i < |tr'| ==> ByThese(tr'[i], a, b);
  }

  lemma BothArrive(rows: Rows, a: Job, b: Job)
    requires SameId(a, b)
    ensures Leads(Start(rows), Start(rows).(tasks := Two(a, Looking, b, Looking)), a, b)
  {
    var s0 := Start(rows);
    var s1 := Step(s0, Arrive(0, a));
    Stays(s0, a, b);
    Then(s0, s0, Arrive(0, a), a, b);
    Then(s0, s1, Arrive(1, b), a, b);
    assert Step(s1, Arrive(1, b)) == s0.(tasks := Two(a, Looking, b, Looking));
  }

  lemma FirstFindsNothing(rows: Rows, a: Job, b: Job, now: int, env: Registry.Env)
    requires Rivals(a, b) && !HasId(rows, a.Id()) && env.readOk && env.newGuid != []
    ensures Leads(Start(rows), Start(rows).(tasks := Two(a, Entering, b, Looking)), a, b)
  {
    var s0 := Start(rows);
    var s1 := s0.(tasks := Two(a, Looking, b, Looking));
    var s2 := s0.(tasks := Two(a, Querying, b, Looking));
    BothArrive(rows, a, b);
    Then(s0, s1, Go(0, now, env), a, b);
    assert Step(s1, Go(0, now, env)) == s2;
    Then(s0, s2, Go(0, now, env), a, b);
    assert Step(s2, Go(0, now, env)) == s0.(tasks := Two(a, Entering, b, Looking));
  }

  lemma FirstEnters(rows: Rows, a: Job, b: Job, now: int, env: Registry.Env)
    requires Rivals(a, b) && !HasId(rows, a.Id()) && env.readOk && env.newGuid != []
    ensures Leads(Start(rows), OnFirst(a.Id(), Registry.DefaultPeer(now), rows, Two(a, Checking(0), b, Looking), map[], map[]), a, b)
  {
    var s0 := Start(rows);
    var s1 := s0.(tasks := Two(a, Entering, b, Looking));
    FirstFindsNothing(rows, a, b, now, env);
    Then(s0, s1, Go(0, now, env), a, b);
    assert Step(s1, Go(0, now, env))
        == OnFirst(a.Id(), Registry.DefaultPeer(now), rows, Two(a, Checking(0), b, Looking), map[], map[]);
  }

  /** A piece on the first record: what it leaves there, and what comes next. */
  function Piece(p: Registry.Peer, job: Job, phase: Phase, now: int): (Registry.Peer, Phase)
    requires job.Register?
  {
    match phase
    case Looking => (p, Checking(0))
    case Checking(h) =>
      (p, if Registry.Mismatch(p, job.rk, job.addr.ip) then Done(Some(Registry.UUID_MISMATCH))
          else Limiting(h, Registry.Changed(p, job.rk, job.addr.ip)))
    case Limiting(h, changed) =>
      (p, if Registry.RegLimited(p, now) then Done(Some(Registry.TOO_FREQUENT))
          else Charging(h, changed, Registry.RegCounted(p, now).regCount))
    case Charging(h, changed, count) =>
      (p.(regCount := count, regTime := now), if changed || job.ws then Recording(h) else ACCEPTED)
    case Recording(h) => (Said(p, job, now), Writing(h, p.guid))
    case Stamping(_, guid) => (p.(guid := guid), ACCEPTED)
    case _ => (p, phase)
  }

  predicate OnOne(job: Job, id: string, phase: Phase) {
    && job.Register? && job.rk.id == id && job.rk.uuid != []
    && (phase == Looking || phase == Checking(0) || phase.Recording? || phase.Stamping? || phase.Limiting? || phase.Charging?)
    && (Hand(phase).Some? ==> Hand(phase).value == 0)
  }

  lemma Moves(s0: State, id: string, p: Registry.Peer, rows: Rows, tasks: map<Call, Task>, writer: map<Handle, Call>,
              inserter: map<string, Call>, c: Call, now: int, env: Registry.Env, a: Job, b: Job)
    requires c in tasks && OnOne(tasks[c].job, id, tasks[c].phase) && env.readOk && env.newGuid != []
    requires Leads(s0, OnFirst(id, p, rows, tasks, writer, inserter), a, b)
    ensures var (p', next) := Piece(p, tasks[c].job, tasks[c].phase, now);
            Leads(s0, OnFirst(id, p', rows, tasks[c := Task(tasks[c].job, next)],
                              if tasks[c].phase.Recording? then writer[0 := c] else writer, inserter), a, b)
  {
    var s := OnFirst(id, p, rows, tasks, writer, inserter);
    Then(s0, s, Go(c, now, env), a, b);
    var (p', next) := Piece(p, tasks[c].job, tasks[c].phase, now);
    assert Step(s, Go(c, now, env))
        == OnFirst(id, p', rows, tasks[c := Task(tasks[c].job, next)],
                   if tasks[c].phase.Recording? then writer[0 := c] else writer, inserter);
  }

  /** An insert, which succeeds exactly if the id has no row yet. */
  lemma InsertMoves(s0: State, id: string, p: Registry.Peer, rows: Rows, tasks: map<Call, Task>, writer: map<Handle, Call>,
                    inserter: map<string, Call>, c: Call, now: int, env: Registry.Env, a: Job, b: Job)
    requires c in tasks && tasks[c].job.Register? && tasks[c].job.rk.id == id && tasks[c].job.rk.uuid != []
    requires tasks[c].phase == Writing(0, [])
    requires env.readOk && env.writeOk && env.newGuid != [] && (HasId(rows, id) || env.newGuid !in rows)
    requires Leads(s0, OnFirst(id, p, rows, tasks, writer, inserter), a, b)
    ensures Leads(s0, if HasId(rows, id) then OnFirst(id, p, rows, tasks[c := Task(tasks[c].job, ACCEPTED)], writer, inserter)
                      else OnFirst(id, p, rows[env.newGuid := tasks[c].job.Row()],
                                   tasks[c := Task(tasks[c].job, Stamping(0, env.newGuid))], writer, inserter[id := c]), a, b)
  {
    Then(s0, OnFirst(id, p, rows, tasks, writer, inserter), Go(c, now, env), a, b);
  }

  /** Both are checked while the record is blank, */
  lemma BothPass(rows: Rows, a: Job, b: Job, now: int, env: Registry.Env)
    requires Rivals(a, b) && !HasId(rows, a.Id()) && env.readOk && env.newGuid != []
    ensures Leads(Start(rows), OnFirst(a.Id(), Registry.DefaultPeer(now), rows,
                                       Two(a, Limiting(0, true), b, Limiting(0, true)), map[], map[]), a, b)
  {
    var (s0, id, p) := (Start(rows), a.Id(), Registry.DefaultPeer(now));
    FirstEnters(rows, a, b, now, env);
    var t1 := Two(a, Checking(0), b, Looking);
    Moves(s0, id, p, rows, t1, map[], map[], 1, now, env, a, b);
    var t2 := t1[1 := Task(b, Checking(0))];
    Moves(s0, id, p, rows, t2, map[], map[], 0, now, env, a, b);
    var t3 := t2[0 := Task(a, Limiting(0, true))];
    Moves(s0, id, p, rows, t3, map[], map[], 1, now, env, a, b);
    assert t3[1 := Task(b, Limiting(0, true))] == Two(a, Limiting(0, true), b, Limiting(0, true));
  }

  lemma FirstLimits(rows: Rows, a: Job, b: Job, now: int, env: Registry.Env)
    requires Rivals(a, b) && !HasId(rows, a.Id()) && env.readOk && env.newGuid != []
    ensures Leads(Start(rows), OnFirst(a.Id(), Registry.DefaultPeer(now), rows,
                                       Two(a, Charging(0, true, 1), b, Limiting(0, true)), map[], map[]), a, b)
  {
    BothPass(rows, a, b, now, env);
    var t1 := Two(a, Limiting(0, true), b, Limiting(0, true));
    Moves(Start(rows), a.Id(), Registry.DefaultPeer(now), rows, t1, map[], map[], 0, now, env, a, b);
    assert t1[0 := Task(a, Charging(0, true, 1))] == Two(a, Charging(0, true, 1), b, Limiting(0, true));
  }

  lemma FirstCharges(rows: Rows, a: Job, b: Job, now: int, env: Registry.Env)
    requires Rivals(a, b) && !HasId(rows, a.Id()) && env.readOk && env.newGuid != []
    ensures Leads(Start(rows), OnFirst(a.Id(), Registry.DefaultPeer(now).(regCount := 1, regTime := now), rows,
                                       Two(a, Recording(0), b, Limiting(0, true)), map[], map[]), a, b)
  {
    var (s0, id, p) := (Start(rows), a.Id(), Registry.DefaultPeer(now));
    FirstLimits(rows, a, b, now, env);
    var t2 := Two(a, Charging(0, true, 1), b, Limiting(0, true));
    Moves(s0, id, p, rows, t2, map[], map[], 0, now, env, a, b);
    assert t2[0 := Task(a, Recording(0))] == Two(a, Recording(0), b, Limiting(0, true));
  }

  /** charged, */
  lemma BothCharge(rows: Rows, a: Job, b: Job, now: int, env: Registry.Env)
    requires Rivals(a, b) && !HasId(rows, a.Id()) && env.readOk && env.newGuid != []
    ensures Leads(Start(rows), OnFirst(a.Id(), Registry.DefaultPeer(now).(regCount := 2, regTime := now), rows,
                                       Two(a, Recording(0), b, Recording(0)), map[], map[]), a, b)
  {
    var (s0, id, p) := (Start(rows), a.Id(), Registry.DefaultPeer(now).(regCount := 1, regTime := now));
    FirstCharges(rows, a, b, now, env);
    var t1 := Two(a, Recording(0), b, Limiting(0, true));
    Moves(s0, id, p, rows, t1, map[], map[], 1, now, env, a, b);
    var t2 := t1[1 := Task(b, Charging(0, true, 2))];
    Moves(s0, id, p, rows, t2, map[], map[], 1, now, env, a, b);
    assert t2[1 := Task(b, Recording(0))] == Two(a, Recording(0), b, Recording(0));
  }

  function Twice(job: Job, now: int): Registry.Peer
    requires job.Register?
  {
    Said(Registry.DefaultPeer(now).(regCount := 2, regTime := now), job, now)
  }

  /** and recorded, the second call last; neither has written the table yet. */
  lemma BothRecord(rows: Rows, a: Job, b: Job, now: int, env: Registry.Env)
    requires Rivals(a, b) && !HasId(rows, a.Id()) && env.readOk && env.newGuid != []
    ensures Leads(Start(rows), OnFirst(a.Id(), Twice(b, now), rows,
                                       Two(a, Writing(0, []), b, Writing(0, [])), map[0 := 1], map[]), a, b)
  {
    var (s0, id) := (Start(rows), a.Id());
    BothCharge(rows, a, b, now, env);
    var t1 := Two(a, Recording(0), b, Recording(0));
    Moves(s0, id, Registry.DefaultPeer(now).(regCount := 2, regTime := now), rows, t1, map[], map[], 0, now, env, a, b);
    var t2 := t1[0 := Task(a, Writing(0, []))];
    Moves(s0, id, Twice(a, now), rows, t2, map[0 := 0], map[], 1, now, env, a, b);
    assert t2[1 := Task(b, Writing(0, []))] == Two(a, Writing(0, []), b, Writing(0, []));
    assert map[0 := 0][0 := 1] == map[0 := 1];
  }

  /** The end of the run in which this call inserts first, and the other's insert fails on the taken id. */
  function Ended(rows: Rows, a: Job, b: Job, first: Call, now: int, g: Bytes): State
    requires Rivals(a, b)
  {
    OnFirst(a.Id(), Twice(b, now).(guid := g), rows[g := (if first == 0 then a else b).Row()],
            Two(a, ACCEPTED, b, ACCEPTED), map[0 := 1], map[a.Id() := first])
  }

  function Waiting(a: Job, b: Job, first: Call): map<Call, Task> {
    if first == 0 then Two(a, ACCEPTED, b, Writing(0, []))
    else Two(a, Writing(0, []), b, ACCEPTED)
  }

  function Inserting(a: Job, b: Job, first: Call, g: Bytes): map<Call, Task> {
    if first == 0 then Two(a, Stamping(0, g), b, Writing(0, []))
    else Two(a, Writing(0, []), b, Stamping(0, g))
  }

  lemma FirstInserts(rows: Rows, a: Job, b: Job, first: Call, now: int, env: Registry.Env)
    requires Rivals(a, b) && !HasId(rows, a.Id()) && env.readOk && env.writeOk && env.newGuid != [] && env.newGuid !in rows
    requires first < 2
    ensures Leads(Start(rows), OnFirst(a.Id(), Twice(b, now), rows[env.newGuid := (if first == 0 then a else b).Row()],
                                       Inserting(a, b, first, env.newGuid), map[0 := 1], map[a.Id() := first]), a, b)
  {
    BothRecord(rows, a, b, now, env);
    var t1 := Two(a, Writing(0, []), b, Writing(0, []));
    InsertMoves(Start(rows), a.Id(), Twice(b, now), rows, t1, map[0 := 1], map[], first, now, env, a, b);
    assert t1[first := Task(t1[first].job, Stamping(0, env.newGuid))] == Inserting(a, b, first, env.newGuid);
    assert map[][a.Id() := first] == map[a.Id() := first];
  }

  lemma FirstStamps(rows: Rows, a: Job, b: Job, first: Call, now: int, env: Registry.Env)
    requires Rivals(a, b) && !HasId(rows, a.Id()) && env.readOk && env.writeOk && env.newGuid != [] && env.newGuid !in rows
    requires first < 2
    ensures Leads(Start(rows), Ended(rows, a, b, first, now, env.newGuid).(tasks := Waiting(a, b, first)), a, b)
  {
    var (g, p, t1) := (env.newGuid, Twice(b, now), Inserting(a, b, first, env.newGuid));
    FirstInserts(rows, a, b, first, now, env);
    Moves(Start(rows), a.Id(), p, rows[g := (if first == 0 then a else b).Row()], t1,
          map[0 := 1], map[a.Id() := first], first, now, env, a, b);
    assert t1[first := Task(t1[first].job, ACCEPTED)] == Waiting(a, b, first);
  }

  lemma BothEnd(rows: Rows, a: Job, b: Job, first: Call, now: int, env: Registry.Env)
    requires Rivals(a, b) && !HasId(rows, a.Id()) && env.readOk && env.writeOk && env.newGuid != [] && env.newGuid !in rows
    requires first < 2
    ensures Leads(Start(rows), Ended(rows, a, b, first, now, env.newGuid), a, b)
  {
    var (g, waiting) := (env.newGuid, Waiting(a, b, first));
    var rows' := rows[g := (if first == 0 then a else b).Row()];
    assert HasId(rows', a.Id()) by { assert rows'[g].id == a.Id(); }
    FirstStamps(rows, a, b, first, now, env);
    InsertMoves(Start(rows), a.Id(), Twice(b, now).(guid := g), rows', waiting,
                map[0 := 1], map[a.Id() := first], 1 - first, now, env, a, b);
    AllWaited(a, b, first);
  }

  lemma AllWaited(a: Job, b: Job, first: Call)
    requires first < 2
    ensures var waiting := Waiting(a, b, first); waiting[1 - first := Task(waiting[1 - first].job, ACCEPTED)] == Two(a, ACCEPTED, b, ACCEPTED)
  {
  }

  /** With the same memory writes, the order of the inserts decides: two calls answered OK, and memory and row
      end in step whatever their uuids, or only if these are equal. */
  lemma InsertOrderDecides(rows: Rows, a: Job, b: Job, now: int, env: Registry.Env)
    requires UniqueIds(rows) && Rivals(a, b) && !HasId(rows, a.Id())
    requires env.readOk && env.writeOk && env.newGuid != [] && env.newGuid !in rows
    ensures exists s :: Leads(Start(rows), s, a, b) && BothDone(s, rows, a, b, 0) && (InStep(s, a.Id()) <==> a.rk.uuid == b.rk.uuid)
    ensures exists s :: Leads(Start(rows), s, a, b) && BothDone(s, rows, a, b, 1) && InStep(s, a.Id())
  {
    BothEnd(rows, a, b, 0, now, env);
    BothEnd(rows, a, b, 1, now, env);
    var s1 := Ended(rows, a, b, 0, now, env.newGuid);
    var s2 := Ended(rows, a, b, 1, now, env.newGuid);
    assert BothDone(s1, rows, a, b, 0) && BothDone(s2, rows, a, b, 1);
    assert InStep(s1, a.Id()) <==> a.rk.uuid == b.rk.uuid;
    assert InStep(s2, a.Id());
  }

  /** Both calls were answered OK, the second wrote memory last, and `inserter` the one new row, which says what
      that call said. */
  predicate BothDone(s: State, rows: Rows, a: Job, b: Job, inserter: Call)
    requires a.Register? && b.Register?
  {
    && s.recs != [] && s.recs[0].peer.guid !in rows
    && s.rows == rows[s.recs[0].peer.guid := (if inserter == 0 then a else b).Row()]
    && s.tasks == Two(a, ACCEPTED, b, ACCEPTED)
    && a.Id() in s.entry && s.past.writer == map[s.entry[a.Id()] := 1] && s.past.inserter == map[a.Id() := inserter]
  }

  /** Memory and table agree about an id. */
  ghost predicate InStep(s: State, id: string) {
    id in s.entry && s.entry[id] < |s.recs| && Binding.PeerSound(id, s.recs[s.entry[id]].peer, s.rows)
  }

  // ---------- Exactly which sets of calls are safe ----------

  /** Whatever the table answers: every run from the start in which all registrations of `id` name one of
      these uuids leaves memory and table in step whenever no call for it is under way. */
  ghost predicate AlwaysInStep(rows: Rows, id: string, uuids: set<Bytes>) {
    forall states: seq<State>, tr: seq<Event> ::
      && Path(states, tr) && states[0] == Start(rows)
      && (forall i :: 0 <= i < |tr| ==> Names(tr[i], id, uuids))
      && Quiescent(states[|tr|], id) && id in states[|tr|].entry
      ==> InStep(states[|tr|], id)
  }

  predicate Names(ev: Event, id: string, uuids: set<Bytes>) {
    ev.Arrive? && ev.job.Register? && ev.job.rk.id == id ==> ev.job.rk.uuid in uuids
  }

  lemma {:induction false} JobsArrived(states: seq<State>, tr: seq<Event>, k: nat, id: string, uuids: set<Bytes>)
    requires Path(states, tr) && states[0].tasks == map[] && k <= |tr|
    requires forall i :: 0 <= i < |tr| ==> Names(tr[i], id, uuids)
    ensures forall c :: IsCall(states[k], c, id) ==> Uuid(states[k], c, id) in uuids
  {
    if k == 0 {
    } else {
      JobsArrived(states, tr, k - 1, id, uuids);
      assert Names(tr[k - 1], id, uuids);
      forall c | IsCall(states[k], c, id) ensures Uuid(states[k], c, id) in uuids {
        if c in states[k - 1].tasks {
          assert states[k].tasks[c].job == states[k - 1].tasks[c].job;
          assert IsCall(states[k - 1], c, id);
        }
      }
    }
  }

  /** Overlapping registrations of a new id are safe in every interleaving exactly if they all name
      the same uuid. */
  lemma AlwaysInStepIff(rows: Rows, id: string, uuids: set<Bytes>, newGuid: Bytes)
    requires UniqueIds(rows) && !HasId(rows, id) && [] !in uuids && newGuid != [] && newGuid !in rows
    ensures AlwaysInStep(rows, id, uuids) <==> forall x, y :: x in uuids && y in uuids ==> x == y
  {
    if forall x, y :: x in uuids && y in uuids ==> x == y {
      forall states: seq<State>, tr: seq<Event> |
        && Path(states, tr) && states[0] == Start(rows)
        && (forall i :: 0 <= i < |tr| ==> Names(tr[i], id, uuids))
        && Quiescent(states[|tr|], id) && id in states[|tr|].entry
        ensures InStep(states[|tr|], id)
      {
        NewIdInStepIff(rows, states, tr, |tr|, id);
        JobsArrived(states, tr, |tr|, id, uuids);
      }
    } else {
      var x, y :| x in uuids && y in uuids && x != y;
      TwoUuidsSplit(rows, id, uuids, x, y, newGuid);
    }
  }

  lemma TheseName(a: Job, b: Job, ev: Event, id: string, uuids: set<Bytes>)
    requires ByThese(ev, a, b) && Rivals(a, b) && a.rk.uuid in uuids && b.rk.uuid in uuids
    ensures Names(ev, id, uuids)
  {
  }

  lemma TwoUuidsSplit(rows: Rows, id: string, uuids: set<Bytes>, x: Bytes, y: Bytes, newGuid: Bytes)
    requires UniqueIds(rows) && !HasId(rows, id) && newGuid != [] && newGuid !in rows
    requires x in uuids && y in uuids && x != y && x != [] && y != []
    ensures !AlwaysInStep(rows, id, uuids)
  {
    var (a, b) := (Register(Registry.RegisterPk(id, x, [0]), UNSPECIFIED, false),
                   Register(Registry.RegisterPk(id, y, [0]), UNSPECIFIED, false));
    InsertOrderDecides(rows, a, b, 0, Registry.Env(true, true, newGuid));
    var s :| Leads(Start(rows), s, a, b) && BothDone(s, rows, a, b, 0) && (InStep(s, id) <==> a.rk.uuid == b.rk.uuid);
    var states: seq<State>, tr: seq<Event> :|
      Path(states, tr) && states[0] == Start(rows) && states[|tr|] == s && forall i :: 0 <= i < |tr| ==> ByThese(tr[i], a, b);
    forall i | 0 <= i < |tr| ensures Names(tr[i], id, uuids) {
      TheseName(a, b, tr[i], id, uuids);
    }
    assert Quiescent(s, id) && !InStep(states[|tr|], id);
  }

  // ---------- Two records of one id ----------

  /** One piece on record `h`, from checking to recording. */
  function Moved(s: State, h: Handle, c: Call, now: int): State
    requires h < |s.recs| && c in s.tasks && s.tasks[c].job.Register?
  {
    var Task(job, phase) := s.tasks[c];
    var (p, next) := Piece(s.recs[h].peer, job, phase, now);
    State.State(s.entry, s.recs[h := Record(s.recs[h].id, p)], s.rows, s.tasks[c := Task(job, next)],
                if phase.Recording? then s.past.(writer := s.past.writer[h := c]) else s.past)
  }

  lemma MovesOn(s0: State, s: State, h: Handle, c: Call, now: int, env: Registry.Env, a: Job, b: Job)
    requires h < |s.recs| && c in s.tasks && TaskOk(s, s.tasks[c]) && Hand(s.tasks[c].phase) == Some(h)
    requires !s.tasks[c].phase.Writing? && !s.tasks[c].phase.Stamping?
    requires Leads(s0, s, a, b) && env.readOk && env.newGuid != []
    ensures Leads(s0, Moved(s, h, c, now), a, b)
  {
    Then(s0, s, Go(c, now, env), a, b);
    assert Step(s, Go(c, now, env)) == Moved(s, h, c, now);
  }

  function Updated(s: State, c: Call, g: Bytes): State
    requires c in s.tasks && s.tasks[c].job.Register? && g in s.rows
  {
    var job := s.tasks[c].job;
    s.(rows := s.rows[g := s.rows[g].(pk := job.rk.pk, infoIp := Some(job.addr.ip))], tasks := s.tasks[c := Task(job, ACCEPTED)],
       past := s.past.(tabled := s.past.tabled[job.Id() := c]))
  }

  lemma UpdateMoves(s0: State, s: State, h: Handle, c: Call, g: Bytes, now: int, env: Registry.Env, a: Job, b: Job)
    requires h < |s.recs| && c in s.tasks && TaskOk(s, s.tasks[c]) && s.tasks[c].phase == Writing(h, g)
    requires UniqueIds(s.rows) && g != [] && g in s.rows && s.rows[g].id == s.tasks[c].job.Id()
    requires Leads(s0, s, a, b) && env.readOk && env.writeOk && env.newGuid != []
    ensures Leads(s0, Updated(s, c, g), a, b)
  {
    Then(s0, s, Go(c, now, env), a, b);
    var job := s.tasks[c].job;
    assert s.rows[g].(pk := job.rk.pk, infoIp := Some(job.addr.ip))
        == s.rows[g].(id := job.Id(), pk := job.rk.pk, infoIp := Some(job.addr.ip));
    assert Step(s, Go(c, now, env)) == Updated(s, c, g);
  }

  /** A registration with the row's uuid that passes the identity check on it and says something new. */
  predicate SaysNew(job: Job, row: Row) {
    && job.Register? && job.rk.pk != [] && job.rk.id == row.id && job.rk.uuid == row.uuid && row.uuid != []
    && (Some(job.addr.ip) == row.infoIp || job.rk.pk == row.pk) && (Some(job.addr.ip) != row.infoIp || job.rk.pk != row.pk)
  }

  /** A record as loaded from this row at this moment. */
  predicate AsLoaded(s: State, h: Handle, g: Bytes, row: Row, now: int) {
    h < |s.recs| && s.recs[h] == Record(row.id, Registry.LoadedPeer(g, row, now))
  }

  lemma Charges(s0: State, s: State, h: Handle, c: Call, g: Bytes, row: Row, now: int, env: Registry.Env, a: Job, b: Job)
    returns (s': State)
    requires AsLoaded(s, h, g, row, now) && c in s.tasks && SaysNew(s.tasks[c].job, row) && s.tasks[c].phase == Checking(h)
    requires Leads(s0, s, a, b) && env.readOk && env.newGuid != []
    ensures Leads(s0, s', a, b)
    ensures s' == s.(recs := s.recs[h := Record(row.id, Registry.LoadedPeer(g, row, now).(regCount := 1, regTime := now))],
                     tasks := s.tasks[c := Task(s.tasks[c].job, Recording(h))])
  {
    MovesOn(s0, s, h, c, now, env, a, b);
    var s1 := Moved(s, h, c, now);
    assert s1.tasks[c].phase == Limiting(h, true) && s1.recs == s.recs;
    MovesOn(s0, s1, h, c, now, env, a, b);
    var s2 := Moved(s1, h, c, now);
    assert s2.tasks[c].phase == Charging(h, true, 1) && s2.recs == s.recs;
    MovesOn(s0, s2, h, c, now, env, a, b);
    s' := Moved(s2, h, c, now);
  }

  /** The whole of it, on a loaded record: the record and the row say what the call said. */
  lemma Registers(s0: State, s: State, h: Handle, c: Call, g: Bytes, row: Row, now: int, env: Registry.Env, a: Job, b: Job)
    returns (s': State)
    requires AsLoaded(s, h, g, row, now) && c in s.tasks && SaysNew(s.tasks[c].job, row) && s.tasks[c].phase == Checking(h)
    requires UniqueIds(s.rows) && g != [] && g in s.rows && s.rows[g].id == row.id
    requires Leads(s0, s, a, b) && env.readOk && env.writeOk && env.newGuid != []
    ensures Leads(s0, s', a, b)
    ensures s'.entry == s.entry && s'.tasks == s.tasks[c := Task(s.tasks[c].job, ACCEPTED)]
    ensures |s'.recs| == |s.recs| && s'.recs[h].peer.pk == s.tasks[c].job.rk.pk && s'.recs[h].id == row.id
    ensures forall i :: 0 <= i < |s.recs| && i != h ==> s'.recs[i] == s.recs[i]
    ensures s'.rows == s.rows[g := s.rows[g].(pk := s.tasks[c].job.rk.pk, infoIp := Some(s.tasks[c].job.addr.ip))]
  {
    var s1 := Charges(s0, s, h, c, g, row, now, env, a, b);
    MovesOn(s0, s1, h, c, now, env, a, b);
    var s2 := Moved(s1, h, c, now);
    assert s2.tasks[c] == Task(s.tasks[c].job, Writing(h, g)) && s2.rows == s.rows;
    UpdateMoves(s0, s2, h, c, g, now, env, a, b);
    s' := Updated(s2, c, g);
  }

  /** Both calls read the row before either has put it into memory. */
  lemma BothRead(rows: Rows, g: Bytes, a: Job, b: Job, now: int, env: Registry.Env)
    requires UniqueIds(rows) && g in rows && SameId(a, b) && a.Id() == rows[g].id && env.readOk && env.newGuid != []
    ensures var load := Registry.Load(g, rows[g]);
            Leads(Start(rows), Start(rows).(tasks := Two(a, Loading(load), b, Loading(load))), a, b)
  {
    var (s0, load) := (Start(rows), Registry.Load(g, rows[g]));
    BothArrive(rows, a, b);
    BothLook(rows, a, b, now, env);
    assert HasId(rows, a.Id()) && Registry.ReadRow(rows, a.Id(), true) == Some(load);
    var s1 := s0.(tasks := Two(a, Querying, b, Querying));
    var s2 := s0.(tasks := Two(a, Loading(load), b, Querying));
    Then(s0, s1, Go(0, now, env), a, b);
    assert Step(s1, Go(0, now, env)) == s2;
    Then(s0, s2, Go(1, now, env), a, b);
    assert Step(s2, Go(1, now, env)) == s0.(tasks := Two(a, Loading(load), b, Loading(load)));
  }

  lemma BothLook(rows: Rows, a: Job, b: Job, now: int, env: Registry.Env)
    requires SameId(a, b) && env.readOk && env.newGuid != []
    ensures Leads(Start(rows), Start(rows).(tasks := Two(a, Querying, b, Querying)), a, b)
  {
    var s0 := Start(rows);
    var s1 := s0.(tasks := Two(a, Looking, b, Looking));
    var s2 := s0.(tasks := Two(a, Querying, b, Looking));
    BothArrive(rows, a, b);
    Then(s0, s1, Go(0, now, env), a, b);
    assert Step(s1, Go(0, now, env)) == s2;
    Then(s0, s2, Go(1, now, env), a, b);
    assert Step(s2, Go(1, now, env)) == s0.(tasks := Two(a, Querying, b, Querying));
  }

  function TwoRecords(rows: Rows, g: Bytes, a: Job, b: Job, now: int): State
    requires g in rows
  {
    var r := Record(rows[g].id, Registry.LoadedPeer(g, rows[g], now));
    State.State(map[rows[g].id := 1], [r, r], rows, Two(a, Checking(0), b, Checking(1)), History(map[], map[], map[]))
  }

  lemma FirstLoads(rows: Rows, g: Bytes, a: Job, b: Job, now: int, env: Registry.Env)
    requires UniqueIds(rows) && g in rows && Rivals(a, b) && a.Id() == rows[g].id && env.readOk && env.newGuid != []
    ensures var (load, r) := (Registry.Load(g, rows[g]), Record(rows[g].id, Registry.LoadedPeer(g, rows[g], now)));
            Leads(Start(rows), State.State(map[rows[g].id := 0], [r], rows, Two(a, Checking(0), b, Loading(load)),
                                           History(map[], map[], map[])), a, b)
  {
    var (s0, load, r) := (Start(rows), Registry.Load(g, rows[g]), Record(rows[g].id, Registry.LoadedPeer(g, rows[g], now)));
    BothRead(rows, g, a, b, now, env);
    var s1 := s0.(tasks := Two(a, Loading(load), b, Loading(load)));
    Then(s0, s1, Go(0, now, env), a, b);
    assert Step(s1, Go(0, now, env))
        == State.State(map[rows[g].id := 0], [r], rows, Two(a, Checking(0), b, Loading(load)), History(map[], map[], map[]));
  }

  /** So both make a record, and the second one stays in the map. */
  lemma BothLoad(rows: Rows, g: Bytes, a: Job, b: Job, now: int, env: Registry.Env)
    requires UniqueIds(rows) && g in rows && Rivals(a, b) && a.Id() == rows[g].id && env.readOk && env.newGuid != []
    ensures Leads(Start(rows), TwoRecords(rows, g, a, b, now), a, b)
  {
    var (s0, load, r) := (Start(rows), Registry.Load(g, rows[g]), Record(rows[g].id, Registry.LoadedPeer(g, rows[g], now)));
    FirstLoads(rows, g, a, b, now, env);
    var s2 := State.State(map[rows[g].id := 0], [r], rows, Two(a, Checking(0), b, Loading(load)), History(map[], map[], map[]));
    Then(s0, s2, Go(1, now, env), a, b);
    assert Step(s2, Go(1, now, env)) == TwoRecords(rows, g, a, b, now);
  }

  /** Two registrations of a known id that say something new, both answered OK: the record in the map has the
      key of the one, the row that of the other. The uuid is the same throughout. */
  lemma TwoRecordsDisagree(rows: Rows, g: Bytes, a: Job, b: Job, now: int, env: Registry.Env)
    requires UniqueIds(rows) && g != [] && g in rows && SaysNew(a, rows[g]) && SaysNew(b, rows[g])
    requires env.readOk && env.writeOk && env.newGuid != []
    ensures exists s :: Leads(Start(rows), s, a, b) && s.tasks == Two(a, ACCEPTED, b, ACCEPTED)
                        && Keys(s, g, b.rk.pk, a.rk.pk)
  {
    var (s0, s1) := (Start(rows), TwoRecords(rows, g, a, b, now));
    BothLoad(rows, g, a, b, now, env);
    var s2 := Registers(s0, s1, 1, 1, g, rows[g], now, env, a, b);
    assert s2.rows[g].id == rows[g].id;
    var s3 := Registers(s0, s2, 0, 0, g, rows[g], now, env, a, b);
    assert Keys(s3, g, b.rk.pk, a.rk.pk);
  }

  /** The keys of an id, in the record in the map and in its row. */
  predicate Keys(s: State, g: Bytes, inMap: Bytes, inRow: Bytes) {
    && g in s.rows && s.rows[g].pk == inRow
    && s.rows[g].id in s.entry && s.entry[s.rows[g].id] < |s.recs| && s.recs[s.entry[s.rows[g].id]].peer.pk == inMap
  }
}
