/** RegisterPk calls and loads from await to await: any number of them overlap, over TCP connections,
    WebSockets and spawned requests. A record is reached through handles, and a load that ends late
    puts a second record of the same id into the map. */
module Overlap {
  import opened Net
  import opened Database
  import opened Registry

  type Call = nat

  /** A record behind its lock; its place in the list of all records made. */
  type Handle = nat

  /** A lookup is `PeerMap::get` for a punch-hole request or a key. A registration has passed the
      format checks and the per-IP gate. */
  datatype Job = LookUp(wanted: string) | Register(rk: RegisterPk, addr: Addr, ws: bool) {
    function Id(): string {
      if LookUp? then wanted else rk.id
    }

    /** What `update_pk` carries to the table. */
    function Row(): Row
      requires Register?
    {
      Database.Row(rk.id, rk.uuid, rk.pk, Some(addr.ip))
    }
  }

  /** What a call does next. */
  datatype Phase =
    | Looking                                        // into memory
    | Querying                                       // not in memory; the answer of the table is due
    | Loading(load: Load)                            // the row goes into the map
    | Entering                                       // no row; the second look of `get_or`
    | Checking(h: Handle)                            // the identity check
    | Limiting(h: Handle, changed: bool)             // the per-id counter is read
    | Charging(h: Handle, changed: bool, count: nat) // and written
    | Recording(h: Handle)                           // memory is written, and the guid read
    | Writing(h: Handle, guid: Bytes)                // the table is
    | Stamping(h: Handle, guid: Bytes)               // a new row's guid goes into the record
    | Done(result: Option<RegResult>)

  datatype Task = Task(job: Job, phase: Phase)
  datatype Record = Record(id: string, peer: Peer)

  /** Who last wrote a record, who inserted the row of an id, and who last wrote that row. */
  datatype History = History(writer: map<Handle, Call>, inserter: map<string, Call>, tabled: map<string, Call>)

  datatype State = State(entry: map<string, Handle>, recs: seq<Record>, rows: Rows, tasks: map<Call, Task>, past: History)

  /** A heartbeat comes with any record its sender may have looked up before; the rest of it is under that
      record's lock. */
  datatype Event = Arrive(c: Call, job: Job) | Go(c: Call, now: int, env: Env) | Beat(h: Handle, addr: Addr, now: int)

  // ---------- Steps ----------

  /** The record a call has in hand. */
  function Hand(phase: Phase): Option<Handle> {
    match phase
    case Checking(h) => Some(h)
    case Limiting(h, _) => Some(h)
    case Charging(h, _, _) => Some(h)
    case Recording(h) => Some(h)
    case Writing(h, _) => Some(h)
    case Stamping(h, _) => Some(h)
    case _ => None
  }

  predicate TaskOk(s: State, t: Task) {
    && (Hand(t.phase).Some? ==>
          var h := Hand(t.phase).value; t.job.Register? && h < |s.recs| && s.recs[h].id == t.job.Id())
    && (t.phase.Entering? ==> t.job.Register?)
    && (t.phase.Loading? ==> t.phase.load.row.id == t.job.Id())
    && (t.job.Register? ==> t.job.rk.uuid != [])
  }

  predicate Enabled(s: State, ev: Event) {
    match ev
    case Arrive(c, job) => c !in s.tasks && (job.Register? ==> job.rk.uuid != [] && job.rk.pk != [])
    case Beat(h, _, _) => h < |s.recs|
    case Go(c, _, env) => c in s.tasks && !s.tasks[c].phase.Done? && TaskOk(s, s.tasks[c]) && env.newGuid != []
  }

  /** A new record goes into the map, over whatever is there. */
  function Put(s: State, id: string, p: Peer): State {
    s.(recs := s.recs + [Record(id, p)], entry := s.entry[id := |s.recs|])
  }

  function SetPeer(s: State, h: Handle, p: Peer): State
    requires h < |s.recs|
  {
    s.(recs := s.recs[h := s.recs[h].(peer := p)])
  }

  function Said(p: Peer, job: Job, now: int): Peer
    requires job.Register?
  {
    p.(socketAddr := job.addr, uuid := job.rk.uuid, pk := job.rk.pk, lastRegTime := now, infoIp := Some(job.addr.ip))
  }

  /** The table after a call's write, and whether it took it. */
  ghost function Tabled(s: State, job: Job, guid: Bytes, env: Env): (Rows, bool)
    requires job.Register?
  {
    Written(s.rows, guid, job.Row(), env.newGuid, env.writeOk)
  }

  function Noted(s: State, past: History): State {
    s.(past := past)
  }

  ghost function Wrote(s: State, c: Call, job: Job, guid: Bytes, env: Env): State
    requires job.Register?
  {
    var ((rows, ok), past) := (Tabled(s, job, guid, env), s.past);
    s.(rows := rows,
       past := History(past.writer,
                       if guid == [] && ok then past.inserter[job.Id() := c] else past.inserter,
                       if ok then past.tabled[job.Id() := c] else past.tabled))
  }

  /** What the call's next piece does to memory and table, */
  ghost function Effect(s: State, c: Call, now: int, env: Env): State
    requires Enabled(s, Go(c, now, env))
  {
    var Task(job, phase) := s.tasks[c];
    match phase
    case Loading(load) => Put(s, load.row.id, LoadedPeer(load.guid, load.row, now))
    case Entering => if job.Id() in s.entry then s else Put(s, job.Id(), DefaultPeer(now))
    case Charging(h, _, count) => SetPeer(s, h, s.recs[h].peer.(regCount := count, regTime := now))
    case Recording(h) => Noted(SetPeer(s, h, Said(s.recs[h].peer, job, now)), s.past.(writer := s.past.writer[h := c]))
    case Writing(h, guid) => Wrote(s, c, job, guid, env)
    case Stamping(h, guid) => SetPeer(s, h, s.recs[h].peer.(guid := guid))
    case _ => s
  }

  /** A lookup that has its record is over; a registration goes on with it. */
  function Found(job: Job, h: Handle): Phase {
    if job.LookUp? then Done(None) else Checking(h)
  }

  /** and what comes after it. */
  ghost function Next(s: State, c: Call, now: int, env: Env): Phase
    requires Enabled(s, Go(c, now, env))
  {
    var Task(job, phase) := s.tasks[c];
    match phase
    case Looking => if job.Id() in s.entry then Found(job, s.entry[job.Id()]) else Querying
    case Querying =>
      var load := ReadRow(s.rows, job.Id(), env.readOk);
      if load.Some? then Loading(load.value) else if job.LookUp? then Done(None) else Entering
    case Loading(_) => Found(job, |s.recs|)
    case Entering => Found(job, if job.Id() in s.entry then s.entry[job.Id()] else |s.recs|)
    case Checking(h) =>
      var p := s.recs[h].peer;
      if Mismatch(p, job.rk, job.addr.ip) then Done(Some(UUID_MISMATCH)) else Limiting(h, Changed(p, job.rk, job.addr.ip))
    case Limiting(h, changed) =>
      var p := s.recs[h].peer;
      if RegLimited(p, now) then Done(Some(TOO_FREQUENT)) else Charging(h, changed, RegCounted(p, now).regCount)
    case Charging(h, changed, _) => if changed || job.ws then Recording(h) else Done(Some(OK))
    case Recording(h) => Writing(h, s.recs[h].peer.guid)
    case Writing(h, guid) => if guid == [] && Tabled(s, job, guid, env).1 then Stamping(h, env.newGuid) else Done(Some(OK))
    case Stamping(_, _) => Done(Some(OK))
    case Done(_) => phase
  }

  /** The part of `update_addr` under the record's lock. */
  function Beaten(s: State, h: Handle, addr: Addr, now: int): State
    requires h < |s.recs|
  {
    var p := s.recs[h].peer;
    if p.pk == [] || IpChange(p, addr) then s else SetPeer(s, h, p.(socketAddr := addr, lastRegTime := now))
  }

  ghost function Step(s: State, ev: Event): State
    requires Enabled(s, ev)
  {
    match ev
    case Arrive(c, job) => s.(tasks := s.tasks[c := Task(job, Looking)])
    case Go(c, now, env) =>
      Effect(s, c, now, env).(tasks := s.tasks[c := Task(s.tasks[c].job, Next(s, c, now, env))])
    case Beat(h, addr, now) => Beaten(s, h, addr, now)
  }

  ghost predicate Path(states: seq<State>, tr: seq<Event>) {
    && |states| == |tr| + 1
    && (forall i :: 0 <= i < |tr| ==> Enabled(states[i], tr[i]) && states[i + 1] == Step(states[i], tr[i]))
  }

  lemma PathGoesOn(states: seq<State>, tr: seq<Event>, ev: Event, s: State)
    requires Path(states, tr) && Enabled(states[|tr|], ev) && Step(states[|tr|], ev) == s
    ensures Path(states + [s], tr + [ev])
  {
    var (states', tr') := (states + [s], tr + [ev]);
    forall i | 0 <= i < |tr'|
      ensures Enabled(states'[i], tr'[i]) && states'[i + 1] == Step(states'[i], tr'[i])
    {
      if i < |tr| {
        assert states'[i] == states[i] && tr'[i] == tr[i] && states'[i + 1] == states[i + 1];
      }
    }
  }

  lemma PathBegins(s: State, ev: Event, states: seq<State>, tr: seq<Event>)
    requires Path(states, tr) && Enabled(s, ev) && Step(s, ev) == states[0]
    ensures Path([s] + states, [ev] + tr)
  {
    var (states', tr') := ([s] + states, [ev] + tr);
    forall i | 0 <= i < |tr'|
      ensures Enabled(states'[i], tr'[i]) && states'[i + 1] == Step(states'[i], tr'[i])
    {
      if i > 0 {
        assert states'[i] == states[i - 1] && tr'[i] == tr[i - 1] && states'[i + 1] == states[i];
      }
    }
  }

  function Start(rows: Rows): State {
    State.State(map[], [], rows, map[], History(map[], map[], map[]))
  }

  // ---------- Handles ----------

  /** Every entry, and every record in a call's hand, is a record of its own id. */
  ghost predicate Wf(s: State) {
    && (forall id :: id in s.entry ==> s.entry[id] < |s.recs| && s.recs[s.entry[id]].id == id)
    && (forall c :: c in s.tasks ==> TaskOk(s, s.tasks[c]))
    && (forall h :: h in s.past.writer ==> h < |s.recs|)
  }

  ghost predicate KeepsIds(s: State, s': State) {
    && |s.recs| <= |s'.recs| && s'.tasks == s.tasks
    && (forall h :: 0 <= h < |s.recs| ==> s'.recs[h].id == s.recs[h].id)
  }

  lemma PutKeepsIds(s: State, id: string, p: Peer)
    ensures KeepsIds(s, Put(s, id, p))
  {
  }

  lemma SetPeerKeepsIds(s: State, h: Handle, p: Peer)
    requires h < |s.recs|
    ensures KeepsIds(s, SetPeer(s, h, p))
  {
  }

  /** Nothing forgets which id a record is for. */
  lemma EffectKeepsIds(s: State, c: Call, now: int, env: Env)
    requires Enabled(s, Go(c, now, env))
    ensures KeepsIds(s, Effect(s, c, now, env))
  {
    var Task(job, phase) := s.tasks[c];
    match phase
    case Loading(load) => PutKeepsIds(s, load.row.id, LoadedPeer(load.guid, load.row, now));
    case Entering => PutKeepsIds(s, job.Id(), DefaultPeer(now));
    case Charging(h, _, count) => SetPeerKeepsIds(s, h, s.recs[h].peer.(regCount := count, regTime := now));
    case Recording(h) => SetPeerKeepsIds(s, h, Said(s.recs[h].peer, job, now));
    case Stamping(h, guid) => SetPeerKeepsIds(s, h, s.recs[h].peer.(guid := guid));
    case _ =>
  }

  /** A call that is still looking for its record. */
  predicate Searching(phase: Phase) {
    phase.Looking? || phase.Querying? || phase.Loading? || phase.Entering?
  }

  lemma EffectKeepsEntries(s: State, c: Call, now: int, env: Env)
    requires Wf(s) && Enabled(s, Go(c, now, env))
    ensures var s' := Effect(s, c, now, env); forall id :: id in s'.entry ==> s'.entry[id] < |s'.recs| && s'.recs[s'.entry[id]].id == id
  {
  }

  lemma NextOk(s: State, c: Call, now: int, env: Env)
    requires Wf(s) && Enabled(s, Go(c, now, env))
    ensures TaskOk(Effect(s, c, now, env), Task(s.tasks[c].job, Next(s, c, now, env)))
  {
  }

  /** A heartbeat changes presence and address of one record, and nothing else anywhere. */
  ghost predicate SameButAddrs(s: State, s': State) {
    && s'.entry == s.entry && s'.rows == s.rows && s'.tasks == s.tasks && s'.past == s.past
    && |s'.recs| == |s.recs|
    && forall h :: 0 <= h < |s.recs| ==>
         && s'.recs[h].id == s.recs[h].id
         && var (p, p') := (s.recs[h].peer, s'.recs[h].peer);
            p' == p.(socketAddr := p'.socketAddr, lastRegTime := p'.lastRegTime)
  }

  lemma BeatKeeps(s: State, h: Handle, addr: Addr, now: int)
    requires h < |s.recs|
    ensures SameButAddrs(s, Beaten(s, h, addr, now))
  {
  }

  lemma StepWf(s: State, ev: Event)
    requires Wf(s) && Enabled(s, ev)
    ensures Wf(Step(s, ev))
  {
    var s' := Step(s, ev);
    match ev
    case Arrive(c, job) =>
    case Go(c, now, env) =>
      EffectKeepsIds(s, c, now, env);
      EffectKeepsEntries(s, c, now, env);
      NextOk(s, c, now, env);
      forall d | d in s'.tasks ensures TaskOk(s', s'.tasks[d]) {
        assert d != c ==> TaskOk(s, s.tasks[d]);
      }
    case Beat(h, addr, now) => BeatKeeps(s, h, addr, now);
  }

  // ---------- The table ----------

  /** A guid that is in a record, on its way to memory, or on its way to the table. */
  predicate TaskAnchored(t: Task, rows: Rows) {
    match t.phase
    case Loading(load) => Anchors(rows, load.guid, t.job.Id())
    case Writing(_, guid) => Anchors(rows, guid, t.job.Id())
    case Stamping(_, guid) => Anchors(rows, guid, t.job.Id())
    case _ => true
  }

  ghost predicate Anchored(s: State) {
    && Wf(s) && UniqueIds(s.rows)
    && (forall h :: 0 <= h < |s.recs| ==> Anchors(s.rows, s.recs[h].peer.guid, s.recs[h].id))
    && (forall c :: c in s.tasks ==> TaskAnchored(s.tasks[c], s.rows))
  }

  lemma WritingAnchors(s: State, c: Call, now: int, env: Env)
    requires Anchored(s) && Enabled(s, Go(c, now, env)) && s.tasks[c].phase.Writing?
    ensures var s' := Step(s, Go(c, now, env));
            && UniqueIds(s'.rows) && RowsKept(s.rows, s'.rows) && TaskAnchored(s'.tasks[c], s'.rows) && s'.recs == s.recs
  {
    var Task(job, phase) := s.tasks[c];
    assert TaskAnchored(s.tasks[c], s.rows);
    WrittenKeeps(s.rows, phase.guid, job.Row(), env.newGuid, env.writeOk);
  }

  lemma NextAnchored(s: State, c: Call, now: int, env: Env)
    requires Anchored(s) && Enabled(s, Go(c, now, env)) && !s.tasks[c].phase.Writing?
    ensures TaskAnchored(Task(s.tasks[c].job, Next(s, c, now, env)), s.rows)
  {
    if Hand(s.tasks[c].phase).Some? {
      var h := Hand(s.tasks[c].phase).value;
      assert Anchors(s.rows, s.recs[h].peer.guid, s.recs[h].id);
    }
  }

  lemma EffectAnchored(s: State, c: Call, now: int, env: Env)
    requires Anchored(s) && Enabled(s, Go(c, now, env)) && !s.tasks[c].phase.Writing?
    ensures var s' := Effect(s, c, now, env);
            && s'.rows == s.rows
            && (forall h :: 0 <= h < |s'.recs| ==> Anchors(s.rows, s'.recs[h].peer.guid, s'.recs[h].id))
  {
    assert TaskAnchored(s.tasks[c], s.rows);
  }

  lemma StepKeepsRows(s: State, ev: Event)
    requires Anchored(s) && Enabled(s, ev)
    ensures Anchored(Step(s, ev)) && RowsKept(s.rows, Step(s, ev).rows)
  {
    StepWf(s, ev);
    match ev
    case Arrive(c, job) =>
    case Go(c, now, env) => GoKeepsRows(s, c, now, env);
    case Beat(h, addr, now) =>
      BeatKeeps(s, h, addr, now);
      assert forall i :: 0 <= i < |s.recs| ==> Anchors(s.rows, s.recs[i].peer.guid, s.recs[i].id);
  }

  lemma GoKeepsRows(s: State, c: Call, now: int, env: Env)
    requires Anchored(s) && Enabled(s, Go(c, now, env))
    ensures Anchored(Step(s, Go(c, now, env))) && RowsKept(s.rows, Step(s, Go(c, now, env)).rows)
  {
    var s' := Step(s, Go(c, now, env));
    StepWf(s, Go(c, now, env));
    if s.tasks[c].phase.Writing? {
      WritingAnchors(s, c, now, env);
      forall h | 0 <= h < |s'.recs| ensures Anchors(s'.rows, s'.recs[h].peer.guid, s'.recs[h].id) {
        assert Anchors(s.rows, s.recs[h].peer.guid, s.recs[h].id);
      }
    } else {
      NextAnchored(s, c, now, env);
      EffectAnchored(s, c, now, env);
    }
    forall d | d in s'.tasks ensures TaskAnchored(s'.tasks[d], s'.rows) {
      assert d != c ==> TaskAnchored(s.tasks[d], s.rows);
    }
  }

  /** However calls overlap and whatever the table answers: no row is lost, renamed or given another uuid. */
  lemma {:induction false} RowsSurviveOverlap(states: seq<State>, tr: seq<Event>, k: nat)
    requires Path(states, tr) && Anchored(states[0]) && k <= |tr|
    ensures Anchored(states[k]) && RowsKept(states[0].rows, states[k].rows)
  {
    if k == 0 {
    } else {
      RowsSurviveOverlap(states, tr, k - 1);
      StepKeepsRows(states[k - 1], tr[k - 1]);
    }
  }

  // ---------- What a piece leaves alone ----------

  predicate SameRecord(s: State, s': State, h: Handle) {
    && h < |s.recs| && h < |s'.recs| && s'.recs[h] == s.recs[h]
    && (h in s'.past.writer <==> h in s.past.writer) && (h in s.past.writer ==> s'.past.writer[h] == s.past.writer[h])
  }

  /** A piece touches no record but the one in the call's hand. */
  lemma OtherRecords(s: State, c: Call, now: int, env: Env, h: Handle)
    requires Enabled(s, Go(c, now, env)) && h < |s.recs| && Hand(s.tasks[c].phase) != Some(h)
    ensures SameRecord(s, Effect(s, c, now, env), h)
  {
    match s.tasks[c].phase
    case Charging(h0, _, _) => assert h0 != h;
    case Recording(h0) => assert h0 != h;
    case Stamping(h0, _) => assert h0 != h;
    case _ =>
  }

  /** And no entry but the one of the call's id; a record it makes is for that id. */
  lemma OwnEntry(s: State, c: Call, now: int, env: Env, id: string)
    requires Enabled(s, Go(c, now, env)) && s.tasks[c].job.Id() != id
    ensures var s' := Effect(s, c, now, env);
            && (id in s'.entry <==> id in s.entry) && (id in s.entry ==> s'.entry[id] == s.entry[id])
            && (forall h :: |s.recs| <= h < |s'.recs| ==> s'.recs[h].id != id)
  {
    if !s.tasks[c].phase.Loading? && !s.tasks[c].phase.Entering? {
      NoNewEntry(s, c, now, env);
    }
  }

  lemma NoNewEntry(s: State, c: Call, now: int, env: Env)
    requires Enabled(s, Go(c, now, env)) && !s.tasks[c].phase.Loading? && !s.tasks[c].phase.Entering?
    ensures |Effect(s, c, now, env).recs| == |s.recs| && Effect(s, c, now, env).entry == s.entry
  {
  }

  lemma OnlyWritingWrites(s: State, c: Call, now: int, env: Env)
    requires Enabled(s, Go(c, now, env))
    ensures !s.tasks[c].phase.Writing? ==> Effect(s, c, now, env).rows == s.rows && Effect(s, c, now, env).past.inserter == s.past.inserter
    ensures !s.tasks[c].phase.Recording? ==> Effect(s, c, now, env).past.writer == s.past.writer
  {
  }

  lemma RecordsStay(s: State, c: Call, now: int, env: Env)
    requires Enabled(s, Go(c, now, env)) && !Searching(s.tasks[c].phase)
    requires var phase := s.tasks[c].phase; !phase.Charging? && !phase.Recording? && !phase.Stamping?
    ensures Effect(s, c, now, env).recs == s.recs
  {
  }

  lemma WritersStay(s: State, c: Call, now: int, env: Env)
    requires Enabled(s, Go(c, now, env))
    ensures forall h :: h in s.past.writer ==> h in Effect(s, c, now, env).past.writer
  {
  }

  // ---------- A call alone ----------

  /** The registry as whole handlers see it. */
  function Abs(s: State): Registry.State {
    Registry.State(map id | id in s.entry && s.entry[id] < |s.recs| :: s.recs[s.entry[id]].peer, s.rows, map[], [])
  }

  /** A call's finding is still up to date, as it is when nothing came between. */
  predicate UpToDate(s: State, c: Call, now: int)
    requires c in s.tasks
  {
    var Task(job, phase) := s.tasks[c];
    && TaskOk(s, s.tasks[c])
    && (phase.Querying? || phase.Loading? || phase.Entering? ==> job.Id() !in s.entry)
    && (Hand(phase).Some? ==>
          && job.Id() in s.entry && s.entry[job.Id()] == Hand(phase).value
          && var p := s.recs[Hand(phase).value].peer;
             match phase
             case Limiting(_, changed) => changed == Changed(p, job.rk, job.addr.ip)
             case Charging(_, changed, count) => changed == Changed(p, job.rk, job.addr.ip) && count == RegCounted(p, now).regCount
             case Writing(_, guid) => guid == p.guid
             case Stamping(_, _) => p.guid == []
             case _ => true)
  }

  /** What the registry will be, and the answer, if the call goes on alone. */
  ghost function Outcome(s: State, c: Call, now: int, env: Env): (Registry.State, Option<RegResult>)
    requires c in s.tasks && s.tasks[c].job.Register? && UpToDate(s, c, now)
  {
    var (Task(Register(rk, addr, ws), phase), a) := (s.tasks[c], Abs(s));
    match phase
    case Looking => Answered(RegisterKnown(a, rk, addr, ws, now, env))
    case Querying => Answered(RegisterKnown(a, rk, addr, ws, now, env))
    case Loading(load) => Answered(RegisterFound(InsertLoaded(a, load, now), rk, addr, ws, now, env))
    case Entering => Answered(RegisterFound(Enter(a, rk.id, now), rk, addr, ws, now, env))
    case Checking(_) => Answered(RegisterFound(a, rk, addr, ws, now, env))
    case Limiting(h, _) =>
      if RegLimited(s.recs[h].peer, now) then (a, Some(TOO_FREQUENT)) else (Accept(a, rk, addr, ws, now, env), Some(OK))
    case Charging(_, _, _) => (Accept(a, rk, addr, ws, now, env), Some(OK))
    case Recording(_) => (UpdatePk(a, rk.id, addr, rk.uuid, rk.pk, now, env), Some(OK))
    case Writing(_, guid) => (WriteBack(a, guid, s.tasks[c].job.Row(), env).0, Some(OK))
    case Stamping(_, guid) => (a.(cache := a.cache[rk.id := a.cache[rk.id].(guid := guid)]), Some(OK))
    case Done(result) => (a, result)
  }

  function Answered(out: (Registry.State, RegResult)): (Registry.State, Option<RegResult>) {
    (out.0, Some(out.1))
  }

  lemma PutAbs(s: State, id: string, p: Peer)
    requires Wf(s)
    ensures Abs(Put(s, id, p)) == Abs(s).(cache := Abs(s).cache[id := p])
  {
  }

  lemma SetPeerAbs(s: State, h: Handle, p: Peer, id: string)
    requires Wf(s) && id in s.entry && s.entry[id] == h
    ensures Abs(SetPeer(s, h, p)) == Abs(s).(cache := Abs(s).cache[id := p])
  {
  }

  /** The effect of a piece on the registry, for a call whose record is the one in the map. */
  lemma EffectAbs(s: State, c: Call, now: int, env: Env)
    requires Wf(s) && Enabled(s, Go(c, now, env)) && UpToDate(s, c, now)
    ensures var (a, a', Task(job, phase)) := (Abs(s), Abs(Step(s, Go(c, now, env))), s.tasks[c]);
            var id := job.Id();
            match phase
            case Loading(load) => a' == InsertLoaded(a, load, now)
            case Entering => a' == Enter(a, id, now)
            case Charging(h, _, count) => a' == a.(cache := a.cache[id := s.recs[h].peer.(regCount := count, regTime := now)])
            case Recording(h) => a' == a.(cache := a.cache[id := Said(s.recs[h].peer, job, now)])
            case Writing(_, guid) => a' == a.(rows := Tabled(s, job, guid, env).0)
            case Stamping(h, guid) => a' == a.(cache := a.cache[id := s.recs[h].peer.(guid := guid)])
            case _ => a' == a
  {
    var Task(job, phase) := s.tasks[c];
    match phase
    case Loading(load) => PutAbs(s, load.row.id, LoadedPeer(load.guid, load.row, now));
    case Entering => PutAbs(s, job.Id(), DefaultPeer(now));
    case Charging(h, _, count) => SetPeerAbs(s, h, s.recs[h].peer.(regCount := count, regTime := now), job.Id());
    case Recording(h) => SetPeerAbs(s, h, Said(s.recs[h].peer, job, now), job.Id());
    case Stamping(h, guid) => SetPeerAbs(s, h, s.recs[h].peer.(guid := guid), job.Id());
    case _ =>
  }

  lemma LookAlone(s: State, c: Call, now: int, env: Env)
    requires Wf(s) && Enabled(s, Go(c, now, env)) && UpToDate(s, c, now) && s.tasks[c].job.Register?
    requires s.tasks[c].phase.Looking? || s.tasks[c].phase.Querying?
    ensures var s' := Step(s, Go(c, now, env)); UpToDate(s', c, now) && Outcome(s', c, now, env) == Outcome(s, c, now, env)
  {
    StepWf(s, Go(c, now, env));
    EffectAbs(s, c, now, env);
  }

  lemma LoadAlone(s: State, c: Call, now: int, env: Env)
    requires Wf(s) && Enabled(s, Go(c, now, env)) && UpToDate(s, c, now) && s.tasks[c].job.Register?
    requires s.tasks[c].phase.Loading? || s.tasks[c].phase.Entering?
    ensures var s' := Step(s, Go(c, now, env)); UpToDate(s', c, now) && Outcome(s', c, now, env) == Outcome(s, c, now, env)
  {
    StepWf(s, Go(c, now, env));
    EffectAbs(s, c, now, env);
  }

  lemma CheckAlone(s: State, c: Call, now: int, env: Env)
    requires Wf(s) && Enabled(s, Go(c, now, env)) && UpToDate(s, c, now)
    requires s.tasks[c].phase.Checking? || s.tasks[c].phase.Limiting?
    ensures var s' := Step(s, Go(c, now, env)); UpToDate(s', c, now) && Outcome(s', c, now, env) == Outcome(s, c, now, env)
  {
    EffectAbs(s, c, now, env);
  }

  lemma ChargeAlone(s: State, c: Call, now: int, env: Env)
    requires Wf(s) && Enabled(s, Go(c, now, env)) && UpToDate(s, c, now) && s.tasks[c].phase.Charging?
    ensures var s' := Step(s, Go(c, now, env)); UpToDate(s', c, now) && Outcome(s', c, now, env) == Outcome(s, c, now, env)
  {
    EffectAbs(s, c, now, env);
  }

  lemma RecordAlone(s: State, c: Call, now: int, env: Env)
    requires Wf(s) && Enabled(s, Go(c, now, env)) && UpToDate(s, c, now) && s.tasks[c].phase.Recording?
    ensures var s' := Step(s, Go(c, now, env)); UpToDate(s', c, now) && Outcome(s', c, now, env) == Outcome(s, c, now, env)
  {
    EffectAbs(s, c, now, env);
  }

  lemma StampAlone(s: State, c: Call, now: int, env: Env)
    requires Wf(s) && Enabled(s, Go(c, now, env)) && UpToDate(s, c, now) && s.tasks[c].phase.Stamping?
    ensures var s' := Step(s, Go(c, now, env)); UpToDate(s', c, now) && Outcome(s', c, now, env) == Outcome(s, c, now, env)
  {
    EffectAbs(s, c, now, env);
  }

  lemma WriteAlone(s: State, c: Call, now: int, env: Env)
    requires Wf(s) && Enabled(s, Go(c, now, env)) && UpToDate(s, c, now) && s.tasks[c].phase.Writing?
    ensures var s' := Step(s, Go(c, now, env)); UpToDate(s', c, now) && Outcome(s', c, now, env) == Outcome(s, c, now, env)
  {
    EffectAbs(s, c, now, env);
    var (a, id) := (Abs(s), s.tasks[c].job.Id());
    assert a.cache[id := a.cache[id]] == a.cache;
  }

  lemma StepAlone(s: State, c: Call, now: int, env: Env)
    requires Wf(s) && Enabled(s, Go(c, now, env)) && UpToDate(s, c, now) && s.tasks[c].job.Register?
    ensures var s' := Step(s, Go(c, now, env)); UpToDate(s', c, now) && Outcome(s', c, now, env) == Outcome(s, c, now, env)
  {
    var phase := s.tasks[c].phase;
    if phase.Looking? || phase.Querying? {
      LookAlone(s, c, now, env);
    } else if phase.Loading? || phase.Entering? {
      LoadAlone(s, c, now, env);
    } else if phase.Checking? || phase.Limiting? {
      CheckAlone(s, c, now, env);
    } else if phase.Charging? {
      ChargeAlone(s, c, now, env);
    } else if phase.Recording? {
      RecordAlone(s, c, now, env);
    } else if phase.Writing? {
      WriteAlone(s, c, now, env);
    } else {
      StampAlone(s, c, now, env);
    }
  }

  /** A registration whose pieces nothing comes between does what the registry's step says, whatever
      other calls are halfway. */
  lemma {:induction false} AloneIsRegisterKnown(states: seq<State>, tr: seq<Event>, k: nat, c: Call, now: int, env: Env)
    requires Path(states, tr) && Wf(states[0]) && k <= |tr| && forall i :: 0 <= i < |tr| ==> tr[i] == Go(c, now, env)
    requires c in states[0].tasks && states[0].tasks[c].phase == Looking && states[0].tasks[c].job.Register?
    ensures Wf(states[k]) && c in states[k].tasks && states[k].tasks[c].job == states[0].tasks[c].job && UpToDate(states[k], c, now)
    ensures var Register(rk, addr, ws) := states[0].tasks[c].job;
            && Outcome(states[k], c, now, env) == Answered(RegisterKnown(Abs(states[0]), rk, addr, ws, now, env))
            && (states[k].tasks[c].phase.Done? ==>
                  (Abs(states[k]), states[k].tasks[c].phase.result) == Answered(RegisterKnown(Abs(states[0]), rk, addr, ws, now, env)))
  {
    if k == 0 {
    } else {
      AloneIsRegisterKnown(states, tr, k - 1, c, now, env);
      assert Enabled(states[k - 1], tr[k - 1]);
      StepAlone(states[k - 1], c, now, env);
      StepWf(states[k - 1], tr[k - 1]);
    }
  }

  /** What the registry will be if a lookup goes on alone. */
  ghost function LookUpOutcome(s: State, c: Call, now: int, env: Env): Registry.State
    requires c in s.tasks
  {
    var (a, id) := (Abs(s), s.tasks[c].job.Id());
    match s.tasks[c].phase
    case Looking => Get(a, id, now, env.readOk).0
    case Querying => Get(a, id, now, env.readOk).0
    case Loading(load) => InsertLoaded(a, load, now)
    case _ => a
  }

  lemma StepLookUp(s: State, c: Call, now: int, env: Env)
    requires Wf(s) && Enabled(s, Go(c, now, env)) && UpToDate(s, c, now) && s.tasks[c].job.LookUp?
    ensures var s' := Step(s, Go(c, now, env)); UpToDate(s', c, now) && LookUpOutcome(s', c, now, env) == LookUpOutcome(s, c, now, env)
  {
    StepWf(s, Go(c, now, env));
    EffectAbs(s, c, now, env);
  }

  /** A lookup whose pieces nothing comes between is the registry's `get`. */
  lemma {:induction false} AloneIsGet(states: seq<State>, tr: seq<Event>, k: nat, c: Call, now: int, env: Env)
    requires Path(states, tr) && Wf(states[0]) && k <= |tr| && forall i :: 0 <= i < |tr| ==> tr[i] == Go(c, now, env)
    requires c in states[0].tasks && states[0].tasks[c].phase == Looking && states[0].tasks[c].job.LookUp?
    ensures Wf(states[k]) && c in states[k].tasks && states[k].tasks[c].job == states[0].tasks[c].job && UpToDate(states[k], c, now)
    ensures LookUpOutcome(states[k], c, now, env) == Get(Abs(states[0]), states[0].tasks[c].job.Id(), now, env.readOk).0
    ensures states[k].tasks[c].phase.Done? ==> Abs(states[k]) == Get(Abs(states[0]), states[0].tasks[c].job.Id(), now, env.readOk).0
  {
    if k == 0 {
    } else {
      AloneIsGet(states, tr, k - 1, c, now, env);
      assert Enabled(states[k - 1], tr[k - 1]);
      StepLookUp(states[k - 1], c, now, env);
      StepWf(states[k - 1], tr[k - 1]);
    }
  }

  /** A heartbeat on the record in the map is the registry's `update_addr`. */
  lemma BeatIsUpdateAddr(s: State, id: string, addr: Addr, now: int)
    requires Wf(s) && id in s.entry
    ensures Abs(Beaten(s, s.entry[id], addr, now)) == UpdateAddr(Abs(s), id, addr, now).0
  {
    SetPeerAbs(s, s.entry[id], s.recs[s.entry[id]].peer.(socketAddr := addr, lastRegTime := now), id);
  }
}
