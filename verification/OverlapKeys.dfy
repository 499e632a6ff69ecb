/** Keys and addresses of an id, in memory and in its row, over all interleavings. */
module OverlapKeys {
  import opened Net
  import opened Database
  import Registry
  import opened Overlap
  import opened OverlapBinding
  import opened OverlapRuns

  // ---------- What memory and row say ----------

  lemma WrittenSays(rows: Rows, guid: Bytes, row: Row, newGuid: Bytes, writeOk: bool)
    requires UniqueIds(rows) && Anchors(rows, guid, row.id)
    ensures var (rows', ok) := Written(rows, guid, row, newGuid, writeOk);
            if ok then forall g :: g in rows' && rows'[g].id == row.id ==> rows'[g].pk == row.pk && rows'[g].infoIp == row.infoIp
            else rows' == rows
  {
    assert forall g :: g in rows && rows[g].id == row.id ==> HasId(rows, row.id);
  }

  predicate RecSays(s: State, h: Handle)
    requires h < |s.recs|
  {
    h in s.past.writer ==>
      var c := s.past.writer[h];
      && c in s.tasks && s.tasks[c].job.Register?
      && s.recs[h].peer.pk == s.tasks[c].job.rk.pk && s.recs[h].peer.infoIp == Some(s.tasks[c].job.addr.ip)
  }

  ghost predicate RowSays(s: State, id: string) {
    id in s.past.tabled ==>
      var c := s.past.tabled[id];
      && c in s.tasks && s.tasks[c].job.Register?
      && forall g :: g in s.rows && s.rows[g].id == id ==>
           s.rows[g].pk == s.tasks[c].job.rk.pk && s.rows[g].infoIp == Some(s.tasks[c].job.addr.ip)
  }

  lemma StepRecSays(s: State, c: Call, now: int, env: Registry.Env, h: Handle)
    requires Wf(s) && Enabled(s, Go(c, now, env)) && h < |Effect(s, c, now, env).recs|
    requires h < |s.recs| ==> RecSays(s, h)
    ensures RecSays(Step(s, Go(c, now, env)), h)
  {
    OnlyWritingWrites(s, c, now, env);
    if h < |s.recs| && Hand(s.tasks[c].phase) != Some(h) {
      OtherRecords(s, c, now, env, h);
    } else if h < |s.recs| && !s.tasks[c].phase.Charging? && !s.tasks[c].phase.Recording? && !s.tasks[c].phase.Stamping? {
      RecordsStay(s, c, now, env);
    }
  }

  lemma StepRowSays(s: State, c: Call, now: int, env: Registry.Env, id: string)
    requires Anchored(s) && Enabled(s, Go(c, now, env)) && RowSays(s, id)
    ensures RowSays(Step(s, Go(c, now, env)), id)
  {
    var Task(job, phase) := s.tasks[c];
    if job.Id() != id {
      ElsewhereTable(s, c, now, env, id);
    } else if phase.Writing? {
      assert TaskAnchored(s.tasks[c], s.rows);
      WrittenSays(s.rows, phase.guid, job.Row(), env.newGuid, env.writeOk);
    } else {
      OnlyWritingWrites(s, c, now, env);
    }
  }


  function Words(job: Job): (Bytes, Option<Ip>)
    requires job.Register?
  {
    (job.rk.pk, Some(job.addr.ip))
  }

  function PeerWords(p: Registry.Peer): (Bytes, Option<Ip>) {
    (p.pk, p.infoIp)
  }

  function RowWords(row: Row): (Bytes, Option<Ip>) {
    (row.pk, row.infoIp)
  }

  /** What a record says that this event makes: the row that was loaded, or nothing. */
  function MadeBy(s: State, ev: Event): (Bytes, Option<Ip>) {
    if ev.Go? && ev.c in s.tasks && s.tasks[ev.c].phase.Loading? then RowWords(s.tasks[ev.c].phase.load.row) else ([], None)
  }

  /** What a record said when it was made, or at the beginning of the run. */
  function Made(states: seq<State>, tr: seq<Event>, k: nat, h: Handle): (Bytes, Option<Ip>)
    requires |states| == |tr| + 1 && k <= |tr|
  {
    if k == 0 then (if h < |states[0].recs| then PeerWords(states[0].recs[h].peer) else ([], None))
    else if |states[k - 1].recs| <= h < |states[k].recs| then MadeBy(states[k - 1], tr[k - 1])
    else Made(states, tr, k - 1, h)
  }

  /** A record nobody wrote says what it said when it was made. */
  ghost predicate AsMade(states: seq<State>, tr: seq<Event>, k: nat)
    requires |states| == |tr| + 1 && k <= |tr|
  {
    forall h :: 0 <= h < |states[k].recs| && h !in states[k].past.writer ==>
      PeerWords(states[k].recs[h].peer) == Made(states, tr, k, h)
  }

  ghost predicate RowAsBefore(s: State, rows: Rows, id: string) {
    id !in s.past.tabled ==> forall g :: g in s.rows && s.rows[g].id == id ==> g in rows && s.rows[g] == rows[g]
  }

  lemma StepMakes(s: State, c: Call, now: int, env: Registry.Env, h: Handle)
    requires Wf(s) && Enabled(s, Go(c, now, env))
    requires h < |Effect(s, c, now, env).recs| && h !in Effect(s, c, now, env).past.writer
    ensures h !in s.past.writer
    ensures PeerWords(Effect(s, c, now, env).recs[h].peer)
         == if h < |s.recs| then PeerWords(s.recs[h].peer) else MadeBy(s, Go(c, now, env))
  {
    WritersStay(s, c, now, env);
    if h < |s.recs| && Hand(s.tasks[c].phase) != Some(h) {
      OtherRecords(s, c, now, env, h);
    } else if h < |s.recs| && !s.tasks[c].phase.Charging? && !s.tasks[c].phase.Recording? && !s.tasks[c].phase.Stamping? {
      RecordsStay(s, c, now, env);
    }
  }

  lemma StepRowAsBefore(s: State, c: Call, now: int, env: Registry.Env, rows: Rows, id: string)
    requires Anchored(s) && Enabled(s, Go(c, now, env)) && RowAsBefore(s, rows, id)
    ensures RowAsBefore(Step(s, Go(c, now, env)), rows, id)
  {
    var Task(job, phase) := s.tasks[c];
    if job.Id() != id {
      ElsewhereTable(s, c, now, env, id);
    } else if phase.Writing? {
      assert TaskAnchored(s.tasks[c], s.rows);
      WrittenSays(s.rows, phase.guid, job.Row(), env.newGuid, env.writeOk);
    } else {
      OnlyWritingWrites(s, c, now, env);
    }
  }

  ghost predicate AllSay(s: State) {
    forall h :: 0 <= h < |s.recs| ==> RecSays(s, h)
  }

  lemma OtherSays(s: State, ev: Event, rows: Rows, id: string)
    requires Anchored(s) && AllSay(s) && RowSays(s, id) && RowAsBefore(s, rows, id) && Enabled(s, ev) && !ev.Go?
    ensures var s' := Step(s, ev);
            && AllSay(s') && RowSays(s', id) && RowAsBefore(s', rows, id)
            && |s'.recs| == |s.recs| && s'.past == s.past
            && forall h :: 0 <= h < |s.recs| ==> PeerWords(s'.recs[h].peer) == PeerWords(s.recs[h].peer)
  {
    var s' := Step(s, ev);
    if ev.Beat? {
      BeatKeeps(s, ev.h, ev.addr, ev.now);
    }
    forall h | 0 <= h < |s'.recs| ensures RecSays(s', h) {
      assert RecSays(s, h);
    }
  }

  lemma GoSays(s: State, ev: Event, rows: Rows, id: string)
    requires Anchored(s) && AllSay(s) && RowSays(s, id) && RowAsBefore(s, rows, id) && Enabled(s, ev) && ev.Go?
    ensures AllSay(Step(s, ev)) && RowSays(Step(s, ev), id) && RowAsBefore(Step(s, ev), rows, id)
  {
    var s' := Step(s, ev);
    StepRowSays(s, ev.c, ev.now, ev.env, id);
    StepRowAsBefore(s, ev.c, ev.now, ev.env, rows, id);
    forall h | 0 <= h < |s'.recs| ensures RecSays(s', h) {
      assert h < |s.recs| ==> RecSays(s, h);
      StepRecSays(s, ev.c, ev.now, ev.env, h);
    }
  }

  lemma {:induction false} PathSays(states: seq<State>, tr: seq<Event>, k: nat, id: string)
    requires Path(states, tr) && Anchored(states[0]) && states[0].past == History(map[], map[], map[]) && k <= |tr|
    ensures Anchored(states[k]) && AllSay(states[k]) && RowSays(states[k], id) && RowAsBefore(states[k], states[0].rows, id)
    ensures AsMade(states, tr, k)
  {
    if k == 0 {
    } else {
      PathSays(states, tr, k - 1, id);
      var (s, ev) := (states[k - 1], tr[k - 1]);
      StepKeepsRows(s, ev);
      if ev.Go? {
        GoSays(s, ev, states[0].rows, id);
        EffectKeepsIds(s, ev.c, ev.now, ev.env);
        forall h | 0 <= h < |states[k].recs| && h !in states[k].past.writer
          ensures PeerWords(states[k].recs[h].peer) == Made(states, tr, k, h)
        {
          StepMakes(s, ev.c, ev.now, ev.env, h);
        }
      } else {
        OtherSays(s, ev, states[0].rows, id);
      }
    }
  }

  /** What the record says by its history: the last call that wrote it, else what it was made of. */
  function InMemory(states: seq<State>, tr: seq<Event>, k: nat, h: Handle): (Bytes, Option<Ip>)
    requires |states| == |tr| + 1 && k <= |tr|
  {
    var s := states[k];
    if h in s.past.writer && s.past.writer[h] in s.tasks && s.tasks[s.past.writer[h]].job.Register?
    then Words(s.tasks[s.past.writer[h]].job)
    else Made(states, tr, k, h)
  }

  /** What the row says by its history: the last call that wrote it, else what it said at the beginning. */
  function InRow(rows: Rows, s: State, id: string, g: Bytes): (Bytes, Option<Ip>) {
    if id in s.past.tabled && s.past.tabled[id] in s.tasks && s.tasks[s.past.tabled[id]].job.Register?
    then Words(s.tasks[s.past.tabled[id]].job)
    else if g in rows then RowWords(rows[g]) else ([], None)
  }

  /** Key and address of an id agree in memory and row. */
  predicate KeyInStep(s: State, id: string, g: Bytes) {
    && id in s.entry && s.entry[id] < |s.recs| && g in s.rows
    && PeerWords(s.recs[s.entry[id]].peer) == RowWords(s.rows[g])
  }

  /** At any moment of any run, whatever the table answers: key and address in memory are those of the last
      call to write the record in the map, or of the row it was loaded from; those in the row are of the last
      call to write it, or what they were; and so they agree exactly if these do. */
  lemma KeyInStepIff(states: seq<State>, tr: seq<Event>, k: nat, id: string, g: Bytes)
    requires Path(states, tr) && Anchored(states[0]) && states[0].past == History(map[], map[], map[]) && k <= |tr|
    requires id in states[k].entry && g in states[k].rows && states[k].rows[g].id == id
    ensures var (s, mem, row) := (states[k], InMemory(states, tr, k, states[k].entry[id]), InRow(states[0].rows, states[k], id, g));
            && s.entry[id] < |s.recs|
            && PeerWords(s.recs[s.entry[id]].peer) == mem && RowWords(s.rows[g]) == row
            && (KeyInStep(s, id, g) <==> mem == row)
  {
    PathSays(states, tr, k, id);
    assert RecSays(states[k], states[k].entry[id]);
  }

  // ---------- Exactly which registrations are safe ----------

  /** The identity check lets these words pass on a record that says `row`. */
  predicate Passes(words: (Bytes, Ip), row: Row) {
    Some(words.1) == row.infoIp || words.0 == row.pk
  }

  predicate Same(words: (Bytes, Ip), row: Row) {
    Some(words.1) == row.infoIp && words.0 == row.pk
  }

  /** A registration under the row's own uuid says one of these. */
  predicate Tells(ev: Event, row: Row, said: set<(Bytes, Ip)>) {
    ev.Arrive? && ev.job.Register? && ev.job.rk.id == row.id && ev.job.rk.uuid == row.uuid ==> (ev.job.rk.pk, ev.job.addr.ip) in said
  }

  /** Every run from the start in which all registrations under the row's uuid say one of these, and none
      enters a blank record, leaves key and address in step whenever no call for the id is under way. */
  ghost predicate KeysAlwaysInStep(rows: Rows, g: Bytes, said: set<(Bytes, Ip)>)
    requires g in rows
  {
    forall states: seq<State>, tr: seq<Event> ::
      && Path(states, tr) && states[0] == Start(rows) && NoneBlank(states, tr, |tr|, rows[g].id)
      && (forall i :: 0 <= i < |tr| ==> Tells(tr[i], rows[g], said))
      && Quiescent(states[|tr|], rows[g].id) && rows[g].id in states[|tr|].entry
      ==> KeyInStep(states[|tr|], rows[g].id, g)
  }

  predicate TaskUnmoved(t: Task, row: Row) {
    && (t.phase.Loading? ==> RowWords(t.phase.load.row) == RowWords(row))
    && (Admitted(t.phase) ==> t.job.Register? && Words(t.job) == RowWords(row))
  }

  /** Row, records and calls that passed the check all say the same as `row`. */
  ghost predicate Unmoved(s: State, g: Bytes, row: Row) {
    && Known(s, row.id, g, row.uuid) && RowWords(s.rows[g]) == RowWords(row)
    && (forall h :: 0 <= h < |s.recs| && s.recs[h].id == row.id ==> PeerWords(s.recs[h].peer) == RowWords(row))
    && (forall c :: c in s.tasks && s.tasks[c].job.Id() == row.id ==> TaskUnmoved(s.tasks[c], row))
  }

  /** Registrations under way for this id either name another uuid, or say what the row says, or are
      refused by the identity check. */
  ghost predicate Harmless(s: State, row: Row) {
    forall c :: c in s.tasks && s.tasks[c].job.Register? && s.tasks[c].job.rk.id == row.id ==>
      && s.tasks[c].job.rk.uuid == row.uuid ==> HarmlessJob(s.tasks[c].job, row)
  }

  predicate HarmlessJob(job: Job, row: Row)
    requires job.Register?
  {
    Passes((job.rk.pk, job.addr.ip), row) ==> Same((job.rk.pk, job.addr.ip), row)
  }

  lemma EffectUnmoved(s: State, c: Call, now: int, env: Registry.Env, g: Bytes, row: Row)
    requires Unmoved(s, g, row) && Enabled(s, Go(c, now, env)) && !EntersBlank(s, Go(c, now, env), row.id)
    ensures var s' := Effect(s, c, now, env);
            forall h :: 0 <= h < |s'.recs| && s'.recs[h].id == row.id ==> PeerWords(s'.recs[h].peer) == RowWords(row)
  {
    assert s.tasks[c].job.Id() == row.id ==> TaskUnmoved(s.tasks[c], row);
  }

  lemma RowUnmoved(s: State, c: Call, now: int, env: Registry.Env, g: Bytes, row: Row)
    requires Unmoved(s, g, row) && Enabled(s, Go(c, now, env))
    ensures var s' := Effect(s, c, now, env); g in s'.rows ==> s'.rows[g].id == row.id ==> RowWords(s'.rows[g]) == RowWords(row)
  {
    var Task(job, phase) := s.tasks[c];
    if job.Id() != row.id {
      ElsewhereTable(s, c, now, env, row.id);
    } else if phase.Writing? {
      assert TaskAnchored(s.tasks[c], s.rows) && TaskUnmoved(s.tasks[c], row);
      WrittenSays(s.rows, phase.guid, job.Row(), env.newGuid, env.writeOk);
    } else {
      OnlyWritingWrites(s, c, now, env);
    }
  }

  lemma NextUnmoved(s: State, c: Call, now: int, env: Registry.Env, g: Bytes, row: Row)
    requires Unmoved(s, g, row) && Harmless(s, row) && Enabled(s, Go(c, now, env)) && s.tasks[c].job.Id() == row.id
    ensures TaskUnmoved(Task(s.tasks[c].job, Next(s, c, now, env)), row)
  {
    assert Knows(s.tasks[c], row.uuid) && TaskUnmoved(s.tasks[c], row);
    NextKnown(s, c, now, env, row.id, g, row.uuid);
  }

  lemma StepUnmoved(s: State, ev: Event, g: Bytes, row: Row)
    requires Unmoved(s, g, row) && Harmless(s, row) && Enabled(s, ev) && !EntersBlank(s, ev, row.id)
    ensures Unmoved(Step(s, ev), g, row)
  {
    var s' := Step(s, ev);
    StepKnownIff(s, ev, row.id, g, row.uuid);
    match ev
    case Arrive(c, job) =>
      assert TaskUnmoved(Task(job, Looking), row);
    case Go(c, now, env) =>
      EffectUnmoved(s, c, now, env, g, row);
      RowUnmoved(s, c, now, env, g, row);
      if s.tasks[c].job.Id() == row.id {
        NextUnmoved(s, c, now, env, g, row);
      }
      forall d | d in s'.tasks && s'.tasks[d].job.Id() == row.id ensures TaskUnmoved(s'.tasks[d], row) {
        assert d != c ==> TaskUnmoved(s.tasks[d], row);
      }
    case Beat(h, addr, now) => BeatKeeps(s, h, addr, now);
  }

  lemma StepHarmless(s: State, ev: Event, row: Row, said: set<(Bytes, Ip)>)
    requires Harmless(s, row) && Enabled(s, ev) && Tells(ev, row, said)
    requires forall w :: w in said && Passes(w, row) ==> Same(w, row)
    ensures Harmless(Step(s, ev), row)
  {
    var s' := Step(s, ev);
    if ev.Beat? {
      BeatKeeps(s, ev.h, ev.addr, ev.now);
    }
    forall c | c in s'.tasks && s'.tasks[c].job.Register? && s'.tasks[c].job.rk.id == row.id && s'.tasks[c].job.rk.uuid == row.uuid
      ensures HarmlessJob(s'.tasks[c].job, row)
    {
      assert c in s.tasks ==> s'.tasks[c].job == s.tasks[c].job;
    }
  }

  /** If whatever passes the identity check says the same as the row, nothing ever moves, whatever the table
      answers, so long as no registration enters a blank record. */
  lemma {:induction false} NothingMoves(states: seq<State>, tr: seq<Event>, k: nat, g: Bytes, row: Row, said: set<(Bytes, Ip)>)
    requires Path(states, tr) && k <= |tr| && NoneBlank(states, tr, k, row.id)
    requires Unmoved(states[0], g, row) && Harmless(states[0], row)
    requires forall i :: 0 <= i < |tr| ==> Tells(tr[i], row, said)
    requires forall w :: w in said && Passes(w, row) ==> Same(w, row)
    ensures Unmoved(states[k], g, row) && Harmless(states[k], row)
    ensures row.id in states[k].entry ==> KeyInStep(states[k], row.id, g)
  {
    if k == 0 {
    } else {
      NothingMoves(states, tr, k - 1, g, row, said);
      StepUnmoved(states[k - 1], tr[k - 1], g, row);
      StepHarmless(states[k - 1], tr[k - 1], row, said);
    }
  }

  /** A lookup reads the row, a registration that says something new is answered OK, and the lookup's load
      ends: what the registration said is in the row, what the row said before is in memory. */
  lemma LateLookUp(rows: Rows, g: Bytes, a: Job, now: int, env: Registry.Env) returns (s: State)
    requires UniqueIds(rows) && g != [] && g in rows && SaysNew(a, rows[g]) && env.readOk && env.writeOk && env.newGuid != []
    ensures var id := rows[g].id;
            && Leads(Start(rows), s, a, LookUp(id)) && s.tasks == Two(a, ACCEPTED, LookUp(id), Done(None))
            && id in s.entry && !KeyInStep(s, id, g)
  {
    var (s0, b, load) := (Start(rows), LookUp(rows[g].id), Registry.Load(g, rows[g]));
    var r := Record(rows[g].id, Registry.LoadedPeer(g, rows[g], now));
    BothRead(rows, g, a, b, now, env);
    var s1 := s0.(tasks := Two(a, Loading(load), b, Loading(load)));
    Then(s0, s1, Go(0, now, env), a, b);
    var s2 := s0.(entry := map[rows[g].id := 0], recs := [r], tasks := Two(a, Checking(0), b, Loading(load)));
    assert Step(s1, Go(0, now, env)) == s2;
    var s3 := Registers(s0, s2, 0, 0, g, rows[g], now, env, a, b);
    s := EndLookUp(s0, s3, g, rows[g], now, env, a, b);
  }

  lemma EndLookUp(s0: State, s3: State, g: Bytes, row: Row, now: int, env: Registry.Env, a: Job, b: Job) returns (s: State)
    requires Leads(s0, s3, a, b) && env.readOk && env.newGuid != [] && b == LookUp(row.id)
    requires s3.tasks == Two(a, ACCEPTED, b, Loading(Registry.Load(g, row)))
    requires g in s3.rows && RowWords(s3.rows[g]) != RowWords(row)
    ensures Leads(s0, s, a, b) && s.tasks == Two(a, ACCEPTED, b, Done(None))
    ensures row.id in s.entry && !KeyInStep(s, row.id, g)
  {
    Then(s0, s3, Go(1, now, env), a, b);
    s := Step(s3, Go(1, now, env));
    assert s.tasks == Two(a, ACCEPTED, b, Done(None));
    assert s.recs[|s3.recs|] == Record(row.id, Registry.LoadedPeer(g, row, now));
  }

  predicate NobodyEnters(s: State, id: string) {
    forall c :: c in s.tasks && s.tasks[c].job.Id() == id ==> !s.tasks[c].phase.Entering?
  }

  lemma StepNobodyEnters(s: State, ev: Event, id: string, g: Bytes, uuid: Bytes)
    requires Known(s, id, g, uuid) && NobodyEnters(s, id) && Enabled(s, ev) && (ev.Go? ==> ev.env.readOk)
    ensures NobodyEnters(Step(s, ev), id)
  {
    assert HasId(s.rows, id);
    match ev
    case Arrive(c, job) =>
    case Go(c, now, env) =>
      var s' := Step(s, ev);
      forall d | d in s'.tasks && s'.tasks[d].job.Id() == id ensures !s'.tasks[d].phase.Entering? {
        assert d != c ==> s'.tasks[d] == s.tasks[d];
      }
    case Beat(h, addr, now) => BeatKeeps(s, h, addr, now);
  }

  /** While reads succeed no registration of a known id enters a blank record. */
  lemma {:induction false} ReadsKeepOutBlanks(states: seq<State>, tr: seq<Event>, k: nat, id: string, g: Bytes, uuid: Bytes)
    requires Path(states, tr) && Known(states[0], id, g, uuid) && NobodyEnters(states[0], id) && k <= |tr|
    requires forall i :: 0 <= i < |tr| && tr[i].Go? ==> tr[i].env.readOk
    ensures NoneBlank(states, tr, k, id) && Known(states[k], id, g, uuid) && NobodyEnters(states[k], id)
  {
    if k == 0 {
    } else {
      ReadsKeepOutBlanks(states, tr, k - 1, id, g, uuid);
      StepKnownIff(states[k - 1], tr[k - 1], id, g, uuid);
      StepNobodyEnters(states[k - 1], tr[k - 1], id, g, uuid);
    }
  }

  lemma NewWordsSplit(rows: Rows, g: Bytes, said: set<(Bytes, Ip)>, w: (Bytes, Ip))
    requires UniqueIds(rows) && g != [] && g in rows && rows[g].uuid != []
    requires w in said && w.0 != [] && Passes(w, rows[g]) && !Same(w, rows[g])
    ensures !KeysAlwaysInStep(rows, g, said)
  {
    var (row, id) := (rows[g], rows[g].id);
    var (a, b) := (Register(Registry.RegisterPk(id, row.uuid, w.0), Addr(w.1, 0), false), LookUp(id));
    var s := LateLookUp(rows, g, a, 0, Registry.Env(true, true, [0]));
    var states: seq<State>, tr: seq<Event> :|
      Path(states, tr) && states[0] == Start(rows) && states[|tr|] == s && forall i :: 0 <= i < |tr| ==> ByThese(tr[i], a, b);
    forall i | 0 <= i < |tr| ensures Tells(tr[i], row, said) && (tr[i].Go? ==> tr[i].env.readOk) {
      assert ByThese(tr[i], a, b);
    }
    ReadsKeepOutBlanks(states, tr, |tr|, id, g, row.uuid);
    assert Quiescent(states[|tr|], id) && !KeyInStep(states[|tr|], id, g);
  }

  /** Key and address of a known id stay in step in every interleaving exactly if no registration under its
      uuid says anything new that the identity check would let pass. */
  lemma KeysAlwaysInStepIff(rows: Rows, g: Bytes, said: set<(Bytes, Ip)>)
    requires UniqueIds(rows) && g != [] && g in rows && rows[g].uuid != [] && forall w :: w in said ==> w.0 != []
    ensures KeysAlwaysInStep(rows, g, said) <==> forall w :: w in said && Passes(w, rows[g]) ==> Same(w, rows[g])
  {
    var (row, id) := (rows[g], rows[g].id);
    if forall w :: w in said && Passes(w, row) ==> Same(w, row) {
      forall states: seq<State>, tr: seq<Event> |
        && Path(states, tr) && states[0] == Start(rows) && NoneBlank(states, tr, |tr|, id)
        && (forall i :: 0 <= i < |tr| ==> Tells(tr[i], row, said))
        && Quiescent(states[|tr|], id) && id in states[|tr|].entry
        ensures KeyInStep(states[|tr|], id, g)
      {
        NothingMoves(states, tr, |tr|, g, row, said);
      }
    } else {
      var w :| w in said && Passes(w, row) && !Same(w, row);
      NewWordsSplit(rows, g, said, w);
    }
  }
}
