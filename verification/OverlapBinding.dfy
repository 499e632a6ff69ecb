/** What overlapping calls keep, and what they do not, of the binding of an id to a uuid. */
module OverlapBinding {
  import opened Net
  import opened Database
  import Registry
  import opened Overlap
  import Binding

  // ---------- An id that has a row ----------

  /** The identity check let this registration pass. */
  predicate Admitted(phase: Phase) {
    || phase.Limiting? || phase.Charging? || phase.Recording? || phase.Writing? || phase.Stamping?
    || phase == Done(Some(Registry.OK))
  }

  predicate Knows(t: Task, uuid: Bytes) {
    && (t.phase.Loading? ==> t.phase.load.row.uuid == uuid)
    && (Admitted(t.phase) ==> t.job.Register? && t.job.rk.uuid == uuid)
  }

  /** The row, every record of the id, and every call for it agree on this uuid. */
  ghost predicate Known(s: State, id: string, g: Bytes, uuid: Bytes) {
    && Anchored(s) && uuid != []
    && g in s.rows && s.rows[g].id == id && s.rows[g].uuid == uuid
    && (forall h :: 0 <= h < |s.recs| && s.recs[h].id == id ==> s.recs[h].peer.uuid == uuid)
    && (forall c :: c in s.tasks && s.tasks[c].job.Id() == id ==> Knows(s.tasks[c], uuid))
  }

  /** A registration whose query found nothing, and that finds nothing in memory either, enters a blank record. */
  predicate EntersBlank(s: State, ev: Event, id: string) {
    ev.Go? && ev.c in s.tasks && s.tasks[ev.c].phase.Entering? && s.tasks[ev.c].job.Id() == id && id !in s.entry
  }

  lemma EffectKnown(s: State, c: Call, now: int, env: Registry.Env, id: string, g: Bytes, uuid: Bytes)
    requires Known(s, id, g, uuid) && Enabled(s, Go(c, now, env)) && !EntersBlank(s, Go(c, now, env), id)
    ensures var s' := Effect(s, c, now, env); forall h :: 0 <= h < |s'.recs| && s'.recs[h].id == id ==> s'.recs[h].peer.uuid == uuid
  {
    assert s.tasks[c].job.Id() == id ==> Knows(s.tasks[c], uuid);
  }

  lemma NextKnown(s: State, c: Call, now: int, env: Registry.Env, id: string, g: Bytes, uuid: Bytes)
    requires Known(s, id, g, uuid) && Enabled(s, Go(c, now, env)) && s.tasks[c].job.Id() == id
    ensures Knows(Task(s.tasks[c].job, Next(s, c, now, env)), uuid)
  {
    assert Knows(s.tasks[c], uuid);
  }

  lemma GoKnown(s: State, c: Call, now: int, env: Registry.Env, id: string, g: Bytes, uuid: Bytes)
    requires Known(s, id, g, uuid) && Enabled(s, Go(c, now, env)) && !EntersBlank(s, Go(c, now, env), id)
    ensures Known(Step(s, Go(c, now, env)), id, g, uuid)
  {
    var s' := Step(s, Go(c, now, env));
    StepKeepsRows(s, Go(c, now, env));
    EffectKnown(s, c, now, env, id, g, uuid);
    if s.tasks[c].job.Id() == id {
      NextKnown(s, c, now, env, id, g, uuid);
    }
    forall d | d in s'.tasks && s'.tasks[d].job.Id() == id ensures Knows(s'.tasks[d], uuid) {
      assert d != c ==> Knows(s.tasks[d], uuid);
    }
  }

  /** One step keeps the agreement exactly if it does not enter a blank record over the row. */
  lemma StepKnownIff(s: State, ev: Event, id: string, g: Bytes, uuid: Bytes)
    requires Known(s, id, g, uuid) && Enabled(s, ev)
    ensures Known(Step(s, ev), id, g, uuid) <==> !EntersBlank(s, ev, id)
  {
    StepKeepsRows(s, ev);
    match ev
    case Arrive(c, job) =>
      assert Knows(Task(job, Looking), uuid);
    case Go(c, now, env) =>
      if EntersBlank(s, ev, id) {
        var s' := Step(s, ev);
        assert s'.recs[|s.recs|] == Record(id, Registry.DefaultPeer(now));
        assert !Known(s', id, g, uuid);
      } else {
        GoKnown(s, c, now, env, id, g, uuid);
      }
    case Beat(h, addr, now) => BeatKeeps(s, h, addr, now);
  }

  /** In the first `k` steps no registration of this id enters a blank record. */
  predicate NoneBlank(states: seq<State>, tr: seq<Event>, k: nat, id: string)
    requires |states| == |tr| + 1 && k <= |tr|
  {
    k == 0 || (NoneBlank(states, tr, k - 1, id) && !EntersBlank(states[k - 1], tr[k - 1], id))
  }

  ghost predicate KnownUntil(states: seq<State>, k: nat, id: string, g: Bytes, uuid: Bytes)
    requires k < |states|
  {
    Known(states[k], id, g, uuid) && (k > 0 ==> KnownUntil(states, k - 1, id, g, uuid))
  }

  /** However calls for an id that has a row overlap, with loads that end late, writes and reads that fail: row
      and memory agree on its uuid at every moment of a run exactly if at no moment of it a registration
      enters a blank record. */
  lemma {:induction false} KnownIdStaysBound(states: seq<State>, tr: seq<Event>, k: nat, id: string, g: Bytes, uuid: Bytes)
    requires Path(states, tr) && Known(states[0], id, g, uuid) && k <= |tr|
    ensures KnownUntil(states, k, id, g, uuid) <==> NoneBlank(states, tr, k, id)
  {
    if k == 0 {
    } else {
      KnownIdStaysBound(states, tr, k - 1, id, g, uuid);
      if KnownUntil(states, k - 1, id, g, uuid) {
        StepKnownIff(states[k - 1], tr[k - 1], id, g, uuid);
      }
    }
  }

  /** As long as they agree, no other uuid has been answered OK. */
  lemma KnownAnswers(s: State, id: string, g: Bytes, uuid: Bytes, c: Call)
    requires Known(s, id, g, uuid) && c in s.tasks && s.tasks[c].job.Id() == id && s.tasks[c].phase == Done(Some(Registry.OK))
    ensures s.tasks[c].job.Register? && s.tasks[c].job.rk.uuid == uuid
  {
    assert Knows(s.tasks[c], uuid);
  }

  // ---------- A new id ----------

  predicate IsCall(s: State, c: Call, id: string) {
    c in s.tasks && s.tasks[c].job.Register? && s.tasks[c].job.rk.id == id && s.tasks[c].job.rk.uuid != []
  }

  function Uuid(s: State, c: Call, id: string): Bytes
    requires IsCall(s, c, id)
  {
    s.tasks[c].job.rk.uuid
  }

  /** A record says what its last writer said. Before the row exists there is one record, without guid;
      later only the inserter's can be without, and one nobody wrote to is as loaded. */
  predicate RecTracked(s: State, id: string, h: Handle)
    requires h < |s.recs|
  {
    var p := s.recs[h].peer;
    && (h in s.past.writer ==> IsCall(s, s.past.writer[h], id) && p.uuid == Uuid(s, s.past.writer[h], id))
    && (id !in s.past.inserter ==> id in s.entry && s.entry[id] == h && p.guid == [] && (h !in s.past.writer ==> p.uuid == []))
    && (id in s.past.inserter ==>
          && IsCall(s, s.past.inserter[id], id)
          && (p.guid == [] ==> s.tasks[s.past.inserter[id]].phase.Stamping? && s.tasks[s.past.inserter[id]].phase.h == h)
          && (h !in s.past.writer ==> p.uuid == Uuid(s, s.past.inserter[id], id)))
  }

  predicate TaskTracked(s: State, id: string, c: Call)
    requires c in s.tasks
  {
    match s.tasks[c].phase
    case Loading(load) =>
      id in s.past.inserter && IsCall(s, s.past.inserter[id], id) && load.guid != [] && load.row.uuid == Uuid(s, s.past.inserter[id], id)
    case Writing(h, guid) => h in s.past.writer && (id !in s.past.inserter ==> guid == [])
    case Stamping(h, guid) => h in s.past.writer && guid != [] && id in s.past.inserter && s.past.inserter[id] == c
    case _ => true
  }

  ghost predicate RowTracked(s: State, id: string) {
    && (HasId(s.rows, id) <==> id in s.past.inserter)
    && (id in s.past.inserter ==>
          && id in s.entry && IsCall(s, s.past.inserter[id], id)
          && forall g :: g in s.rows && s.rows[g].id == id ==> g != [] && s.rows[g].uuid == Uuid(s, s.past.inserter[id], id))
  }

  ghost predicate Tracked(s: State, id: string) {
    && Anchored(s) && RowTracked(s, id)
    && (forall h :: 0 <= h < |s.recs| && s.recs[h].id == id ==> RecTracked(s, id, h))
    && (forall c :: c in s.tasks && s.tasks[c].job.Id() == id ==> TaskTracked(s, id, c))
  }

  /** A write for one id leaves the rows of all others as they are. */
  lemma WrittenElsewhere(rows: Rows, guid: Bytes, row: Row, newGuid: Bytes, writeOk: bool, id: string)
    requires UniqueIds(rows) && Anchors(rows, guid, row.id) && row.id != id
    ensures var rows' := Written(rows, guid, row, newGuid, writeOk).0;
            && (HasId(rows', id) <==> HasId(rows, id))
            && (forall g :: g in rows' && rows'[g].id == id ==> g in rows && rows'[g] == rows[g])
  {
    var rows' := Written(rows, guid, row, newGuid, writeOk).0;
    if HasId(rows, id) {
      var g :| g in rows && rows[g].id == id;
      assert g in rows' && rows'[g].id == id;
    }
  }

  lemma ElsewhereTable(s: State, c: Call, now: int, env: Registry.Env, id: string)
    requires Anchored(s) && Enabled(s, Go(c, now, env)) && s.tasks[c].job.Id() != id
    ensures var s' := Effect(s, c, now, env);
            && (HasId(s'.rows, id) <==> HasId(s.rows, id))
            && (forall g :: g in s'.rows && s'.rows[g].id == id ==> g in s.rows && s'.rows[g] == s.rows[g])
            && (id in s'.past.inserter <==> id in s.past.inserter)
            && (id in s.past.inserter ==> s'.past.inserter[id] == s.past.inserter[id])
            && (id in s'.past.tabled <==> id in s.past.tabled) && (id in s.past.tabled ==> s'.past.tabled[id] == s.past.tabled[id])
  {
    var Task(job, phase) := s.tasks[c];
    assert TaskAnchored(s.tasks[c], s.rows);
    if phase.Writing? {
      WrittenElsewhere(s.rows, phase.guid, job.Row(), env.newGuid, env.writeOk, id);
    } else {
      OnlyWritingWrites(s, c, now, env);
    }
  }

  lemma ElsewhereRows(s: State, c: Call, now: int, env: Registry.Env, id: string)
    requires Tracked(s, id) && Enabled(s, Go(c, now, env)) && s.tasks[c].job.Id() != id
    ensures RowTracked(Step(s, Go(c, now, env)), id)
    ensures id in Step(s, Go(c, now, env)).past.inserter <==> id in s.past.inserter
    ensures id in s.past.inserter ==> Step(s, Go(c, now, env)).past.inserter[id] == s.past.inserter[id]
  {
    ElsewhereTable(s, c, now, env, id);
    OwnEntry(s, c, now, env, id);
  }

  lemma ElsewhereRecords(s: State, c: Call, now: int, env: Registry.Env, id: string, h: Handle)
    requires Wf(s) && Enabled(s, Go(c, now, env)) && s.tasks[c].job.Id() != id
    requires h < |Effect(s, c, now, env).recs| && Effect(s, c, now, env).recs[h].id == id
    ensures SameRecord(s, Effect(s, c, now, env), h)
  {
    OwnEntry(s, c, now, env, id);
    EffectKeepsIds(s, c, now, env);
    OtherRecords(s, c, now, env, h);
  }

  lemma ElsewhereTracked(s: State, c: Call, now: int, env: Registry.Env, id: string)
    requires Tracked(s, id) && Enabled(s, Go(c, now, env)) && s.tasks[c].job.Id() != id
    ensures Tracked(Step(s, Go(c, now, env)), id)
  {
    var s' := Step(s, Go(c, now, env));
    StepKeepsRows(s, Go(c, now, env));
    ElsewhereRows(s, c, now, env, id);
    EffectKeepsIds(s, c, now, env);
    OwnEntry(s, c, now, env, id);
    forall h | 0 <= h < |s'.recs| && s'.recs[h].id == id ensures RecTracked(s', id, h) {
      ElsewhereRecords(s, c, now, env, id, h);
      assert RecTracked(s, id, h);
    }
    forall d | d in s'.tasks && s'.tasks[d].job.Id() == id ensures TaskTracked(s', id, d) {
      assert TaskOk(s, s.tasks[d]) && TaskTracked(s, id, d);
      if Hand(s.tasks[d].phase).Some? {
        ElsewhereRecords(s, c, now, env, id, Hand(s.tasks[d].phase).value);
      }
    }
  }

  /** The write that creates the row. */
  predicate Inserts(s: State, s': State, c: Call, id: string) {
    id !in s.past.inserter && s'.past.inserter == s.past.inserter[id := c]
  }

  /** The rows of the id after a call's own write. */
  lemma OwnWriteTable(s: State, c: Call, now: int, env: Registry.Env, id: string)
    requires Tracked(s, id) && Enabled(s, Go(c, now, env)) && s.tasks[c].job.Id() == id && s.tasks[c].phase.Writing?
    ensures var s' := Step(s, Go(c, now, env));
            && HasId(s'.rows, id) == (HasId(s.rows, id) || id in s'.past.inserter)
            && (id in s.past.inserter ==> s'.past.inserter == s.past.inserter && forall x :: x in s'.rows && s'.rows[x].id == id ==>
                  x in s.rows && s.rows[x].id == id && s'.rows[x].uuid == s.rows[x].uuid)
  {
    var Task(job, Writing(h, guid)) := s.tasks[c];
    assert TaskAnchored(s.tasks[c], s.rows) && TaskTracked(s, id, c);
    WrittenKeeps(s.rows, guid, job.Row(), env.newGuid, env.writeOk);
    if id in s.past.inserter {
      var g :| g in s.rows && s.rows[g].id == id;
      var rows' := Step(s, Go(c, now, env)).rows;
      assert g in rows' && rows'[g].id == id;
      assert forall x :: x in rows' && rows'[x].id == id ==> x == g;
    }
  }

  lemma OwnWrite(s: State, c: Call, now: int, env: Registry.Env, id: string)
    requires Tracked(s, id) && Enabled(s, Go(c, now, env)) && s.tasks[c].job.Id() == id && s.tasks[c].phase.Writing?
    ensures var s' := Step(s, Go(c, now, env));
            && RowTracked(s', id) && s'.recs == s.recs && s'.entry == s.entry && s'.past.writer == s.past.writer
            && (if Inserts(s, s', c, id) then
                  s'.tasks[c].phase.Stamping? && s'.tasks[c].phase.h == s.tasks[c].phase.h && s'.tasks[c].phase.guid != []
                else s'.past.inserter == s.past.inserter && s'.tasks[c].phase.Done?)
  {
    var Task(job, Writing(h, guid)) := s.tasks[c];
    assert TaskAnchored(s.tasks[c], s.rows) && TaskTracked(s, id, c) && RecTracked(s, id, h);
    WrittenKeeps(s.rows, guid, job.Row(), env.newGuid, env.writeOk);
    OwnWriteTable(s, c, now, env, id);
  }

  lemma OwnRows(s: State, c: Call, now: int, env: Registry.Env, id: string)
    requires Tracked(s, id) && Enabled(s, Go(c, now, env)) && s.tasks[c].job.Id() == id && !s.tasks[c].phase.Writing?
    ensures var s' := Step(s, Go(c, now, env)); RowTracked(s', id) && s'.past.inserter == s.past.inserter
  {
    OnlyWritingWrites(s, c, now, env);
    if !s.tasks[c].phase.Loading? && !s.tasks[c].phase.Entering? {
      NoNewEntry(s, c, now, env);
    }
  }

  lemma OwnNewRecord(s: State, c: Call, now: int, env: Registry.Env, id: string)
    requires Tracked(s, id) && Enabled(s, Go(c, now, env)) && s.tasks[c].job.Id() == id
    requires s.tasks[c].phase.Loading? || s.tasks[c].phase.Entering?
    ensures var s' := Step(s, Go(c, now, env)); forall h :: 0 <= h < |s'.recs| && s'.recs[h].id == id ==> RecTracked(s', id, h)
  {
    var s' := Step(s, Go(c, now, env));
    assert TaskTracked(s, id, c);
    forall h | 0 <= h < |s'.recs| && s'.recs[h].id == id ensures RecTracked(s', id, h) {
      if h < |s.recs| {
        assert RecTracked(s, id, h);
      } else {
        assert h !in s.past.writer;
      }
    }
  }

  lemma OwnHandRecord(s: State, c: Call, now: int, env: Registry.Env, id: string, h: Handle)
    requires Tracked(s, id) && Enabled(s, Go(c, now, env)) && s.tasks[c].job.Id() == id
    requires Hand(s.tasks[c].phase) == Some(h) && !s.tasks[c].phase.Writing?
    ensures RecTracked(Step(s, Go(c, now, env)), id, h)
  {
    assert TaskTracked(s, id, c) && RecTracked(s, id, h);
    HandRecord(s, c, now, env);
    OnlyWritingWrites(s, c, now, env);
    NoNewEntry(s, c, now, env);
  }

  /** What a piece does to the record in hand, as far as identity goes. */
  lemma HandRecord(s: State, c: Call, now: int, env: Registry.Env)
    requires Enabled(s, Go(c, now, env)) && Hand(s.tasks[c].phase).Some?
    ensures var (s', t) := (Effect(s, c, now, env), s.tasks[c]);
            var h := Hand(t.phase).value;
            && h < |s'.recs|
            && var (p, p') := (s.recs[h].peer, s'.recs[h].peer);
               && p'.uuid == (if t.phase.Recording? then t.job.rk.uuid else p.uuid)
               && p'.guid == (if t.phase.Stamping? then t.phase.guid else p.guid)
  {
    var phase := s.tasks[c].phase;
    if !phase.Charging? && !phase.Recording? && !phase.Stamping? {
      RecordsStay(s, c, now, env);
    }
  }

  lemma OwnOtherRecord(s: State, c: Call, now: int, env: Registry.Env, id: string, h: Handle)
    requires Tracked(s, id) && Enabled(s, Go(c, now, env)) && s.tasks[c].job.Id() == id
    requires !s.tasks[c].phase.Loading? && !s.tasks[c].phase.Entering? && !s.tasks[c].phase.Writing?
    requires h < |s.recs| && s.recs[h].id == id && Hand(s.tasks[c].phase) != Some(h)
    ensures h < |Effect(s, c, now, env).recs| && RecTracked(Step(s, Go(c, now, env)), id, h)
  {
    assert TaskTracked(s, id, c) && RecTracked(s, id, h);
    NoNewEntry(s, c, now, env);
    OnlyWritingWrites(s, c, now, env);
    OtherRecords(s, c, now, env, h);
  }

  lemma OwnOldRecords(s: State, c: Call, now: int, env: Registry.Env, id: string)
    requires Tracked(s, id) && Enabled(s, Go(c, now, env)) && s.tasks[c].job.Id() == id
    requires !s.tasks[c].phase.Loading? && !s.tasks[c].phase.Entering? && !s.tasks[c].phase.Writing?
    ensures var s' := Step(s, Go(c, now, env)); forall h :: 0 <= h < |s'.recs| && s'.recs[h].id == id ==> RecTracked(s', id, h)
  {
    var s' := Step(s, Go(c, now, env));
    NoNewEntry(s, c, now, env);
    EffectKeepsIds(s, c, now, env);
    forall h | 0 <= h < |s'.recs| && s'.recs[h].id == id ensures RecTracked(s', id, h) {
      if Hand(s.tasks[c].phase) == Some(h) {
        OwnHandRecord(s, c, now, env, id, h);
      } else {
        OwnOtherRecord(s, c, now, env, id, h);
      }
    }
  }

  lemma OwnNext(s: State, c: Call, now: int, env: Registry.Env, id: string)
    requires Tracked(s, id) && Enabled(s, Go(c, now, env)) && s.tasks[c].job.Id() == id && !s.tasks[c].phase.Writing?
    ensures TaskTracked(Step(s, Go(c, now, env)), id, c)
  {
    assert TaskTracked(s, id, c);
    OnlyWritingWrites(s, c, now, env);
    if s.tasks[c].phase.Recording? {
      assert RecTracked(s, id, s.tasks[c].phase.h);
    }
  }

  lemma OwnWriteRecords(s: State, c: Call, now: int, env: Registry.Env, id: string)
    requires Tracked(s, id) && Enabled(s, Go(c, now, env)) && s.tasks[c].job.Id() == id && s.tasks[c].phase.Writing?
    ensures var s' := Step(s, Go(c, now, env)); forall h :: 0 <= h < |s'.recs| && s'.recs[h].id == id ==> RecTracked(s', id, h)
  {
    var s' := Step(s, Go(c, now, env));
    OwnWrite(s, c, now, env, id);
    assert TaskTracked(s, id, c) && RecTracked(s, id, s.tasks[c].phase.h);
    forall h | 0 <= h < |s'.recs| && s'.recs[h].id == id ensures RecTracked(s', id, h) {
      assert RecTracked(s, id, h);
    }
  }

  lemma OwnWriteTracked(s: State, c: Call, now: int, env: Registry.Env, id: string)
    requires Tracked(s, id) && Enabled(s, Go(c, now, env)) && s.tasks[c].job.Id() == id && s.tasks[c].phase.Writing?
    ensures Tracked(Step(s, Go(c, now, env)), id)
  {
    var s' := Step(s, Go(c, now, env));
    StepKeepsRows(s, Go(c, now, env));
    OwnWrite(s, c, now, env, id);
    assert TaskTracked(s, id, c);
    OwnWriteRecords(s, c, now, env, id);
    forall d | d in s'.tasks && s'.tasks[d].job.Id() == id ensures TaskTracked(s', id, d) {
      assert TaskTracked(s, id, d);
    }
  }

  lemma OwnTracked(s: State, c: Call, now: int, env: Registry.Env, id: string)
    requires Tracked(s, id) && Enabled(s, Go(c, now, env)) && s.tasks[c].job.Id() == id && !s.tasks[c].phase.Writing?
    ensures Tracked(Step(s, Go(c, now, env)), id)
  {
    var s' := Step(s, Go(c, now, env));
    StepKeepsRows(s, Go(c, now, env));
    OwnRows(s, c, now, env, id);
    if s.tasks[c].phase.Loading? || s.tasks[c].phase.Entering? {
      OwnNewRecord(s, c, now, env, id);
    } else {
      OwnOldRecords(s, c, now, env, id);
    }
    OwnNext(s, c, now, env, id);
    forall d | d in s'.tasks && s'.tasks[d].job.Id() == id && d != c ensures TaskTracked(s', id, d) {
      assert TaskTracked(s, id, d);
      WritersStay(s, c, now, env);
    }
  }

  lemma StepTracked(s: State, ev: Event, id: string)
    requires Tracked(s, id) && Enabled(s, ev)
    ensures Tracked(Step(s, ev), id)
  {
    match ev
    case Arrive(c, job) => ArriveTracked(s, c, job, id);
    case Go(c, now, env) =>
      if s.tasks[c].job.Id() != id {
        ElsewhereTracked(s, c, now, env, id);
      } else if s.tasks[c].phase.Writing? {
        OwnWriteTracked(s, c, now, env, id);
      } else {
        OwnTracked(s, c, now, env, id);
      }
    case Beat(h, addr, now) => BeatTracked(s, h, addr, now, id);
  }

  lemma BeatTracked(s: State, h: Handle, addr: Addr, now: int, id: string)
    requires Tracked(s, id) && h < |s.recs|
    ensures Tracked(Step(s, Beat(h, addr, now)), id)
  {
    var s' := Step(s, Beat(h, addr, now));
    StepKeepsRows(s, Beat(h, addr, now));
    BeatKeeps(s, h, addr, now);
    forall i | 0 <= i < |s'.recs| && s'.recs[i].id == id ensures RecTracked(s', id, i) {
      assert RecTracked(s, id, i);
    }
    forall d | d in s'.tasks && s'.tasks[d].job.Id() == id ensures TaskTracked(s', id, d) {
      assert TaskTracked(s, id, d);
    }
  }

  lemma ArriveTracked(s: State, c: Call, job: Job, id: string)
    requires Tracked(s, id) && Enabled(s, Arrive(c, job))
    ensures Tracked(Step(s, Arrive(c, job)), id)
  {
    var s' := Step(s, Arrive(c, job));
    StepKeepsRows(s, Arrive(c, job));
    forall h | 0 <= h < |s'.recs| && s'.recs[h].id == id ensures RecTracked(s', id, h) {
      assert RecTracked(s, id, h);
    }
    forall d | d in s'.tasks && s'.tasks[d].job.Id() == id ensures TaskTracked(s', id, d) {
      assert d != c ==> TaskTracked(s, id, d);
    }
  }

  lemma {:induction false} PathTracked(states: seq<State>, tr: seq<Event>, k: nat, id: string)
    requires Path(states, tr) && Tracked(states[0], id) && k <= |tr|
    ensures Tracked(states[k], id)
  {
    if k == 0 {
    } else {
      PathTracked(states, tr, k - 1, id);
      StepTracked(states[k - 1], tr[k - 1], id);
    }
  }

  /** No call for this id is under way. */
  predicate Quiescent(s: State, id: string) {
    forall c :: c in s.tasks && s.tasks[c].job.Id() == id ==> s.tasks[c].phase.Done?
  }

  /** A new id, any number of overlapping calls for it, in any order of their pieces: once they are done, the
      record in the map and the row are in step exactly if no insert succeeded, or nobody wrote to that
      record since it was loaded, or the last call to write it named the uuid of the call that inserted. */
  lemma NewIdInStepIff(rows: Rows, states: seq<State>, tr: seq<Event>, k: nat, id: string)
    requires UniqueIds(rows) && !HasId(rows, id)
    requires Path(states, tr) && states[0] == Start(rows) && k <= |tr|
    requires Quiescent(states[k], id) && id in states[k].entry
    ensures var s := states[k];
            var h := s.entry[id];
            && h < |s.recs|
            && (id in s.past.inserter && h in s.past.writer ==> IsCall(s, s.past.inserter[id], id) && IsCall(s, s.past.writer[h], id))
            && (Binding.PeerSound(id, s.recs[h].peer, s.rows) <==>
                  id !in s.past.inserter || h !in s.past.writer || Uuid(s, s.past.writer[h], id) == Uuid(s, s.past.inserter[id], id))
  {
    PathTracked(states, tr, k, id);
    var s := states[k];
    var h := s.entry[id];
    assert RecTracked(s, id, h) && Anchors(s.rows, s.recs[h].peer.guid, id);
  }
}
