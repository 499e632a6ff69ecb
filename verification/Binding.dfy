/** An id, once bound to a uuid, stays bound to it: over all runs, with failing writes. */
module Binding {
  import opened Net
  import opened Database
  import opened Registry
  import IpBlocker

  /** The uuid an id is bound to: what memory says, else what the table says. */
  ghost function Bound(s: State, id: string): Option<Bytes> {
    if id in s.cache && s.cache[id].uuid != [] then Some(s.cache[id].uuid)
    else if HasId(s.rows, id) then Some(s.rows[Find(s.rows, id).value].uuid)
    else None
  }

  ghost predicate PeerSound(id: string, p: Peer, rows: Rows) {
    if p.guid == [] then !HasId(rows, id)
    else p.uuid != [] && p.guid in rows && rows[p.guid].id == id && rows[p.guid].uuid == p.uuid
  }

  /** A row on its way into memory may be outdated, but not in its id or uuid. */
  ghost predicate LoadsSound(loading: seq<Load>, rows: Rows) {
    forall i :: 0 <= i < |loading| ==>
      var l := loading[i];
      l.guid in rows && rows[l.guid].id == l.row.id && rows[l.guid].uuid == l.row.uuid
  }

  /** A cached peer without a guid has no row; one with a guid points at the row of its own id,
      under its own uuid. Key and address may differ from the row after a failed write. */
  ghost predicate Sound(s: State) {
    && WellFormed(s.rows)
    && LoadsSound(s.loading, s.rows)
    && forall id :: id in s.cache ==> PeerSound(id, s.cache[id], s.rows)
  }

  /** The read this event may need does not miss an existing row, and new guids are not empty. */
  ghost predicate Harmless(s: State, ev: Event) {
    ev.OnRegisterPk? ==>
      ev.env.newGuid != [] && (ev.env.readOk || ev.rk.id in s.cache || !HasId(s.rows, ev.rk.id))
  }

  // ---------- One step ----------

  lemma UpdatePkSound(s: State, id: string, addr: Addr, uuid: Bytes, pk: Bytes, now: int, env: Env)
    requires Sound(s) && id in s.cache && uuid != [] && env.newGuid != []
    requires s.cache[id].uuid == [] || s.cache[id].uuid == uuid
    ensures Sound(UpdatePk(s, id, addr, uuid, pk, now, env))
    ensures RowsKept(s.rows, UpdatePk(s, id, addr, uuid, pk, now, env).rows)
    ensures id in UpdatePk(s, id, addr, uuid, pk, now, env).cache && UpdatePk(s, id, addr, uuid, pk, now, env).cache[id].uuid == uuid
  {
    var p := s.cache[id];
    assert PeerSound(id, p, s.rows);
    if p.guid == [] {
      InsertKeeps(s.rows, env.newGuid, Row(id, uuid, pk, Some(addr.ip)), env.writeOk);
    } else {
      UpdateKeeps(s.rows, p.guid, pk, Some(addr.ip), env.writeOk);
    }
  }

  lemma GetSound(s: State, id: string, now: int, readOk: bool)
    requires Sound(s)
    ensures Sound(Get(s, id, now, readOk).0) && Get(s, id, now, readOk).0.rows == s.rows
  {
  }

  lemma GetOrSound(s: State, id: string, now: int, readOk: bool)
    requires Sound(s) && (readOk || id in s.cache || !HasId(s.rows, id))
    ensures Sound(GetOr(s, id, now, readOk)) && GetOr(s, id, now, readOk).rows == s.rows
    ensures Bound(GetOr(s, id, now, readOk), id) == Bound(s, id)
  {
  }

  lemma CountSound(s: State, id: string, now: int)
    requires Sound(s) && id in s.cache
    ensures Sound(s.(cache := s.cache[id := RegCounted(s.cache[id], now)]))
  {
    var s2 := s.(cache := s.cache[id := RegCounted(s.cache[id], now)]);
    forall x | x in s2.cache
      ensures PeerSound(x, s2.cache[x], s2.rows)
    {
      assert PeerSound(x, s.cache[x], s.rows);
    }
  }

  lemma AcceptSound(s: State, rk: RegisterPk, addr: Addr, ws: bool, now: int, env: Env)
    requires Sound(s) && rk.uuid != [] && env.newGuid != [] && rk.id in s.cache
    requires !Mismatch(s.cache[rk.id], rk, addr.ip) && !RegLimited(s.cache[rk.id], now)
    ensures var (s', r) := RegisterKnown(s, rk, addr, ws, now, env);
            && r == OK && Sound(s') && RowsKept(s.rows, s'.rows) && rk.id in s'.cache && s'.cache[rk.id].uuid == rk.uuid
  {
    var p := s.cache[rk.id];
    CountSound(s, rk.id, now);
    var s2 := s.(cache := s.cache[rk.id := RegCounted(p, now)]);
    if Changed(p, rk, addr.ip) || ws {
      UpdatePkSound(s2, rk.id, addr, rk.uuid, rk.pk, now, env);
    }
  }

  /** Registering a cached or freshly looked-up id is the same thing. */
  lemma RegisterLooksUp(s: State, rk: RegisterPk, addr: Addr, ws: bool, now: int, env: Env)
    ensures RegisterKnown(s, rk, addr, ws, now, env)
         == RegisterKnown(GetOr(s, rk.id, now, env.readOk), rk, addr, ws, now, env)
  {
    var s1 := GetOr(s, rk.id, now, env.readOk);
    assert GetOr(s1, rk.id, now, env.readOk) == s1;
  }

  lemma RegisterSound(s: State, rk: RegisterPk, addr: Addr, ws: bool, now: int, env: Env)
    requires Sound(s) && rk.uuid != [] && env.newGuid != []
    requires env.readOk || rk.id in s.cache || !HasId(s.rows, rk.id)
    ensures var (s', r) := RegisterKnown(s, rk, addr, ws, now, env);
            && Sound(s') && RowsKept(s.rows, s'.rows)
            && (r == OK ==> Bound(s, rk.id) in {None, Some(rk.uuid)} && Bound(s', rk.id) == Some(rk.uuid))
            && (r != OK ==> Bound(s', rk.id) == Bound(s, rk.id))
  {
    GetOrSound(s, rk.id, now, env.readOk);
    RegisterLooksUp(s, rk, addr, ws, now, env);
    var s1 := GetOr(s, rk.id, now, env.readOk);
    var p := s1.cache[rk.id];
    if !Mismatch(p, rk, addr.ip) && !RegLimited(p, now) {
      assert PeerSound(rk.id, p, s1.rows);
      AcceptSound(s1, rk, addr, ws, now, env);
    }
  }

  lemma HandleSound(s: State, rk: RegisterPk, addr: Addr, ws: bool, now: int, env: Env)
    requires Sound(s) && Harmless(s, OnRegisterPk(rk, addr, ws, now, env))
    ensures var (s', r) := HandleRegisterPk(s, rk, addr, ws, now, env);
            && Sound(s') && RowsKept(s.rows, s'.rows)
            && (r == OK ==> Bound(s, rk.id) in {None, Some(rk.uuid)} && Bound(s', rk.id) == Some(rk.uuid))
  {
    HandleIsGated(s, rk, addr, ws, now, env);
    if rk.uuid != [] {
      var gated := s.(blocker := IpBlocker.Checked(s.blocker, addr.ip, rk.id, now).0);
      RegisterSound(gated, rk, addr, ws, now, env);
    }
  }

  /** However late a row read earlier goes into memory, it agrees with the table and with the record it
      replaces on id, guid and uuid. */
  lemma LoadSound(s: State, i: nat, now: int)
    requires Sound(s) && i < |s.loading|
    ensures Sound(FinishLoad(s, i, now))
    ensures var id := s.loading[i].row.id;
            && HasId(s.rows, id)
            && (id in s.cache ==> s.cache[id].uuid == s.loading[i].row.uuid && s.cache[id].guid == s.loading[i].guid)
  {
    var l := s.loading[i];
    assert HasId(s.rows, l.row.id);
    if l.row.id in s.cache {
      assert PeerSound(l.row.id, s.cache[l.row.id], s.rows);
    }
  }

  lemma StepSound(s: State, ev: Event)
    requires Sound(s) && Harmless(s, ev)
    ensures Sound(Step(s, ev).0) && RowsKept(s.rows, Step(s, ev).0.rows)
  {
    match ev
    case OnRegisterPk(rk, addr, ws, now, env) => HandleSound(s, rk, addr, ws, now, env);
    case OnGetPk(id, signing, now, env) => GetSound(s, id, now, env.readOk);
    case OnPunchHole(ph, now, env) => GetSound(s, ph.id, now, env.readOk);
    case OnLoadInsert(i, now) => if i < |s.loading| { LoadSound(s, i, now); }
    case _ =>
  }

  lemma RegisterKeepsUuid(s: State, rk: RegisterPk, addr: Addr, ws: bool, now: int, env: Env, id: string)
    requires id in s.cache && s.cache[id].uuid != []
    ensures var s' := RegisterKnown(s, rk, addr, ws, now, env).0; id in s'.cache && s'.cache[id].uuid == s.cache[id].uuid
  {
  }

  /** Whatever the table does, a non-empty uuid in memory is never replaced while the server runs; for
      a load to respect that too, the state must be sound. */
  lemma MemoryKeepsUuid(s: State, ev: Event, id: string)
    requires id in s.cache && s.cache[id].uuid != [] && !ev.OnRestart?
    requires ev.OnLoadInsert? ==> Sound(s)
    ensures var s' := Step(s, ev).0; id in s'.cache && s'.cache[id].uuid == s.cache[id].uuid
  {
    if ev.OnRegisterPk? {
      HandleIsGated(s, ev.rk, ev.addr, ev.ws, ev.now, ev.env);
      var blocker := IpBlocker.Checked(s.blocker, ev.addr.ip, ev.rk.id, ev.now).0;
      RegisterKeepsUuid(s.(blocker := blocker), ev.rk, ev.addr, ev.ws, ev.now, ev.env, id);
    } else if ev.OnLoadInsert? && ev.i < |s.loading| {
      LoadSound(s, ev.i, ev.now);
    }
  }

  // ---------- Runs ----------

  ghost predicate HarmlessRun(s: State, tr: seq<Event>)
    decreases |tr|
  {
    tr == [] || (Harmless(s, tr[0]) && HarmlessRun(Step(s, tr[0]).0, tr[1..]))
  }

  /** The server is not restarted while `id` has no row. */
  ghost predicate RestartsAfterInsert(s: State, tr: seq<Event>, id: string)
    decreases |tr|
  {
    tr == [] || ((tr[0].OnRestart? ==> HasId(s.rows, id)) && RestartsAfterInsert(Step(s, tr[0]).0, tr[1..], id))
  }

  lemma {:induction false} RunSound(s: State, tr: seq<Event>)
    requires Sound(s) && HarmlessRun(s, tr)
    ensures Sound(Run(s, tr)) && RowsKept(s.rows, Run(s, tr).rows)
    decreases |tr|
  {
    if tr == [] {
    } else {
      StepSound(s, tr[0]);
      RunSound(Step(s, tr[0]).0, tr[1..]);
    }
  }

  // ---------- The table alone ----------

  /** Ids are unique, and every guid in memory or on its way there points at the row of its own id. */
  ghost predicate Anchored(s: State) {
    && UniqueIds(s.rows)
    && (forall i :: 0 <= i < |s.loading| ==> Anchors(s.rows, s.loading[i].guid, s.loading[i].row.id))
    && forall id :: id in s.cache ==> Anchors(s.rows, s.cache[id].guid, id)
  }

  lemma KeptAnchors(s: State, s': State)
    requires Anchored(s) && UniqueIds(s'.rows) && RowsKept(s.rows, s'.rows) && s'.loading == s.loading
    requires forall id :: id in s'.cache ==>
               Anchors(s'.rows, s'.cache[id].guid, id) || (id in s.cache && s'.cache[id].guid == s.cache[id].guid)
    ensures Anchored(s')
  {
    forall id | id in s'.cache ensures Anchors(s'.rows, s'.cache[id].guid, id) {
      assert id in s.cache ==> Anchors(s.rows, s.cache[id].guid, id);
    }
    forall i | 0 <= i < |s'.loading| ensures Anchors(s'.rows, s'.loading[i].guid, s'.loading[i].row.id) {
      assert Anchors(s.rows, s.loading[i].guid, s.loading[i].row.id);
    }
  }

  lemma UpdatePkWrites(s: State, id: string, addr: Addr, uuid: Bytes, pk: Bytes, now: int, env: Env)
    requires id in s.cache
    ensures var s' := UpdatePk(s, id, addr, uuid, pk, now, env);
            var g := s.cache[id].guid;
            var (rows, ok) := Written(s.rows, g, Row(id, uuid, pk, Some(addr.ip)), env.newGuid, env.writeOk);
            && s'.loading == s.loading && s'.rows == rows
            && s'.cache == s.cache[id := SetRecord(s, id, addr, uuid, pk, now).cache[id].(guid := if g == [] && ok then env.newGuid else g)]
  {
  }

  /** A registration leaves the table alone, or makes the one write for the guid it found. */
  lemma FoundWrites(s: State, rk: RegisterPk, addr: Addr, ws: bool, now: int, env: Env)
    requires rk.id in s.cache
    ensures var s' := RegisterFound(s, rk, addr, ws, now, env).0;
            var g := s.cache[rk.id].guid;
            var (rows, ok) := Written(s.rows, g, Row(rk.id, rk.uuid, rk.pk, Some(addr.ip)), env.newGuid, env.writeOk);
            && s'.loading == s.loading && s'.cache.Keys == s.cache.Keys
            && (forall x :: x in s.cache && x != rk.id ==> s'.cache[x] == s.cache[x])
            && (|| (s'.rows == s.rows && s'.cache[rk.id].guid == g)
                || (s'.rows == rows && s'.cache[rk.id].guid == if g == [] && ok then env.newGuid else g))
  {
    var counted := s.(cache := s.cache[rk.id := RegCounted(s.cache[rk.id], now)]);
    UpdatePkWrites(counted, rk.id, addr, rk.uuid, rk.pk, now, env);
  }

  lemma FoundKeepsRows(s: State, rk: RegisterPk, addr: Addr, ws: bool, now: int, env: Env)
    requires Anchored(s) && rk.id in s.cache
    ensures var s' := RegisterFound(s, rk, addr, ws, now, env).0; Anchored(s') && RowsKept(s.rows, s'.rows)
  {
    var g := s.cache[rk.id].guid;
    assert Anchors(s.rows, g, rk.id);
    WrittenKeeps(s.rows, g, Row(rk.id, rk.uuid, rk.pk, Some(addr.ip)), env.newGuid, env.writeOk);
    FoundWrites(s, rk, addr, ws, now, env);
    var s' := RegisterFound(s, rk, addr, ws, now, env).0;
    assert Anchors(s'.rows, s'.cache[rk.id].guid, rk.id);
    KeptAnchors(s, s');
  }

  lemma GetAnchored(s: State, id: string, now: int, readOk: bool)
    requires Anchored(s)
    ensures Anchored(Get(s, id, now, readOk).0) && Get(s, id, now, readOk).0.rows == s.rows
    ensures Anchored(GetOr(s, id, now, readOk)) && GetOr(s, id, now, readOk).rows == s.rows
  {
    KeptAnchors(s, Get(s, id, now, readOk).0);
    KeptAnchors(Get(s, id, now, readOk).0, GetOr(s, id, now, readOk));
  }

  lemma HandleKeepsRows(s: State, rk: RegisterPk, addr: Addr, ws: bool, now: int, env: Env)
    requires Anchored(s)
    ensures var s' := HandleRegisterPk(s, rk, addr, ws, now, env).0; Anchored(s') && RowsKept(s.rows, s'.rows)
  {
    HandleIsGated(s, rk, addr, ws, now, env);
    var gated := s.(blocker := IpBlocker.Checked(s.blocker, addr.ip, rk.id, now).0);
    GetAnchored(gated, rk.id, now, env.readOk);
    FoundKeepsRows(GetOr(gated, rk.id, now, env.readOk), rk, addr, ws, now, env);
    KeptAnchors(s, s.(blocker := HandleRegisterPk(s, rk, addr, ws, now, env).0.blocker));
  }

  lemma LoadAnchored(s: State, ev: Event)
    requires Anchored(s) && (ev.OnLoadRead? || ev.OnLoadInsert?)
    ensures Anchored(Step(s, ev).0) && Step(s, ev).0.rows == s.rows
  {
    var s' := Step(s, ev).0;
    assert forall i :: 0 <= i < |s.loading| ==> Anchors(s.rows, s.loading[i].guid, s.loading[i].row.id);
    assert forall i :: 0 <= i < |s'.loading| ==> Anchors(s.rows, s'.loading[i].guid, s'.loading[i].row.id);
    assert forall id :: id in s'.cache ==> Anchors(s.rows, s'.cache[id].guid, id);
  }

  lemma StepKeepsRows(s: State, ev: Event)
    requires Anchored(s)
    ensures Anchored(Step(s, ev).0) && RowsKept(s.rows, Step(s, ev).0.rows)
  {
    match ev
    case OnRegisterPk(rk, addr, ws, now, env) => HandleKeepsRows(s, rk, addr, ws, now, env);
    case OnRegisterPeer(id, addr, now) => KeptAnchors(s, Step(s, ev).0);
    case OnGetPk(id, signing, now, env) => GetAnchored(s, id, now, env.readOk);
    case OnPunchHole(ph, now, env) => GetAnchored(s, ph.id, now, env.readOk);
    case OnLoadRead(_, _, _) => LoadAnchored(s, ev);
    case OnLoadInsert(_, _) => LoadAnchored(s, ev);
    case OnIpBlockerCmd(_, _) => KeptAnchors(s, Step(s, ev).0);
    case OnRestart(_) =>
  }

  /** Whatever the table answers, reads that fail included: no row is ever lost, renamed or given another
      uuid, and ids stay unique. */
  lemma {:induction false} TableKeepsRows(s: State, tr: seq<Event>)
    requires Anchored(s)
    ensures Anchored(Run(s, tr)) && RowsKept(s.rows, Run(s, tr).rows)
    decreases |tr|
  {
    if tr == [] {
    } else {
      StepKeepsRows(s, tr[0]);
      TableKeepsRows(Step(s, tr[0]).0, tr[1..]);
    }
  }

  // ---------- Memory and table ----------

  lemma RowDecides(s: State, id: string, g: Bytes)
    requires Sound(s) && g in s.rows && s.rows[g].id == id
    ensures Bound(s, id) == Some(s.rows[g].uuid)
  {
    assert HasId(s.rows, id);
    if id in s.cache {
      assert PeerSound(id, s.cache[id], s.rows);
    }
  }

  lemma StepBinds(s: State, ev: Event, id: string, uuid: Bytes)
    requires Sound(s) && Harmless(s, ev) && Bound(s, id) == Some(uuid)
    requires ev.OnRestart? ==> HasId(s.rows, id)
    ensures Bound(Step(s, ev).0, id) == Some(uuid)
  {
    var s' := Step(s, ev).0;
    StepSound(s, ev);
    if HasId(s.rows, id) {
      var g := Find(s.rows, id).value;
      RowDecides(s, id, g);
      RowDecides(s', id, g);
    } else {
      MemoryKeepsUuid(s, ev, id);
    }
  }

  /** Once an id is bound to a uuid no later run changes that, through failing writes and
      through every restart that happens after its row was first written. */
  lemma {:induction false} BindingIsPermanent(s: State, tr: seq<Event>, id: string, uuid: Bytes)
    requires Sound(s) && HarmlessRun(s, tr) && RestartsAfterInsert(s, tr, id)
    requires Bound(s, id) == Some(uuid)
    ensures Bound(Run(s, tr), id) == Some(uuid)
    decreases |tr|
  {
    if tr == [] {
    } else {
      StepBinds(s, tr[0], id, uuid);
      StepSound(s, tr[0]);
      BindingIsPermanent(Step(s, tr[0]).0, tr[1..], id, uuid);
    }
  }

  /** An OK answer binds the id to the uuid it came with; another uuid never gets an OK. */
  lemma OkBinds(s: State, rk: RegisterPk, addr: Addr, ws: bool, now: int, env: Env)
    requires Sound(s) && Harmless(s, OnRegisterPk(rk, addr, ws, now, env))
    ensures var (s', r) := HandleRegisterPk(s, rk, addr, ws, now, env);
            r == OK ==> Bound(s', rk.id) == Some(rk.uuid) && (Bound(s, rk.id) == None || Bound(s, rk.id) == Some(rk.uuid))
  {
    HandleSound(s, rk, addr, ws, now, env);
  }

  // ---------- Where the conditions are needed ----------

  /** A restart loses the binding of an id exactly when the id has no row yet. */
  lemma RestartKeepsBindingIff(s: State, id: string)
    requires Sound(s) && Bound(s, id).Some?
    ensures Bound(Restarted(s), id) == Bound(s, id) <==> HasId(s.rows, id)
  {
    if HasId(s.rows, id) {
      RowDecides(s, id, Find(s.rows, id).value);
    }
  }

  /** Past the gates, a registration keeps memory and table in step exactly when its read
      does not miss an existing row. */
  lemma SoundIffReadFindsTheRow(s: State, rk: RegisterPk, addr: Addr, ws: bool, now: int, env: Env)
    requires Sound(s) && rk.uuid != [] && env.newGuid != []
    ensures Sound(RegisterKnown(s, rk, addr, ws, now, env).0)
            <==> env.readOk || rk.id in s.cache || !HasId(s.rows, rk.id)
  {
    if env.readOk || rk.id in s.cache || !HasId(s.rows, rk.id) {
      RegisterSound(s, rk, addr, ws, now, env);
    } else {
      MissedRowTakesOver(s, rk, addr, ws, now, env);
      var s' := RegisterKnown(s, rk, addr, ws, now, env).0;
      assert !PeerSound(rk.id, s'.cache[rk.id], s'.rows);
    }
  }

  /** A missed row lets any uuid take the id over in memory, with answer OK; the row stays as it was. */
  lemma MissedRowTakesOver(s: State, rk: RegisterPk, addr: Addr, ws: bool, now: int, env: Env)
    requires rk.uuid != []
    requires !env.readOk && rk.id !in s.cache && HasId(s.rows, rk.id)
    ensures var (s', r) := RegisterKnown(s, rk, addr, ws, now, env);
            && r == OK && s'.rows == s.rows && Bound(s', rk.id) == Some(rk.uuid)
            && rk.id in s'.cache && s'.cache[rk.id].guid == []
  {
  }

  lemma FirstInsert(s: State, a: RegisterPk, addr: Addr, ws: bool, now: int, env: Env)
    requires Sound(s) && a.uuid != [] && a.id in s.cache && s.cache[a.id].uuid == []
    requires env.writeOk && env.newGuid != [] && env.newGuid !in s.rows
    ensures var s1 := Accept(s, a, addr, ws, now, env);
            && Sound(s1) && a.id in s1.cache && s1.cache[a.id].guid == env.newGuid && s1.cache[a.id].uuid == a.uuid
            && env.newGuid in s1.rows && s1.rows[env.newGuid].id == a.id && s1.rows[env.newGuid].uuid == a.uuid
  {
    assert PeerSound(a.id, s.cache[a.id], s.rows);
    CountSound(s, a.id, now);
    var s' := s.(cache := s.cache[a.id := RegCounted(s.cache[a.id], now)]);
    InsertKeeps(s.rows, env.newGuid, Row(a.id, a.uuid, a.pk, Some(addr.ip)), true);
    UpdatePkSound(s', a.id, addr, a.uuid, a.pk, now, env);
  }

  /** Handlers that interleave at one point: two registrations of one new id, both checked while its record
      was blank and recorded one whole after the other, keep memory and table in step exactly if they name
      one uuid; `OverlapRuns` has all interleavings.
      A second one that found the record blank updates it in any case: `wsB` covers that. */
  lemma InterleavedSoundIff(s: State, a: RegisterPk, addrA: Addr, wsA: bool, nowA: int, envA: Env,
                            b: RegisterPk, addrB: Addr, wsB: bool, nowB: int, envB: Env)
    requires Sound(s) && a.id == b.id && a.uuid != [] && b.uuid != []
    requires a.id in s.cache && s.cache[a.id].uuid == []
    requires envA.writeOk && envA.newGuid != [] && envA.newGuid !in s.rows && envB.newGuid != []
    ensures Sound(Accept(Accept(s, a, addrA, wsA, nowA, envA), b, addrB, wsB, nowB, envB)) <==> a.uuid == b.uuid
  {
    FirstInsert(s, a, addrA, wsA, nowA, envA);
    var s1 := Accept(s, a, addrA, wsA, nowA, envA);
    var p := s1.cache[a.id];
    CountSound(s1, a.id, nowB);
    var counted := s1.(cache := s1.cache[a.id := RegCounted(p, nowB)]);
    if a.uuid == b.uuid {
      UpdatePkSound(counted, b.id, addrB, b.uuid, b.pk, nowB, envB);
    } else {
      UpdateKeeps(s1.rows, envA.newGuid, b.pk, Some(addrB.ip), envB.writeOk);
      var s2 := Accept(s1, b, addrB, wsB, nowB, envB);
      assert !PeerSound(a.id, s2.cache[a.id], s2.rows);
    }
  }

  /** The failing half in full: both pass their checks, and the second uuid ends up in memory over a row
      that keeps the first. */
  lemma InterleavedRegistrationsSplit(s: State, a: RegisterPk, addrA: Addr, nowA: int, envA: Env,
                                      b: RegisterPk, addrB: Addr, nowB: int, envB: Env)
    requires Sound(s) && a.id == b.id && a.uuid != [] && b.uuid != [] && a.uuid != b.uuid
    requires a.id !in s.cache && !HasId(s.rows, a.id)
    requires envA.writeOk && envA.newGuid != [] && envA.newGuid !in s.rows && envB.newGuid != []
    ensures var checked := GetOr(s, a.id, nowA, envA.readOk);
            var p := checked.cache[a.id];
            && !Mismatch(p, a, addrA.ip) && !Mismatch(p, b, addrB.ip) && !RegLimited(p, nowA)
            && var s' := Accept(Accept(checked, a, addrA, false, nowA, envA), b, addrB, false, nowB, envB);
               && !Sound(s')
               && a.id in s'.cache && s'.cache[a.id].uuid == b.uuid
               && envA.newGuid in s'.rows && s'.rows[envA.newGuid].id == a.id && s'.rows[envA.newGuid].uuid == a.uuid
  {
    var checked := GetOr(s, a.id, nowA, envA.readOk);
    GetOrSound(s, a.id, nowA, envA.readOk);
    InterleavedSoundIff(checked, a, addrA, false, nowA, envA, b, addrB, false, nowB, envB);
    FirstInsert(checked, a, addrA, false, nowA, envA);
    var s1 := Accept(checked, a, addrA, false, nowA, envA);
    UpdateKeeps(s1.rows, envA.newGuid, b.pk, Some(addrB.ip), envB.writeOk);
  }
}
