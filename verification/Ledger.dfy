/** With table calls that succeed, cache and table together behave like one ledger that maps
    each id to the registration last answered OK, restarts included. Memory alone does so until the
    next restart, whatever the table calls do. */
module Ledger {
  import opened Net
  import opened Database
  import opened Registry
  import opened Binding
  import IpBlocker
  import RegisterLimits

  predicate SyncedPeer(id: string, p: Peer, rows: Rows) {
    p.guid != [] && p.guid in rows && rows[p.guid] == Row(id, p.uuid, p.pk, p.infoIp)
  }

  /** Every cached peer agrees with the one row of its id on guid, uuid, pk and info. */
  ghost predicate Synced(s: State) {
    WellFormed(s.rows) && forall id :: id in s.cache ==> SyncedPeer(id, s.cache[id], s.rows)
  }

  /** The row on its way is still what the table holds. */
  predicate Current(s: State, load: Load) {
    load.guid in s.rows && s.rows[load.guid] == load.row
  }

  /** Table calls succeed, new guids are new, and no row reaches memory outdated. */
  ghost predicate Reliable(s: State, ev: Event) {
    match ev
    case OnRegisterPk(_, _, _, _, env) => env.readOk && env.writeOk && env.newGuid != [] && env.newGuid !in s.rows
    case OnGetPk(_, _, _, env) => env.readOk
    case OnPunchHole(_, _, env) => env.readOk
    case OnLoadInsert(i, _) => i < |s.loading| ==> Current(s, s.loading[i])
    case _ => true
  }

  /** The ledger's entry for an id: its row. */
  ghost function Entry(s: State, id: string): Option<Row> {
    if HasId(s.rows, id) then Some(s.rows[Find(s.rows, id).value]) else None
  }

  /** The ledger's own identity rule: a known id must come with its uuid, and not with both a
      new key and a new address. */
  predicate Refuses(entry: Option<Row>, rk: RegisterPk, ip: Ip) {
    entry.Some? && (entry.value.uuid != rk.uuid || (entry.value.infoIp != Some(ip) && entry.value.pk != rk.pk))
  }

  function Recorded(rk: RegisterPk, ip: Ip): Row {
    Row(rk.id, rk.uuid, rk.pk, Some(ip))
  }

  // ---------- One registration ----------

  lemma EntryIs(s: State, g: Bytes)
    requires WellFormed(s.rows) && g in s.rows
    ensures Entry(s, s.rows[g].id) == Some(s.rows[g])
  {
    assert HasId(s.rows, s.rows[g].id);
  }

  /** A looked-up peer shows its ledger entry, or is blank when there is none. */
  lemma LookupShowsEntry(s: State, id: string, now: int)
    requires Synced(s)
    ensures var s1 := GetOr(s, id, now, true);
            var p := s1.cache[id];
            && s1.rows == s.rows && s1.blocker == s.blocker
            && (if Entry(s, id).None? then p == DefaultPeer(now) && id !in s.cache
                else Synced(s1) && Entry(s, id) == Some(Row(id, p.uuid, p.pk, p.infoIp)) && p.uuid != [])
            && (forall x :: x in s1.cache && x != id ==> x in s.cache && s1.cache[x] == s.cache[x])
  {
    if id in s.cache {
      EntryIs(s, s.cache[id].guid);
    } else if HasId(s.rows, id) {
      EntryIs(s, Find(s.rows, id).value);
    }
  }

  /** Only the ledger decides about identity; memory can at most add a rate limit. */
  lemma IdentityVerdict(s: State, rk: RegisterPk, addr: Addr, ws: bool, now: int, env: Env)
    requires Synced(s) && env.readOk
    ensures RegisterKnown(s, rk, addr, ws, now, env).1 == UUID_MISMATCH <==> Refuses(Entry(s, rk.id), rk, addr.ip)
    ensures Entry(s, rk.id).None? ==> RegisterKnown(s, rk, addr, ws, now, env).1 == OK
  {
    LookupShowsEntry(s, rk.id, now);
  }

  /** A new id gets its first row. */
  lemma InsertRecords(s: State, rk: RegisterPk, addr: Addr, ws: bool, now: int, env: Env)
    requires Synced(s) && Reliable(s, OnRegisterPk(rk, addr, ws, now, env)) && rk.uuid != []
    requires Entry(s, rk.id).None?
    ensures var (s', r) := RegisterKnown(s, rk, addr, ws, now, env);
            r == OK && Synced(s') && s'.rows == s.rows[env.newGuid := Recorded(rk, addr.ip)]
  {
    LookupShowsEntry(s, rk.id, now);
    InsertKeeps(s.rows, env.newGuid, Recorded(rk, addr.ip), true);
  }

  lemma UpdateRecords(s: State, id: string, addr: Addr, uuid: Bytes, pk: Bytes, now: int, env: Env)
    requires Synced(s) && env.writeOk && id in s.cache && s.cache[id].uuid == uuid
    ensures var s' := UpdatePk(s, id, addr, uuid, pk, now, env);
            Synced(s') && s'.rows == s.rows[s.cache[id].guid := Row(id, uuid, pk, Some(addr.ip))]
  {
    var g := s.cache[id].guid;
    UpdateKeeps(s.rows, g, pk, Some(addr.ip), true);
    var s' := UpdatePk(s, id, addr, uuid, pk, now, env);
    forall x | x in s'.cache
      ensures SyncedPeer(x, s'.cache[x], s'.rows)
    {
      assert SyncedPeer(x, s.cache[x], s.rows);
    }
  }

  /** A known id has its row overwritten in place, or already equal to what was asked. */
  lemma AcceptRecords(s: State, rk: RegisterPk, addr: Addr, ws: bool, now: int, env: Env)
    requires Synced(s) && env.writeOk && rk.id in s.cache && s.cache[rk.id].uuid != []
    requires !Mismatch(s.cache[rk.id], rk, addr.ip) && !RegLimited(s.cache[rk.id], now)
    ensures var (s', r) := RegisterKnown(s, rk, addr, ws, now, env);
            r == OK && Synced(s') && s'.rows == s.rows[s.cache[rk.id].guid := Recorded(rk, addr.ip)]
  {
    var p := s.cache[rk.id];
    var s2 := s.(cache := s.cache[rk.id := RegCounted(p, now)]);
    assert Synced(s2) by {
      forall x | x in s2.cache
        ensures SyncedPeer(x, s2.cache[x], s2.rows)
      {
        assert SyncedPeer(x, s.cache[x], s.rows);
      }
    }
    if Changed(p, rk, addr.ip) || ws {
      UpdateRecords(s2, rk.id, addr, rk.uuid, rk.pk, now, env);
    }
  }

  lemma EntriesAfterWrite(s: State, s': State, g: Bytes, row: Row, x: string)
    requires WellFormed(s.rows) && WellFormed(s'.rows) && s'.rows == s.rows[g := row]
    requires g in s.rows ==> s.rows[g].id == row.id
    ensures Entry(s', x) == if x == row.id then Some(row) else Entry(s, x)
  {
    EntryIs(s', g);
    if x != row.id {
      if HasId(s.rows, x) {
        var h := Find(s.rows, x).value;
        EntryIs(s, h);
        EntryIs(s', h);
      } else if HasId(s'.rows, x) {
        EntryIs(s, Find(s'.rows, x).value);
      }
    }
  }

  lemma RegisterRefines(s: State, rk: RegisterPk, addr: Addr, ws: bool, now: int, env: Env, x: string)
    requires Synced(s) && Reliable(s, OnRegisterPk(rk, addr, ws, now, env)) && rk.uuid != []
    ensures var (s', r) := RegisterKnown(s, rk, addr, ws, now, env);
            && Synced(s')
            && Entry(s', x) == if r == OK && x == rk.id then Some(Recorded(rk, addr.ip)) else Entry(s, x)
  {
    var (s', r) := RegisterKnown(s, rk, addr, ws, now, env);
    if Entry(s, rk.id).None? {
      InsertRecords(s, rk, addr, ws, now, env);
      EntriesAfterWrite(s, s', env.newGuid, Recorded(rk, addr.ip), x);
    } else {
      LookupShowsEntry(s, rk.id, now);
      RegisterLooksUp(s, rk, addr, ws, now, env);
      var s1 := GetOr(s, rk.id, now, true);
      var p := s1.cache[rk.id];
      if !Mismatch(p, rk, addr.ip) && !RegLimited(p, now) {
        AcceptRecords(s1, rk, addr, ws, now, env);
        assert SyncedPeer(rk.id, p, s1.rows);
        EntriesAfterWrite(s1, s', p.guid, Recorded(rk, addr.ip), x);
      }
    }
  }

  // ---------- Runs ----------

  /** What the event writes into the ledger, seen from outside: an OK registration. */
  ghost function Writes(s: State, ev: Event): Option<Row> {
    if ev.OnRegisterPk? && Step(s, ev).1 == Registered(OK) then Some(Recorded(ev.rk, ev.addr.ip)) else None
  }

  lemma GetSynced(s: State, id: string, now: int, readOk: bool)
    requires Synced(s)
    ensures Synced(Get(s, id, now, readOk).0) && Get(s, id, now, readOk).0.rows == s.rows
  {
  }

  lemma HandleRefines(s: State, rk: RegisterPk, addr: Addr, ws: bool, now: int, env: Env, x: string)
    requires Synced(s) && Reliable(s, OnRegisterPk(rk, addr, ws, now, env))
    ensures var (s', r) := HandleRegisterPk(s, rk, addr, ws, now, env);
            && Synced(s')
            && Entry(s', x) == if r == OK && x == rk.id then Some(Recorded(rk, addr.ip)) else Entry(s, x)
  {
    HandleIsGated(s, rk, addr, ws, now, env);
    if rk.uuid != [] {
      var gated := s.(blocker := IpBlocker.Checked(s.blocker, addr.ip, rk.id, now).0);
      RegisterRefines(gated, rk, addr, ws, now, env, x);
    }
  }

  lemma LoadSynced(s: State, i: nat, now: int)
    requires Synced(s) && i < |s.loading| && Current(s, s.loading[i])
    ensures Synced(FinishLoad(s, i, now)) && FinishLoad(s, i, now).rows == s.rows
  {
  }

  lemma StepRefines(s: State, ev: Event, x: string)
    requires Synced(s) && Reliable(s, ev)
    ensures Synced(Step(s, ev).0)
    ensures var w := Writes(s, ev);
            Entry(Step(s, ev).0, x) == if w.Some? && w.value.id == x then w else Entry(s, x)
  {
    match ev
    case OnRegisterPk(rk, addr, ws, now, env) =>
      HandleRefines(s, rk, addr, ws, now, env, x);
    case OnGetPk(id, signing, now, env) => GetSynced(s, id, now, env.readOk);
    case OnPunchHole(ph, now, env) => GetSynced(s, ph.id, now, env.readOk);
    case OnLoadInsert(i, now) => if i < |s.loading| { LoadSynced(s, i, now); }
    case _ =>
  }

  ghost predicate ReliableRun(s: State, tr: seq<Event>)
    decreases |tr|
  {
    tr == [] || (Reliable(s, tr[0]) && ReliableRun(Step(s, tr[0]).0, tr[1..]))
  }

  /** The last registration of `id` answered OK during the run. */
  ghost function LastOk(s: State, tr: seq<Event>, id: string): Option<Row>
    decreases |tr|
  {
    if tr == [] then None
    else
      var later := LastOk(Step(s, tr[0]).0, tr[1..], id);
      if later.Some? then later
      else if Writes(s, tr[0]).Some? && Writes(s, tr[0]).value.id == id then Writes(s, tr[0])
      else None
  }

  /** After any run, restarts included, memory agrees with the table and the table holds for every
      id exactly the last registration answered OK, or what it held before. */
  lemma {:induction false} LedgerIsLastOk(s: State, tr: seq<Event>, id: string)
    requires Synced(s) && ReliableRun(s, tr)
    ensures Synced(Run(s, tr))
    ensures Entry(Run(s, tr), id) == if LastOk(s, tr, id).Some? then LastOk(s, tr, id) else Entry(s, id)
    decreases |tr|
  {
    if tr == [] {
    } else {
      StepRefines(s, tr[0], id);
      LedgerIsLastOk(Step(s, tr[0]).0, tr[1..], id);
    }
  }

  // ---------- Restarts ----------

  /** The key signed for an id is the one in the ledger, whether or not the id is in memory. */
  lemma SignedKey(s: State, id: string, now: int)
    requires Synced(s)
    ensures GetPk(s, id, true, now, true).1
            == (if Entry(s, id).Some? then Some((id, Entry(s, id).value.pk)) else None)
  {
    LookupShowsEntry(s, id, now);
  }

  /** A restart changes no identity verdict, no signed key and no recorded entry `x`; an id refused for
      frequency before the restart is the only one whose registration can fare differently. */
  lemma RestartIsTransparent(s: State, rk: RegisterPk, addr: Addr, ws: bool, now: int, env: Env, x: string)
    requires Synced(s) && Reliable(s, OnRegisterPk(rk, addr, ws, now, env)) && rk.uuid != []
    ensures var (s1, before) := RegisterKnown(s, rk, addr, ws, now, env);
            var (s2, after) := RegisterKnown(Restarted(s), rk, addr, ws, now, env);
            && (before == UUID_MISMATCH <==> after == UUID_MISMATCH)
            && (before != after ==> before == TOO_FREQUENT)
            && (before == after ==> Entry(s1, x) == Entry(s2, x))
    ensures GetPk(s, rk.id, true, now, true).1 == GetPk(Restarted(s), rk.id, true, now, true).1
  {
    var s0 := Restarted(s);
    SignedKey(s, rk.id, now);
    SignedKey(s0, rk.id, now);
    IdentityVerdict(s, rk, addr, ws, now, env);
    IdentityVerdict(s0, rk, addr, ws, now, env);
    FreshNotLimited(s0, rk, addr, ws, now, env);
    RegisterRefines(s, rk, addr, ws, now, env, x);
    RegisterRefines(s0, rk, addr, ws, now, env, x);
  }

  lemma FreshNotLimited(s: State, rk: RegisterPk, addr: Addr, ws: bool, now: int, env: Env)
    requires rk.id !in s.cache
    ensures RegisterKnown(s, rk, addr, ws, now, env).1 in {OK, UUID_MISMATCH}
  {
  }

  // ---------- Late loads ----------

  /** A row that reaches memory late keeps memory and table in step exactly if it has not been
      updated since it was read. */
  lemma LateLoadSyncedIff(s: State, i: nat, now: int)
    requires Synced(s) && LoadsSound(s.loading, s.rows) && i < |s.loading|
    ensures Synced(FinishLoad(s, i, now)) <==> Current(s, s.loading[i])
  {
    var (l, s') := (s.loading[i], FinishLoad(s, i, now));
    if Current(s, l) {
      LoadSynced(s, i, now);
    } else {
      assert !SyncedPeer(l.row.id, s'.cache[l.row.id], s'.rows);
    }
  }

  /** From then on the key signed is the one that was read, right exactly if it is still the row's. */
  lemma LateLoadSigns(s: State, i: nat, now: int, readOk: bool)
    requires Synced(s) && LoadsSound(s.loading, s.rows) && i < |s.loading|
    ensures var (l, s') := (s.loading[i], FinishLoad(s, i, now));
            && GetPk(s', l.row.id, true, now, readOk).1 == Some((l.row.id, l.row.pk))
            && (GetPk(s', l.row.id, true, now, readOk).1 == GetPk(s, l.row.id, true, now, true).1
                <==> s.rows[l.guid].pk == l.row.pk)
  {
    var l := s.loading[i];
    EntryIs(s, l.guid);
    SignedKey(s, l.row.id, now);
  }

  /** An outdated row does reach memory: a load reads it, a registration with a new key is answered OK, the
      load ends. The old key is signed from then on, while the table has the new one. */
  lemma LateLoadRevivesOldKey(rows: Rows, g: Bytes, pk: Bytes, addr: Addr, now: int, env: Env)
    requires WellFormed(rows) && g in rows && |rows[g].id| >= 6 && rows[g].infoIp == Some(addr.ip)
    requires pk != [] && pk != rows[g].pk && env.readOk && env.writeOk
    ensures var (id, s0) := (rows[g].id, State(map[], rows, map[], []));
            var s1 := Step(s0, OnLoadRead(id, now, env)).0;
            var (s2, out) := Step(s1, OnRegisterPk(RegisterPk(id, rows[g].uuid, pk), addr, false, now, env));
            var s3 := Step(s2, OnLoadInsert(0, now)).0;
            && out == Registered(OK) && g in s3.rows && s3.rows[g].pk == pk
            && Step(s3, OnGetPk(id, true, now, env)).1 == SignedPk(Some((id, rows[g].pk)))
  {
    var (id, s0) := (rows[g].id, State(map[], rows, map[], []));
    var s1 := Step(s0, OnLoadRead(id, now, env)).0;
    assert HasId(rows, id) && s1.loading == [Load(g, rows[g])];
    var rk := RegisterPk(id, rows[g].uuid, pk);
    var s2 := Step(s1, OnRegisterPk(rk, addr, false, now, env)).0;
    UpdateKeeps(rows, g, pk, Some(addr.ip), true);
    assert s2.rows == rows[g := Recorded(rk, addr.ip)] && s2.loading == s1.loading;
  }

  // ---------- Memory alone ----------

  predicate Says(p: Peer, row: Row) {
    p.uuid == row.uuid && p.pk == row.pk && p.infoIp == row.infoIp
  }

  /** The event leaves memory's knowledge of `id` to registrations: it is no restart, and no late load
      that says otherwise than the record it replaces. */
  predicate Remembers(s: State, ev: Event, id: string) {
    && !ev.OnRestart?
    && (ev.OnLoadInsert? && ev.i < |s.loading| && s.loading[ev.i].row.id == id && id in s.cache
        ==> Says(s.cache[id], s.loading[ev.i].row))
  }

  ghost predicate RemembersAll(s: State, tr: seq<Event>, id: string)
    decreases |tr|
  {
    tr == [] || (Remembers(s, tr[0], id) && RemembersAll(Step(s, tr[0]).0, tr[1..], id))
  }

  ghost predicate Holds(s: State, id: string, row: Row) {
    id in s.cache && Says(s.cache[id], row)
  }

  lemma FoundHolds(s: State, rk: RegisterPk, addr: Addr, ws: bool, now: int, env: Env, id: string, row: Row)
    requires rk.id in s.cache
    ensures var (s', r) := RegisterFound(s, rk, addr, ws, now, env);
            && (r == OK ==> Holds(s', rk.id, Recorded(rk, addr.ip)))
            && (Holds(s, id, row) && (r != OK || rk.id != id) ==> Holds(s', id, row))
  {
    RegisterLimits.AcceptCharges(s, rk, addr, ws, now, env);
  }

  lemma RegisterHolds(s: State, rk: RegisterPk, addr: Addr, ws: bool, now: int, env: Env, id: string, row: Row)
    ensures var (s', r) := HandleRegisterPk(s, rk, addr, ws, now, env);
            && (r == OK ==> Holds(s', rk.id, Recorded(rk, addr.ip)))
            && (Holds(s, id, row) && (r != OK || rk.id != id) ==> Holds(s', id, row))
  {
    HandleIsGated(s, rk, addr, ws, now, env);
    var gated := s.(blocker := IpBlocker.Checked(s.blocker, addr.ip, rk.id, now).0);
    FoundHolds(GetOr(gated, rk.id, now, env.readOk), rk, addr, ws, now, env, id, row);
  }

  lemma StepHolds(s: State, ev: Event, id: string, row: Row)
    requires Remembers(s, ev, id)
    ensures Writes(s, ev).Some? ==> Holds(Step(s, ev).0, Writes(s, ev).value.id, Writes(s, ev).value)
    ensures Holds(s, id, row) && (Writes(s, ev).None? || Writes(s, ev).value.id != id) ==> Holds(Step(s, ev).0, id, row)
  {
    if ev.OnRegisterPk? {
      RegisterHolds(s, ev.rk, ev.addr, ev.ws, ev.now, ev.env, id, row);
    }
  }

  lemma {:induction false} MemoryKeeps(s: State, tr: seq<Event>, id: string, row: Row)
    requires Holds(s, id, row) && RemembersAll(s, tr, id) && LastOk(s, tr, id).None?
    ensures Holds(Run(s, tr), id, row)
    decreases |tr|
  {
    if tr == [] {
    } else {
      StepHolds(s, tr[0], id, row);
      MemoryKeeps(Step(s, tr[0]).0, tr[1..], id, row);
    }
  }

  /** Whatever table reads and writes do: while the server runs, memory holds for every id exactly the
      last registration answered OK. */
  lemma {:induction false} MemoryHoldsLastOk(s: State, tr: seq<Event>, id: string)
    requires RemembersAll(s, tr, id) && LastOk(s, tr, id).Some?
    ensures Holds(Run(s, tr), id, LastOk(s, tr, id).value)
    decreases |tr|
  {
    if tr == [] {
    } else {
      var s' := Step(s, tr[0]).0;
      if LastOk(s', tr[1..], id).Some? {
        MemoryHoldsLastOk(s', tr[1..], id);
      } else {
        StepHolds(s, tr[0], id, Writes(s, tr[0]).value);
        MemoryKeeps(s', tr[1..], id, Writes(s, tr[0]).value);
      }
    }
  }
}
