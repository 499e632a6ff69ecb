/** What the id server answers to each message and what it keeps, said from outside: every answer with its
    exact condition, in any state and whatever the table does. */
module Answers {
  import opened Net
  import opened Database
  import opened Registry
  import opened Ledger
  import RegisterLimits
  import IpBlocker

  // ---------- Lookups ----------

  /** The id is in memory, or its row can be read. */
  ghost predicate CanFind(s: State, id: string, readOk: bool) {
    id in s.cache || (readOk && HasId(s.rows, id))
  }

  /** What a lookup shows: the record in memory, else that of the row, on which nothing has been heard for an
      hour and nothing counted, else the same of a blank peer. */
  ghost function Shown(s: State, id: string, now: int, readOk: bool): Peer {
    if id in s.cache then s.cache[id]
    else if readOk && HasId(s.rows, id) then
      var (g, row) := (Find(s.rows, id).value, s.rows[Find(s.rows, id).value]);
      Peer(UNSPECIFIED, now - 3_600_000, g, row.uuid, row.pk, row.infoIp, 0, now - 3_600_000)
    else Peer(UNSPECIFIED, now - 3_600_000, [], [], [], None, 0, now - 3_600_000)
  }

  /** The two states agree but for this record. */
  predicate OnlyRecord(s: State, s': State, id: string) {
    && s'.rows == s.rows && s'.blocker == s.blocker && s'.loading == s.loading && s'.cache - {id} == s.cache - {id}
  }

  lemma LookupShows(s: State, id: string, now: int, readOk: bool)
    ensures var (s', found) := Get(s, id, now, readOk);
            && OnlyRecord(s, s', id) && (found <==> CanFind(s, id, readOk))
            && (found ==> id in s'.cache && s'.cache[id] == Shown(s, id, now, readOk))
            && (!found ==> s' == s)
    ensures OnlyRecord(s, GetOr(s, id, now, readOk), id) && GetOr(s, id, now, readOk).cache[id] == Shown(s, id, now, readOk)
  {
  }

  // ---------- Punch-hole requests ----------

  /** Is the request allowed: the right key, and, where login is asked for, a token that is valid if a secret is set. */
  predicate Allowed(ph: PunchHoleRequest) {
    ph.licenceOk && (ph.mustLogin ==> !ph.tokenEmpty && (ph.secretEmpty || ph.tokenValid))
  }

  /** Each answer with its exact condition; the first three are given before anything is looked up. */
  lemma PunchHoleAnswers(s: State, ph: PunchHoleRequest, now: int, readOk: bool)
    ensures var (s', reply) := HandlePunchHole(s, ph, now, readOk);
            && (reply == Failed(LICENSE_MISMATCH) <==> !ph.licenceOk)
            && (reply == Failed(PLEASE_LOGIN) <==> ph.licenceOk && ph.mustLogin && ph.tokenEmpty)
            && (reply == Failed(TOKEN_ERROR) <==> ph.licenceOk && ph.mustLogin && !ph.tokenEmpty && !ph.secretEmpty && !ph.tokenValid)
            && (reply == Failed(ID_NOT_EXIST) <==> Allowed(ph) && !CanFind(s, ph.id, readOk))
            && (reply == Failed(OFFLINE) <==> Allowed(ph) && CanFind(s, ph.id, readOk) && !OnlineBit(s, ph.id, now))
            && (reply.Forward? <==> Allowed(ph) && OnlineBit(s, ph.id, now))
            && (reply.Forward? ==> ph.id in s.cache && reply.to == s.cache[ph.id].socketAddr)
            && OnlyRecord(s, s', ph.id) && (!Allowed(ph) || !CanFind(s, ph.id, readOk) ==> s' == s)
            && (Allowed(ph) && CanFind(s, ph.id, readOk) ==> ph.id in s'.cache && s'.cache[ph.id] == Shown(s, ph.id, now, readOk))
  {
    LookupShows(s, ph.id, now, readOk);
  }

  // ---------- Heartbeats ----------

  /** 127.0.0.0 to 127.255.255.255, and ::1. */
  lemma LoopbackIff(ip: Ip)
    ensures ip.IsLoopback() <==> if ip.V4? then 0x7F00_0000 <= ip.bits <= 0x7FFF_FFFF else ip.bits == 1
  {
  }

  /** The ip a peer is expected at: where it was last heard, else the one recorded for it. */
  function ExpectedIp(p: Peer): Option<Ip> {
    if p.socketAddr.port != 0 then Some(p.socketAddr.ip) else p.infoIp
  }

  /** A heartbeat with an id is accepted exactly if the peer is in memory with a key and is heard where it is
      expected, or over loopback. Then its address and time are noted; else nothing changes. Without an id there
      is no answer. */
  lemma HeartbeatAnswers(s: State, id: string, addr: Addr, now: int)
    ensures var (s', out) := Step(s, OnRegisterPeer(id, addr, now));
            && (out == Silent <==> id == "")
            && (out == RequestPk(false) <==>
                  id != "" && id in s.cache && s.cache[id].pk != [] && (addr.ip.IsLoopback() || ExpectedIp(s.cache[id]) == Some(addr.ip)))
            && (out == Silent || out == RequestPk(true) || out == RequestPk(false))
            && s' == if out == RequestPk(false) then s.(cache := s.cache[id := s.cache[id].(socketAddr := addr, lastRegTime := now)]) else s
  {
  }

  // ---------- Key lookups ----------

  /** A key is signed exactly if the asker can check it and the id can be found: the key that the lookup shows. */
  lemma KeyAnswers(s: State, id: string, signing: bool, now: int, readOk: bool)
    ensures var (s', signed) := GetPk(s, id, signing, now, readOk);
            && (signed.Some? <==> signing && CanFind(s, id, readOk))
            && (signed.Some? ==> signed.value == (id, Shown(s, id, now, readOk).pk) && id in s'.cache
                                 && s'.cache[id] == Shown(s, id, now, readOk))
            && OnlyRecord(s, s', id) && (signed.None? ==> s' == s)
  {
    LookupShows(s, id, now, readOk);
  }

  // ---------- Registrations ----------

  /** A peer that has a uuid insists on it, and on its key unless the ip is the recorded one. */
  predicate Insists(p: Peer, rk: RegisterPk, ip: Ip) {
    p.uuid != [] && (rk.uuid != p.uuid || (rk.pk != p.pk && p.infoIp != Some(ip)))
  }

  /** Three registrations were counted without 7 s between them, and the last is not 7 s ago. */
  predicate TooOften(p: Peer, now: int) {
    p.regCount >= 3 && now - p.regTime < 7_000
  }

  ghost predicate PassesGate(s: State, rk: RegisterPk, addr: Addr, now: int) {
    IpBlocker.Checked(s.blocker, addr.ip, rk.id, now).1
  }

  /** Each answer with its exact condition, by what the lookup shows. */
  lemma RegisterAnswers(s: State, rk: RegisterPk, addr: Addr, ws: bool, now: int, env: Env)
    ensures var r := HandleRegisterPk(s, rk, addr, ws, now, env).1;
            var wellFormed := rk.uuid != [] && rk.pk != [];
            var p := Shown(s, rk.id, now, env.readOk);
            && (r == INVALID_ID_FORMAT <==> !wellFormed)
            && (r == UUID_MISMATCH <==> wellFormed && (|rk.id| < 6 || (PassesGate(s, rk, addr, now) && Insists(p, rk, addr.ip))))
            && (r == TOO_FREQUENT <==> wellFormed && |rk.id| >= 6
                                       && (!PassesGate(s, rk, addr, now) || (!Insists(p, rk, addr.ip) && TooOften(p, now))))
            && (r == OK <==> wellFormed && |rk.id| >= 6 && PassesGate(s, rk, addr, now) && !Insists(p, rk, addr.ip) && !TooOften(p, now))
  {
    LookupShows(s.(blocker := IpBlocker.Checked(s.blocker, addr.ip, rk.id, now).0), rk.id, now, env.readOk);
  }

  /** The same in a state where memory and table agree and the table answers: the identity verdict is the ledger's. */
  lemma RegisterAnswersByLedger(s: State, rk: RegisterPk, addr: Addr, ws: bool, now: int, env: Env)
    requires Synced(s) && env.readOk
    ensures var r := HandleRegisterPk(s, rk, addr, ws, now, env).1;
            var wellFormed := rk.uuid != [] && rk.pk != [];
            var often := rk.id in s.cache && TooOften(s.cache[rk.id], now);
            && (r == INVALID_ID_FORMAT <==> !wellFormed)
            && (r == UUID_MISMATCH <==> wellFormed && (|rk.id| < 6 || (PassesGate(s, rk, addr, now) && Refuses(Entry(s, rk.id), rk, addr.ip))))
            && (r == TOO_FREQUENT <==> wellFormed && |rk.id| >= 6
                                       && (!PassesGate(s, rk, addr, now) || (!Refuses(Entry(s, rk.id), rk, addr.ip) && often)))
            && (r == OK <==> wellFormed && |rk.id| >= 6 && PassesGate(s, rk, addr, now) && !Refuses(Entry(s, rk.id), rk, addr.ip) && !often)
  {
    RegisterAnswers(s, rk, addr, ws, now, env);
    LookupShowsEntry(s, rk.id, now);
    LookupShows(s, rk.id, now, env.readOk);
  }

  /** Over runs from the start in which table calls succeed and nothing resets the id's counter: too frequent means
      three OK answers in a row without 7 s between them, and less than 7 s since. */
  lemma RegisterAnswersByHistory(rows: Rows, tr: seq<Event>, rk: RegisterPk, addr: Addr, ws: bool, now: int, env: Env)
    requires WellFormed(rows) && env.readOk
    requires var s0 := State(map[], rows, map[], []); ReliableRun(s0, tr) && RegisterLimits.ResetsOf(s0, tr, rk.id) == 0
    ensures var s0 := State(map[], rows, map[], []);
            var (s, times) := (Run(s0, tr), RegisterLimits.OkTimes(s0, tr, rk.id));
            var r := HandleRegisterPk(s, rk, addr, ws, now, env).1;
            var entry := if LastOk(s0, tr, rk.id).Some? then LastOk(s0, tr, rk.id) else Entry(s0, rk.id);
            var wellFormed := rk.uuid != [] && rk.pk != [];
            var refused := Refuses(entry, rk, addr.ip);
            var often := RegisterLimits.InARow(times) >= 3 && now - times[|times| - 1] < 7_000;
            && (r == INVALID_ID_FORMAT <==> !wellFormed)
            && (r == UUID_MISMATCH <==> wellFormed && (|rk.id| < 6 || (PassesGate(s, rk, addr, now) && refused)))
            && (r == TOO_FREQUENT <==> wellFormed && |rk.id| >= 6 && (!PassesGate(s, rk, addr, now) || (!refused && often)))
            && (r == OK <==> wellFormed && |rk.id| >= 6 && PassesGate(s, rk, addr, now) && !refused && !often)
  {
    var s0 := State(map[], rows, map[], []);
    LedgerIsLastOk(s0, tr, rk.id);
    RegisterLimits.CounterIsHistory(s0, tr, rk.id, []);
    assert [] + RegisterLimits.OkTimes(s0, tr, rk.id) == RegisterLimits.OkTimes(s0, tr, rk.id);
    RegisterAnswersByLedger(Run(s0, tr), rk, addr, ws, now, env);
  }

  // ---------- What a registration changes ----------

  /** Is there something to record: a WebSocket says where it is, others only what is new. */
  predicate SaysNew(p: Peer, rk: RegisterPk, ip: Ip, ws: bool) {
    ws || p.uuid != rk.uuid || p.pk != rk.pk || p.infoIp != Some(ip)
  }

  /** The counter after an OK: one more, or one again after 7 s. */
  predicate Counted(p: Peer, p': Peer, now: int) {
    p'.regTime == now && p'.regCount == if now - p.regTime >= 7_000 then 1 else p.regCount + 1
  }

  /** Nothing but the gate's table, the record of the id and its row ever changes. A refusal enters the record that
      the lookup shows, if it comes after the gate, and writes nothing. An OK counts, and if there is something to
      record, the record says it, with address and time, and it is written to the table under the record's guid. */
  lemma RegisterChanges(s: State, rk: RegisterPk, addr: Addr, ws: bool, now: int, env: Env)
    ensures var (s', r) := HandleRegisterPk(s, rk, addr, ws, now, env);
            var p := Shown(s, rk.id, now, env.readOk);
            var gated := rk.uuid != [] && rk.pk != [] && |rk.id| >= 6;
            && s'.loading == s.loading && s'.cache - {rk.id} == s.cache - {rk.id}
            && s'.blocker == (if gated then IpBlocker.Checked(s.blocker, addr.ip, rk.id, now).0 else s.blocker)
            && (!gated || !PassesGate(s, rk, addr, now) ==> s'.cache == s.cache && s'.rows == s.rows)
            && (gated && PassesGate(s, rk, addr, now) ==>
                  && rk.id in s'.cache
                  && var p' := s'.cache[rk.id];
                     if r != OK then p' == p && s'.rows == s.rows
                     else if !SaysNew(p, rk, addr.ip, ws) then
                       p' == p.(regCount := p'.regCount, regTime := p'.regTime) && Counted(p, p', now) && s'.rows == s.rows
                     else
                       var (rows, ok) := Written(s.rows, p.guid, Row(rk.id, rk.uuid, rk.pk, Some(addr.ip)), env.newGuid, env.writeOk);
                       && s'.rows == rows && Counted(p, p', now)
                       && p'.socketAddr == addr && p'.lastRegTime == now
                       && p'.uuid == rk.uuid && p'.pk == rk.pk && p'.infoIp == Some(addr.ip)
                       && p'.guid == if p.guid == [] && ok then env.newGuid else p.guid)
  {
    if rk.uuid != [] && rk.pk != [] && |rk.id| >= 6 && PassesGate(s, rk, addr, now) {
      var gated := s.(blocker := IpBlocker.Checked(s.blocker, addr.ip, rk.id, now).0);
      LookupShows(gated, rk.id, now, env.readOk);
      FoundChanges(GetOr(gated, rk.id, now, env.readOk), rk, addr, ws, now, env);
    }
  }

  lemma FoundChanges(s: State, rk: RegisterPk, addr: Addr, ws: bool, now: int, env: Env)
    requires rk.id in s.cache && rk.uuid != []
    ensures var (s', r) := RegisterFound(s, rk, addr, ws, now, env);
            var p := s.cache[rk.id];
            && s'.loading == s.loading && s'.cache - {rk.id} == s.cache - {rk.id} && s'.blocker == s.blocker && rk.id in s'.cache
            && var p' := s'.cache[rk.id];
               if r != OK then s' == s
               else if !SaysNew(p, rk, addr.ip, ws) then
                 p' == p.(regCount := p'.regCount, regTime := p'.regTime) && Counted(p, p', now) && s'.rows == s.rows
               else
                 var (rows, ok) := Written(s.rows, p.guid, Row(rk.id, rk.uuid, rk.pk, Some(addr.ip)), env.newGuid, env.writeOk);
                 && s'.rows == rows && Counted(p, p', now)
                 && p'.socketAddr == addr && p'.lastRegTime == now
                 && p'.uuid == rk.uuid && p'.pk == rk.pk && p'.infoIp == Some(addr.ip)
                 && p'.guid == if p.guid == [] && ok then env.newGuid else p.guid
  {
  }

  // ---------- Everything else ----------

  /** A load takes the row as it is when its query is answered, and later puts it into memory as a lookup would show
      it, whatever is there; a restart forgets everything but the table; the `ib` command touches the gate only. */
  lemma OtherEvents(s: State, ev: Event)
    requires ev.OnLoadRead? || ev.OnLoadInsert? || ev.OnRestart? || ev.OnIpBlockerCmd?
    ensures var (s', out) := Step(s, ev);
            && out == Silent && s'.rows == s.rows
            && (ev.OnRestart? ==> s' == State(map[], s.rows, map[], []))
            && (ev.OnIpBlockerCmd? ==> s' == s.(blocker := s'.blocker) && forall ip ::
                  ip in s'.blocker <==>
                    && ip in s.blocker && ev.target != Some(ip)
                    && (ev.now < s.blocker[ip].hitTime + 61_000 || ev.now < s.blocker[ip].idTime + 86_401_000))
            && (ev.OnLoadRead? ==> s' == s.(loading := s'.loading)
                                   && s'.loading == s.loading + (if ev.env.readOk && HasId(s.rows, ev.id)
                                                                 then [Load(Find(s.rows, ev.id).value, s.rows[Find(s.rows, ev.id).value])] else []))
            && (ev.OnLoadInsert? ==>
                  if ev.i >= |s.loading| then s' == s
                  else
                    var l := s.loading[ev.i];
                    && s'.blocker == s.blocker && s'.loading == s.loading[..ev.i] + s.loading[ev.i + 1..]
                    && s'.cache == s.cache[l.row.id := Peer(UNSPECIFIED, ev.now - 3_600_000, l.guid, l.row.uuid, l.row.pk, l.row.infoIp,
                                                            0, ev.now - 3_600_000)])
  {
    if ev.OnIpBlockerCmd? {
      forall ip
        ensures ip in Step(s, ev).0.blocker <==>
                  && ip in s.blocker && ev.target != Some(ip)
                  && (ev.now < s.blocker[ip].hitTime + 61_000 || ev.now < s.blocker[ip].idTime + 86_401_000)
      {
        IpBlocker.PruneIff(s.blocker, ip, ev.now, if ev.target.Some? then ev.target.value else ip);
      }
    }
  }
}
