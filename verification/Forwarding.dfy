/** Which punch-hole requests are forwarded, and where to. */
module Forwarding {
  import opened Net
  import opened Database
  import opened Registry
  import opened Ledger
  import IpBlocker

  // ---------- Online ----------

  /** The cast to i32 calls a peer online in the first 30 s after contact, and again in the
      upper half of every 2^32 ms. */
  lemma OnlineExactly(p: Peer, now: int)
    ensures var e := Elapsed(p.lastRegTime, now);
            Online(p, now) <==> e % 0x1_0000_0000 < 30_000 || e % 0x1_0000_0000 >= 0x8000_0000
    ensures Elapsed(p.lastRegTime, now) < 0x8000_0000 ==> (Online(p, now) <==> Elapsed(p.lastRegTime, now) < 30_000)
  {
  }

  /** Twenty-five days of silence look like presence. */
  lemma SilentForWeeksIsOnline(p: Peer)
    ensures Online(p, p.lastRegTime + 25 * 86_400_000)
    ensures 25 * 86_400_000 >= 30_000
  {
    assert 25 * 86_400_000 % 0x1_0000_0000 >= 0x8000_0000;
  }

  /** Two views of one fact, in every state: past the licence and login checks a request is forwarded
      exactly when the id's online bit is set, even if the request itself loads the peer. */
  lemma BitAgreesWithPunchHole(s: State, ph: PunchHoleRequest, now: int, readOk: bool)
    ensures HandlePunchHole(s, ph, now, readOk).1.Forward? <==> Gate(ph).None? && OnlineBit(s, ph.id, now)
    ensures Gate(ph).None? && !OnlineBit(s, ph.id, now) ==>
              HandlePunchHole(s, ph, now, readOk).1
              == Failed(if ph.id in s.cache || (readOk && HasId(s.rows, ph.id)) then OFFLINE else ID_NOT_EXIST)
  {
  }

  // ---------- Addresses ----------

  /** The address of a peer is the blank one of a peer never heard from, or has the ip recorded
      at its last accepted registration, or is loopback. */
  predicate AddrSound(p: Peer, now: int) {
    || (p.socketAddr == UNSPECIFIED && now - p.lastRegTime >= EXPIRED)
    || Some(p.socketAddr.ip) == p.infoIp
    || p.socketAddr.ip.IsLoopback()
  }

  ghost predicate AddrsSound(s: State, now: int) {
    forall id :: id in s.cache ==> AddrSound(s.cache[id], now)
  }

  lemma UpdatePkAddrs(s: State, id: string, addr: Addr, uuid: Bytes, pk: Bytes, now: int, env: Env)
    requires AddrsSound(s, now) && id in s.cache
    ensures AddrsSound(UpdatePk(s, id, addr, uuid, pk, now, env), now)
  {
  }

  lemma RegisterAddrs(s: State, rk: RegisterPk, addr: Addr, ws: bool, now: int, env: Env)
    requires AddrsSound(s, now)
    ensures AddrsSound(RegisterKnown(s, rk, addr, ws, now, env).0, now)
  {
    var s1 := GetOr(s, rk.id, now, env.readOk);
    assert AddrsSound(s1, now);
    var s2 := s1.(cache := s1.cache[rk.id := RegCounted(s1.cache[rk.id], now)]);
    UpdatePkAddrs(s2, rk.id, addr, rk.uuid, rk.pk, now, env);
  }

  lemma StepAddrs(s: State, ev: Event, before: int)
    requires AddrsSound(s, before) && before <= ev.now
    ensures AddrsSound(Step(s, ev).0, ev.now)
  {
    if ev.OnRegisterPk? {
      var gated := s.(blocker := IpBlocker.Checked(s.blocker, ev.addr.ip, ev.rk.id, ev.now).0);
      RegisterAddrs(gated, ev.rk, ev.addr, ev.ws, ev.now, ev.env);
    }
  }

  /** Times in the run start at `from` or later, never go back, and end by `until`. */
  ghost predicate Timed(tr: seq<Event>, from: int, until: int)
    decreases |tr|
  {
    if tr == [] then from <= until else from <= tr[0].now && Timed(tr[1..], tr[0].now, until)
  }

  /** In every reachable state every cached address is sound, whatever the table did. */
  lemma {:induction false} RunAddrs(s: State, tr: seq<Event>, from: int, until: int)
    requires AddrsSound(s, from) && Timed(tr, from, until)
    ensures AddrsSound(Run(s, tr), until)
    decreases |tr|
  {
    if tr == [] {
    } else {
      StepAddrs(s, tr[0], from);
      RunAddrs(Step(s, tr[0]).0, tr[1..], tr[0].now, until);
    }
  }

  /** A forwarded request goes to the ip in the peer's info, or to loopback. */
  lemma ForwardToInfo(s: State, ph: PunchHoleRequest, now: int, readOk: bool)
    requires AddrsSound(s, now) && HandlePunchHole(s, ph, now, readOk).1.Forward?
    requires ph.id in s.cache ==> Elapsed(s.cache[ph.id].lastRegTime, now) < 0x8000_0000
    ensures ph.id in s.cache
    ensures var to := HandlePunchHole(s, ph, now, readOk).1.to;
            to.ip.IsLoopback() || Some(to.ip) == s.cache[ph.id].infoIp
  {
    BitAgreesWithPunchHole(s, ph, now, readOk);
    OnlineExactly(s.cache[ph.id], now);
  }

  /** Whatever the table does: after any run without restart in which no outdated row reaches memory, a
      request for an id is forwarded to the ip of that id's last registration answered OK, or to
      loopback. */
  lemma ForwardGoesToLastRegistration(s0: State, tr: seq<Event>, from: int, ph: PunchHoleRequest, now: int, readOk: bool)
    requires AddrsSound(s0, from) && Timed(tr, from, now)
    requires RemembersAll(s0, tr, ph.id) && LastOk(s0, tr, ph.id).Some?
    requires var s := Run(s0, tr);
             && HandlePunchHole(s, ph, now, readOk).1.Forward?
             && (ph.id in s.cache ==> Elapsed(s.cache[ph.id].lastRegTime, now) < 0x8000_0000)
    ensures var to := HandlePunchHole(Run(s0, tr), ph, now, readOk).1.to;
            to.ip.IsLoopback() || Some(to.ip) == LastOk(s0, tr, ph.id).value.infoIp
  {
    MemoryHoldsLastOk(s0, tr, ph.id);
    RunAddrs(s0, tr, from, now);
    ForwardToInfo(Run(s0, tr), ph, now, readOk);
  }

  /** Across restarts, given table calls that succeed: the same, from a server started on any well-formed
      table; with no registration in the run, the ip is the table's. */
  lemma ForwardAfterRestarts(rows: Rows, tr: seq<Event>, from: int, ph: PunchHoleRequest, now: int)
    requires WellFormed(rows)
    requires var s0 := State(map[], rows, map[], []); ReliableRun(s0, tr) && Timed(tr, from, now)
    requires var s := Run(State(map[], rows, map[], []), tr);
             && HandlePunchHole(s, ph, now, true).1.Forward?
             && (ph.id in s.cache ==> Elapsed(s.cache[ph.id].lastRegTime, now) < 0x8000_0000)
    ensures var s0 := State(map[], rows, map[], []);
            var last := if LastOk(s0, tr, ph.id).Some? then LastOk(s0, tr, ph.id) else Entry(s0, ph.id);
            var to := HandlePunchHole(Run(s0, tr), ph, now, true).1.to;
            last.Some? && (to.ip.IsLoopback() || Some(to.ip) == last.value.infoIp)
  {
    var s0 := State(map[], rows, map[], []);
    var s := Run(s0, tr);
    LedgerIsLastOk(s0, tr, ph.id);
    RunAddrs(s0, tr, from, now);
    ForwardToInfo(s, ph, now, true);
    EntryIs(s, s.cache[ph.id].guid);
  }

  /** A row that reaches memory late takes an online peer offline: requests are answered OFFLINE until
      the peer is heard from again. */
  lemma LateLoadTakesOffline(s: State, i: nat, now: int, ph: PunchHoleRequest, later: int, readOk: bool)
    requires i < |s.loading| && ph.id == s.loading[i].row.id && Gate(ph).None?
    requires now <= later < now - EXPIRED + 0x8000_0000
    ensures HandlePunchHole(FinishLoad(s, i, now), ph, later, readOk).1 == Failed(OFFLINE)
    ensures !OnlineBit(FinishLoad(s, i, now), ph.id, later)
  {
  }

  // ---------- Contact ----------

  /** An accepted heartbeat makes its sender reachable at once and for 30 s: every request that passes
      the checks is forwarded to the very address the heartbeat came from. */
  lemma HeartbeatMakesReachable(s: State, id: string, addr: Addr, now: int, ph: PunchHoleRequest, later: int, readOk: bool)
    requires !UpdateAddr(s, id, addr, now).1
    requires ph.id == id && Gate(ph).None? && now <= later < now + 30_000
    ensures HandlePunchHole(UpdateAddr(s, id, addr, now).0, ph, later, readOk).1 == Forward(addr)
  {
  }

  /** A registration answered OK does the same if it came over a WebSocket or said something new;
      otherwise it leaves presence and address as they were. */
  lemma RegistrationMakesReachable(s: State, rk: RegisterPk, addr: Addr, ws: bool, now: int, env: Env,
                                   ph: PunchHoleRequest, later: int, readOk: bool)
    requires RegisterKnown(s, rk, addr, ws, now, env).1 == OK
    requires ph.id == rk.id && Gate(ph).None? && now <= later < now + 30_000
    ensures var p := GetOr(s, rk.id, now, env.readOk).cache[rk.id];
            HandlePunchHole(RegisterKnown(s, rk, addr, ws, now, env).0, ph, later, readOk).1
            == if ws || Changed(p, rk, addr.ip) then Forward(addr)
               else if Online(p, later) then Forward(p.socketAddr) else Failed(OFFLINE)
  {
    var s1 := GetOr(s, rk.id, now, env.readOk);
    assert rk.id in Accept(s1, rk, addr, ws, now, env).cache;
  }

  /** A stored loopback address hides the recorded one. */
  predicate StuckOnLoopback(p: Peer, ip: Ip) {
    p.socketAddr.port != 0 && p.socketAddr.ip.IsLoopback() && !ip.IsLoopback()
  }

  lemma AcceptPresence(s: State, rk: RegisterPk, addr: Addr, ws: bool, now: int, env: Env)
    requires rk.id in s.cache
    ensures var s' := Accept(s, rk, addr, ws, now, env);
            && rk.id in s'.cache
            && var (p, p') := (s.cache[rk.id], s'.cache[rk.id]);
               if ws || Changed(p, rk, addr.ip) then p'.socketAddr == addr && p'.pk == rk.pk && p'.infoIp == Some(addr.ip)
               else p'.socketAddr == p.socketAddr && p'.pk == p.pk && p'.infoIp == p.infoIp
  {
  }

  /** After an OK registration the heartbeats of the same ip are accepted, except in exactly one case: the
      registration came without WebSocket, said nothing new, and found a loopback address stored. */
  lemma HeartbeatAfterOk(s: State, rk: RegisterPk, addr: Addr, ws: bool, now: int, env: Env, beat: Addr, later: int)
    requires AddrsSound(s, now) && rk.pk != [] && rk.uuid != [] && beat.ip == addr.ip
    requires RegisterKnown(s, rk, addr, ws, now, env).1 == OK
    ensures var p := GetOr(s, rk.id, now, env.readOk).cache[rk.id];
            var s' := RegisterKnown(s, rk, addr, ws, now, env).0;
            UpdateAddr(s', rk.id, beat, later).1 <==> !ws && !Changed(p, rk, addr.ip) && StuckOnLoopback(p, addr.ip)
  {
    var s1 := GetOr(s, rk.id, now, env.readOk);
    assert AddrSound(s1.cache[rk.id], now);
    AcceptPresence(s1, rk, addr, ws, now, env);
  }

  /** That case is reached: register, beat once over loopback, register again. Both registrations are
      answered OK, and the next heartbeat is asked for the key all the same. */
  lemma LoopbackBeatSticks(s: State, rk: RegisterPk, addr: Addr, loop: Addr, now: int, env: Env)
    requires s.cache == map[] && s.blocker == map[] && !HasId(s.rows, rk.id)
    requires |rk.id| >= 6 && rk.uuid != [] && rk.pk != [] && env.newGuid != []
    requires !addr.ip.IsLoopback() && loop.ip.IsLoopback() && loop.port != 0
    ensures var (s1, out1) := Step(s, OnRegisterPk(rk, addr, false, now, env));
            var (s2, out2) := Step(s1, OnRegisterPeer(rk.id, loop, now));
            var (s3, out3) := Step(s2, OnRegisterPk(rk, addr, false, now, env));
            var (s4, out4) := Step(s3, OnRegisterPeer(rk.id, addr, now));
            out1 == Registered(OK) && out2 == RequestPk(false) && out3 == Registered(OK) && out4 == RequestPk(true)
  {
    var s1 := Step(s, OnRegisterPk(rk, addr, false, now, env)).0;
    var p1 := s1.cache[rk.id];
    assert p1.uuid == rk.uuid && p1.pk == rk.pk && p1.infoIp == Some(addr.ip) && p1.regCount == 1 && p1.regTime == now;
    assert s1.blocker == map[addr.ip := IpBlocker.Entry(0, now, {}, now)];
    var s2 := Step(s1, OnRegisterPeer(rk.id, loop, now)).0;
    assert s2.cache[rk.id] == p1.(socketAddr := loop, lastRegTime := now) && s2.blocker == s1.blocker;
    var (s3, out3) := Step(s2, OnRegisterPk(rk, addr, false, now, env));
    assert s3.cache[rk.id].socketAddr == loop;
  }
}
