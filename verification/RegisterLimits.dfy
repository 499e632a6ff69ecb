/** How many RegisterPk requests can be answered OK in a short window, over every run of the
    registry, whatever the table does. */
module RegisterLimits {
  import opened Net
  import opened Database
  import opened Registry
  import IpBlocker

  /** The per-id counter can restart only this many ms after the last OK. */
  const QUIET_REG := 7_000

  ghost predicate OkFor(s: State, ev: Event, id: string) {
    ev.OnRegisterPk? && ev.rk.id == id && Step(s, ev).1 == Registered(OK)
  }

  ghost predicate OkFrom(s: State, ev: Event, ip: Ip) {
    ev.OnRegisterPk? && ev.addr.ip == ip && Step(s, ev).1 == Registered(OK)
  }

  /** OK answers for one id during the run. */
  ghost function OksFor(s: State, tr: seq<Event>, id: string): nat
    decreases |tr|
  {
    if tr == [] then 0 else (if OkFor(s, tr[0], id) then 1 else 0) + OksFor(Step(s, tr[0]).0, tr[1..], id)
  }

  /** OK answers to one address during the run. */
  ghost function OksFrom(s: State, tr: seq<Event>, ip: Ip): nat
    decreases |tr|
  {
    if tr == [] then 0 else (if OkFrom(s, tr[0], ip) then 1 else 0) + OksFrom(Step(s, tr[0]).0, tr[1..], ip)
  }

  /** The event forgets the counter of a known id: a restart, or a row that reaches memory late and
      replaces the record. */
  predicate Resets(s: State, ev: Event, id: string) {
    ev.OnRestart? || (ev.OnLoadInsert? && ev.i < |s.loading| && s.loading[ev.i].row.id == id && id in s.cache)
  }

  ghost function ResetsOf(s: State, tr: seq<Event>, id: string): nat
    decreases |tr|
  {
    if tr == [] then 0 else (if Resets(s, tr[0], id) then 1 else 0) + ResetsOf(Step(s, tr[0]).0, tr[1..], id)
  }

  /** How often the run forgets what the per-IP gate knows of `ip`. */
  function Forgets(tr: seq<Event>, ip: Ip): nat {
    if tr == [] then 0
    else (if tr[0].OnRestart? || (tr[0].OnIpBlockerCmd? && tr[0].target == Some(ip)) then 1 else 0) + Forgets(tr[1..], ip)
  }

  // ---------- Per id ----------

  function RegBudget(s: State, id: string, from: int): nat {
    if id in s.cache && s.cache[id].regTime >= from then
      (if s.cache[id].regCount <= 3 then 3 - s.cache[id].regCount else 0)
    else 3
  }

  /** The peer already says what the request says. */
  predicate Agrees(p: Peer, rk: RegisterPk, addr: Addr) {
    p.uuid == rk.uuid && p.pk == rk.pk && p.infoIp == Some(addr.ip)
  }

  lemma AcceptCharges(s: State, rk: RegisterPk, addr: Addr, ws: bool, now: int, env: Env)
    requires rk.id in s.cache
    ensures var s' := Accept(s, rk, addr, ws, now, env);
            rk.id in s'.cache && s'.blocker == s.blocker
            && (!Mismatch(s.cache[rk.id], rk, addr.ip) ==> Agrees(s'.cache[rk.id], rk, addr))
            && s'.cache[rk.id].regCount == RegCounted(s.cache[rk.id], now).regCount && s'.cache[rk.id].regTime == now
            && (forall x :: x != rk.id ==> (x in s'.cache <==> x in s.cache) && (x in s.cache ==> s'.cache[x] == s.cache[x]))
  {
  }

  /** The counter is charged exactly by an OK answer; nothing else about the gates moves. */
  lemma RegisterCharges(s: State, rk: RegisterPk, addr: Addr, ws: bool, now: int, env: Env)
    ensures var (s', r) := RegisterKnown(s, rk, addr, ws, now, env);
            && s'.blocker == s.blocker && rk.id in s'.cache
            && (forall x :: x != rk.id ==> (x in s'.cache <==> x in s.cache) && (x in s.cache ==> s'.cache[x] == s.cache[x]))
            && var p := GetOr(s, rk.id, now, env.readOk).cache[rk.id];
               var q := if r == OK then RegCounted(p, now) else p;
               && (r == OK ==> !RegLimited(p, now))
               && s'.cache[rk.id].regCount == q.regCount && s'.cache[rk.id].regTime == q.regTime
  {
    AcceptCharges(GetOr(s, rk.id, now, env.readOk), rk, addr, ws, now, env);
  }

  lemma RegisterBudget(s: State, rk: RegisterPk, addr: Addr, ws: bool, now: int, env: Env, id: string, from: int)
    requires from <= now < from + QUIET_REG
    ensures var (s', r) := RegisterKnown(s, rk, addr, ws, now, env);
            RegBudget(s', id, from) + (if rk.id == id && r == OK then 1 else 0) <= RegBudget(s, id, from)
  {
    RegisterCharges(s, rk, addr, ws, now, env);
  }

  lemma RegBudgetStep(s: State, ev: Event, id: string, from: int)
    requires from <= ev.now < from + QUIET_REG
    ensures RegBudget(Step(s, ev).0, id, from) + (if OkFor(s, ev, id) then 1 else 0)
            <= RegBudget(s, id, from) + (if Resets(s, ev, id) then 3 else 0)
  {
    if ev.OnRegisterPk? {
      var gated := s.(blocker := IpBlocker.Checked(s.blocker, ev.addr.ip, ev.rk.id, ev.now).0);
      RegisterBudget(gated, ev.rk, ev.addr, ev.ws, ev.now, ev.env, id, from);
    }
  }

  /** Any window shorter than 7 s holds at most 3 OK answers for an id, whatever addresses and
      uuids asked; each restart, and each late load over the id's record, allows 3 more. */
  lemma {:induction false} SevenSecondWindow(s: State, tr: seq<Event>, id: string, from: int)
    requires Within(tr, Registry.Clock, from, QUIET_REG)
    ensures OksFor(s, tr, id) <= RegBudget(s, id, from) + 3 * ResetsOf(s, tr, id)
    ensures OksFor(s, tr, id) <= 3 + 3 * ResetsOf(s, tr, id)
    decreases |tr|
  {
    if tr == [] {
    } else {
      RegBudgetStep(s, tr[0], id, from);
      SevenSecondWindow(Step(s, tr[0]).0, tr[1..], id, from);
    }
  }

  /** The server after `n` equal registrations at one instant, and how many of them were answered OK. */
  ghost function Repeat(s: State, rk: RegisterPk, addr: Addr, ws: bool, now: int, env: Env, n: nat): (State, nat) {
    if n == 0 then (s, 0)
    else
      var (s1, oks) := Repeat(s, rk, addr, ws, now, env, n - 1);
      var (s2, r) := RegisterKnown(s1, rk, addr, ws, now, env);
      (s2, oks + if r == OK then 1 else 0)
  }

  /** The bound is reached: of any number of equal registrations of a new id at one instant, as far as
      the per-IP gate lets them through, exactly the first three are answered OK. */
  lemma {:induction false} FirstThreeAreOk(s: State, rk: RegisterPk, addr: Addr, ws: bool, now: int, env: Env, n: nat)
    requires rk.uuid != [] && rk.id !in s.cache && !HasId(s.rows, rk.id)
    ensures var (s', oks) := Repeat(s, rk, addr, ws, now, env, n);
            && oks == (if n <= 3 then n else 3)
            && (n > 0 ==> rk.id in s'.cache && Agrees(s'.cache[rk.id], rk, addr)
                          && s'.cache[rk.id].regCount == oks && s'.cache[rk.id].regTime == now)
            && (n == 0 ==> s' == s)
  {
    if n == 0 {
    } else {
      FirstThreeAreOk(s, rk, addr, ws, now, env, n - 1);
      var s1 := GetOr(Repeat(s, rk, addr, ws, now, env, n - 1).0, rk.id, now, env.readOk);
      AcceptCharges(s1, rk, addr, ws, now, env);
    }
  }

  // ---------- The counter, read off the answers ----------

  /** The times of the OK answers for one id during the run. */
  ghost function OkTimes(s: State, tr: seq<Event>, id: string): seq<int>
    decreases |tr|
  {
    if tr == [] then [] else (if OkFor(s, tr[0], id) then [tr[0].now] else []) + OkTimes(Step(s, tr[0]).0, tr[1..], id)
  }

  /** How many of them, counted from the last, followed each other by less than 7 s. */
  function InARow(times: seq<int>): nat {
    if |times| <= 1 then |times|
    else if times[|times| - 1] - times[|times| - 2] < 7_000 then InARow(times[..|times| - 1]) + 1
    else 1
  }

  predicate CounterReads(s: State, id: string, times: seq<int>) {
    if id !in s.cache then times == []
    else if times == [] then s.cache[id].regCount == 0
    else s.cache[id].regCount == InARow(times) && s.cache[id].regTime == times[|times| - 1]
  }

  lemma PushTime(times: seq<int>, now: int)
    ensures InARow(times + [now]) == if times == [] || now - times[|times| - 1] >= 7_000 then 1 else InARow(times) + 1
  {
    assert (times + [now])[..|times|] == times;
  }

  lemma FoundReads(s: State, rk: RegisterPk, addr: Addr, ws: bool, now: int, env: Env, id: string, times: seq<int>)
    requires CounterReads(s, id, times)
    ensures var (s', r) := RegisterKnown(s, rk, addr, ws, now, env);
            CounterReads(s', id, if rk.id == id && r == OK then times + [now] else times)
  {
    RegisterCharges(s, rk, addr, ws, now, env);
    PushTime(times, now);
  }

  lemma StepReads(s: State, ev: Event, id: string, times: seq<int>)
    requires CounterReads(s, id, times) && !Resets(s, ev, id)
    ensures CounterReads(Step(s, ev).0, id, if OkFor(s, ev, id) then times + [ev.now] else times)
  {
    if ev.OnRegisterPk? {
      HandleIsGated(s, ev.rk, ev.addr, ev.ws, ev.now, ev.env);
      var gated := s.(blocker := IpBlocker.Checked(s.blocker, ev.addr.ip, ev.rk.id, ev.now).0);
      FoundReads(gated, ev.rk, ev.addr, ev.ws, ev.now, ev.env, id, times);
    }
  }

  /** The per-id counter says what the answers say: how many OKs were given in a row without 7 s between them,
      and when the last one was. */
  lemma {:induction false} CounterIsHistory(s: State, tr: seq<Event>, id: string, times: seq<int>)
    requires CounterReads(s, id, times) && ResetsOf(s, tr, id) == 0
    ensures CounterReads(Run(s, tr), id, times + OkTimes(s, tr, id))
    decreases |tr|
  {
    if tr == [] {
      assert times + [] == times;
    } else {
      StepReads(s, tr[0], id, times);
      var times' := if OkFor(s, tr[0], id) then times + [tr[0].now] else times;
      CounterIsHistory(Step(s, tr[0]).0, tr[1..], id, times');
      assert times' + OkTimes(Step(s, tr[0]).0, tr[1..], id) == times + OkTimes(s, tr, id);
    }
  }

  // ---------- Per address ----------

  lemma OkSpendsAHit(s: State, ev: Event, ip: Ip, from: int)
    requires from <= ev.now < from + IpBlocker.QUIET_MINUTE
    ensures IpBlocker.HitBudget(Step(s, ev).0.blocker, ip, from) + (if OkFrom(s, ev, ip) then 1 else 0)
            <= IpBlocker.HitBudget(s.blocker, ip, from)
               + (if ev.OnRestart? || (ev.OnIpBlockerCmd? && ev.target == Some(ip)) then 32 else 0)
  {
    match ev
    case OnRegisterPk(rk, addr, ws, now, env) =>
      var check := IpBlocker.Check(addr.ip, rk.id, now);
      IpBlocker.HitBudgetStep(s.blocker, check, ip, from);
      RegisterCharges(s.(blocker := IpBlocker.Step(s.blocker, check).0), rk, addr, ws, now, env);
    case OnIpBlockerCmd(target, now) =>
      var cmd := if target.Some? then IpBlocker.Delete(target.value, now) else IpBlocker.Prune(now);
      IpBlocker.HitBudgetStep(s.blocker, cmd, ip, from);
    case _ =>
  }

  /** Any window shorter than 61 s holds at most 32 OK answers to one address, whatever ids it
      registers; each restart or hand deletion of its entry allows 32 more. */
  lemma {:induction false} MinuteOfRegistrations(s: State, tr: seq<Event>, ip: Ip, from: int)
    requires Within(tr, Registry.Clock, from, IpBlocker.QUIET_MINUTE)
    ensures OksFrom(s, tr, ip) <= IpBlocker.HitBudget(s.blocker, ip, from) + 32 * Forgets(tr, ip)
    ensures OksFrom(s, tr, ip) <= 32 + 32 * Forgets(tr, ip)
    decreases |tr|
  {
    if tr == [] {
    } else {
      OkSpendsAHit(s, tr[0], ip, from);
      MinuteOfRegistrations(Step(s, tr[0]).0, tr[1..], ip, from);
    }
  }
}
