/** The per-IP gate in front of RegisterPk: a hit counter that is reset after a quiet
    minute and a set of ids that is cleared after a quiet day. */
module IpBlocker {
  import opened Net

  const IP_BLOCK_DUR := 60
  const DAY_SECONDS := 86400

  /** No reset or prune can happen sooner than this many ms after the last counted hit. */
  const QUIET_MINUTE := 61_000
  /** No clear or prune can happen sooner than this many ms after the id set was stamped. */
  const QUIET_DAY := 86_401_000

  datatype Entry = Entry(hits: nat, hitTime: int, ids: set<string>, idTime: int)
  type Table = map<Ip, Entry>

  datatype Event =
    | Check(ip: Ip, id: string, now: int)
    | Prune(now: int)
    | Delete(ip: Ip, now: int)

  // ---------- What one call does ----------

  function Hit(e: Entry, now: int): Entry {
    e.(hits := (if SecsExceed(e.hitTime, now, IP_BLOCK_DUR) then 0 else e.hits) + 1, hitTime := now)
  }

  /** The table and the verdict after one check. */
  function Checked(m: Table, ip: Ip, id: string, now: int): (Table, bool) {
    if ip !in m then
      (m[ip := Entry(0, now, {}, now)], true)
    else if !SecsExceed(m[ip].hitTime, now, IP_BLOCK_DUR) && m[ip].hits > 30 then
      (m, false)
    else
      var e := Hit(m[ip], now);
      var stale := SecsExceed(e.idTime, now, DAY_SECONDS);
      if !stale && |e.ids| > 300 then
        (m[ip := e], id in e.ids)
      else
        var kept := if stale then {} else e.ids;
        (m[ip := e.(ids := if id in e.ids then kept else kept + {id}, idTime := now)], true)
  }

  predicate Kept(e: Entry, now: int) {
    !SecsExceed(e.hitTime, now, IP_BLOCK_DUR) || !SecsExceed(e.idTime, now, DAY_SECONDS)
  }

  function Pruned(m: Table, now: int): Table {
    map ip | ip in m && Kept(m[ip], now) :: m[ip]
  }

  function Step(m: Table, ev: Event): (Table, bool) {
    match ev
    case Check(ip, id, now) => Checked(m, ip, id, now)
    case Prune(now) => (Pruned(m, now), false)
    case Delete(ip, now) => (Pruned(m, now) - {ip}, false)
  }

  class Blocker {
    var entries: Table

    constructor ()
      ensures entries == map[]
    {
      entries := map[];
    }

    method Check(ip: Ip, id: string, now: int) returns (ok: bool)
      modifies this
      ensures (entries, ok) == Checked(old(entries), ip, id, now)
    {
      if ip !in entries {
        entries := entries[ip := Entry(0, now, {}, now)];
        return true;
      }
      var e := entries[ip];
      if SecsExceed(e.hitTime, now, IP_BLOCK_DUR) {
        e := e.(hits := 0);
      } else if e.hits > 30 {
        return false;
      }
      e := e.(hits := e.hits + 1, hitTime := now);
      var isNew := id !in e.ids;
      if SecsExceed(e.idTime, now, DAY_SECONDS) {
        e := e.(ids := {});
      } else if |e.ids| > 300 {
        entries := entries[ip := e];
        return !isNew;
      }
      if isNew {
        e := e.(ids := e.ids + {id});
      }
      entries := entries[ip := e.(idTime := now)];
      return true;
    }

    /** The `ib` command; with an address and `-` it also forgets that address. */
    method PruneOrDelete(target: Option<Ip>, now: int)
      modifies this
      ensures entries == (if target.Some? then Step(old(entries), Delete(target.value, now)).0
                          else Step(old(entries), Prune(now)).0)
    {
      entries := map ip | ip in entries && Kept(entries[ip], now) :: entries[ip];
      if target.Some? {
        entries := entries - {target.value};
      }
    }
  }

  // ---------- What is answered, and what is kept ----------

  /** One more than 31 counted checks without 61 s of quiet. */
  predicate Busy(e: Entry, now: int) {
    e.hits >= 31 && now < e.hitTime + 61_000
  }

  /** The day's ids are forgotten. */
  predicate Stale(e: Entry, now: int) {
    e.idTime + 86_401_000 <= now
  }

  /** The first check of an address is free. A later one is refused if the address is busy, or names a new
      id while 301 are held that are not stale; else it is accepted. */
  lemma VerdictIff(m: Table, ip: Ip, id: string, now: int)
    ensures Checked(m, ip, id, now).1 <==>
              ip in m ==> !Busy(m[ip], now) && (id in m[ip].ids || |m[ip].ids| < 301 || Stale(m[ip], now))
  {
  }

  /** A check touches its own address only. If that is busy, nothing changes. Else the hit is counted, from
      one again after a quiet 61 s; and unless the set is full and not stale, it is stamped and holds the id,
      a stale set being emptied first, and left empty if the id was in it. */
  lemma EntryAfter(m: Table, ip: Ip, id: string, now: int)
    ensures var m' := Checked(m, ip, id, now).0;
            && ip in m' && m' - {ip} == m - {ip}
            && if ip !in m then m'[ip].hits == 0 && m'[ip].ids == {} && m'[ip].hitTime == m'[ip].idTime == now
               else if Busy(m[ip], now) then m' == m
               else
                 var (e, e') := (m[ip], m'[ip]);
                 && e'.hitTime == now && e'.hits == (if e.hitTime + 61_000 <= now then 1 else e.hits + 1)
                 && if Stale(e, now) then e'.idTime == now && e'.ids == (if id in e.ids then {} else {id})
                    else if |e.ids| >= 301 then e'.idTime == e.idTime && e'.ids == e.ids
                    else e'.idTime == now && e'.ids == e.ids + {id}
  {
    var e := if ip in m then m[ip] else Entry(0, now, {}, now);
    assert id in e.ids ==> e.ids + {id} == e.ids;
  }

  /** The `ib` command drops exactly the entries whose minute and day are both over, and the named address. */
  lemma PruneIff(m: Table, ip: Ip, now: int, target: Ip)
    ensures ip in Step(m, Prune(now)).0 <==> ip in m && (now < m[ip].hitTime + 61_000 || now < m[ip].idTime + 86_401_000)
    ensures ip in Step(m, Delete(target, now)).0 <==> ip in Step(m, Prune(now)).0 && ip != target
    ensures ip in Step(m, Prune(now)).0 ==> Step(m, Prune(now)).0[ip] == m[ip]
    ensures ip in Step(m, Delete(target, now)).0 ==> Step(m, Delete(target, now)).0[ip] == m[ip]
  {
  }

  /** So pruning changes no later answer: an entry that is dropped would have let the check pass too. */
  lemma PruningIsUnseen(m: Table, pruned: int, ip: Ip, id: string, now: int)
    requires pruned <= now
    ensures Checked(Pruned(m, pruned), ip, id, now).1 == Checked(m, ip, id, now).1
  {
    VerdictIff(m, ip, id, now);
    VerdictIff(Pruned(m, pruned), ip, id, now);
  }

  // ---------- Runs ----------

  function Run(m: Table, tr: seq<Event>): Table
    decreases |tr|
  {
    if tr == [] then m else Run(Step(m, tr[0]).0, tr[1..])
  }

  /** How many checks of `ip` in the run are answered true. */
  function Accepted(m: Table, tr: seq<Event>, ip: Ip): nat
    decreases |tr|
  {
    if tr == [] then 0
    else (if tr[0].Check? && tr[0].ip == ip && Step(m, tr[0]).1 then 1 else 0) + Accepted(Step(m, tr[0]).0, tr[1..], ip)
  }

  function Granted(m: Table, ev: Event, ip: Ip): set<string> {
    if ev.Check? && ev.ip == ip && Step(m, ev).1 then {ev.id} else {}
  }

  /** The distinct ids for which a check of `ip` in the run is answered true. */
  function AcceptedIds(m: Table, tr: seq<Event>, ip: Ip): set<string>
    decreases |tr|
  {
    if tr == [] then {}
    else Granted(m, tr[0], ip) + AcceptedIds(Step(m, tr[0]).0, tr[1..], ip)
  }

  /** How often the operator forgets `ip` by hand. */
  function Deletes(tr: seq<Event>, ip: Ip): nat {
    if tr == [] then 0 else (if tr[0].Delete? && tr[0].ip == ip then 1 else 0) + Deletes(tr[1..], ip)
  }

  function Clock(ev: Event): int {
    ev.now
  }

  // ---------- At most 32 acceptances in less than 61 seconds ----------

  /** What an address may still be granted in a window that began at `from`. */
  function HitBudget(m: Table, ip: Ip, from: int): nat {
    if ip in m && m[ip].hitTime >= from then (if m[ip].hits <= 31 then 31 - m[ip].hits else 0) else 32
  }

  lemma HitBudgetStep(m: Table, ev: Event, ip: Ip, from: int)
    requires from <= ev.now < from + QUIET_MINUTE
    ensures var (m', ok) := Step(m, ev);
            HitBudget(m', ip, from) + (if ev.Check? && ev.ip == ip && ok then 1 else 0)
            <= HitBudget(m, ip, from) + (if ev.Delete? && ev.ip == ip then 32 else 0)
  {
  }

  /** From any table whatever, a window shorter than 61 s grants an address at most 32 checks,
      plus 32 for every time the operator deletes its entry inside the window. */
  lemma {:induction false} MinuteWindow(m: Table, tr: seq<Event>, ip: Ip, from: int)
    requires Within(tr, Clock, from, QUIET_MINUTE)
    ensures Accepted(m, tr, ip) <= HitBudget(m, ip, from) + 32 * Deletes(tr, ip)
    ensures Accepted(m, tr, ip) <= 32 + 32 * Deletes(tr, ip)
    decreases |tr|
  {
    if tr == [] {
    } else {
      HitBudgetStep(m, tr[0], ip, from);
      MinuteWindow(Step(m, tr[0]).0, tr[1..], ip, from);
    }
  }

  /** `n` checks by one address at one instant for one id. */
  function Burst(ip: Ip, id: string, now: int, n: nat): seq<Event> {
    if n == 0 then [] else [Check(ip, id, now)] + Burst(ip, id, now, n - 1)
  }

  lemma {:induction false} BurstFrom(m: Table, ip: Ip, id: string, now: int, n: nat)
    requires ip in m ==> m[ip].hitTime == now && m[ip].idTime == now && m[ip].ids <= {id} && m[ip].hits <= 31
    ensures Accepted(m, Burst(ip, id, now, n), ip) == if n <= HitBudget(m, ip, now) then n else HitBudget(m, ip, now)
    decreases n
  {
    if n == 0 {
    } else {
      var tr := Burst(ip, id, now, n);
      assert tr[0] == Check(ip, id, now) && tr[1..] == Burst(ip, id, now, n - 1);
      if ip in m {
        assert |m[ip].ids| <= |{id}|  by { SubsetSize(m[ip].ids, {id}); }
      }
      BurstFrom(Step(m, tr[0]).0, ip, id, now, n - 1);
    }
  }

  lemma {:induction false} SubsetSize<T>(a: set<T>, b: set<T>)
    requires a <= b
    ensures |a| <= |b|
    decreases |a|
  {
    if a == {} {
    } else {
      var x :| x in a;
      SubsetSize(a - {x}, b - {x});
    }
  }

  /** The bound is reached: a burst from an unknown address is granted exactly the first 32. */
  lemma BurstIsCutAt32(ip: Ip, id: string, now: int, n: nat)
    ensures Accepted(map[], Burst(ip, id, now, n), ip) == if n <= 32 then n else 32
  {
    BurstFrom(map[], ip, id, now, n);
  }

  // ---------- Reachable tables ----------

  ghost predicate Bounded(m: Table) {
    forall ip :: ip in m ==> m[ip].hits <= 31 && |m[ip].ids| <= 301
  }

  lemma BoundedStep(m: Table, ev: Event)
    requires Bounded(m)
    ensures Bounded(Step(m, ev).0)
  {
  }

  /** In every reachable table no counter passes 31 and no id set passes 301. */
  lemma {:induction false} AlwaysBounded(m: Table, tr: seq<Event>)
    requires Bounded(m)
    ensures Bounded(Run(m, tr))
    decreases |tr|
  {
    if tr == [] {
    } else {
      BoundedStep(m, tr[0]);
      AlwaysBounded(Step(m, tr[0]).0, tr[1..]);
    }
  }

  // ---------- Distinct ids ----------

  /** The event opens a new id set for `ip`: it creates the entry or finds its set stale. */
  predicate Opens(m: Table, ev: Event, ip: Ip) {
    ev.Check? && ev.ip == ip && Step(m, ev).1 && (ip !in m || SecsExceed(m[ip].idTime, ev.now, DAY_SECONDS))
  }

  /** The event throws the entry of `ip` away. */
  predicate Drops(m: Table, ev: Event, ip: Ip) {
    ip in m && ip !in Step(m, ev).0
  }

  /** The id set of `ip` is neither opened afresh nor dropped during the run. */
  predicate SameSet(m: Table, tr: seq<Event>, ip: Ip)
    decreases |tr|
  {
    tr == [] || (!Opens(m, tr[0], ip) && !Drops(m, tr[0], ip) && SameSet(Step(m, tr[0]).0, tr[1..], ip))
  }

  lemma UnionSize<T>(a: set<T>, b: set<T>, c: set<T>)
    requires a <= b + c
    ensures |a| <= |b| + |c|
  {
    SubsetSize(a, b + c);
    assert b + c == b + (c - b);
    SubsetSize(c - b, c);
  }

  /** Sizes when the ids `granted` now and `later` are seen against the set held before and after. */
  lemma HeldSizes(granted: set<string>, later: set<string>, held: set<string>, held': set<string>)
    ensures granted + held <= held' ==> |granted + later + held| <= |later + held'|
    ensures granted == {} ==> |granted + later + held| <= |later + held'| + |held|
    ensures |granted| <= 1 ==> |granted + later + held| <= |later + held'| + |held| + 1
  {
    var all := granted + later + held;
    if granted + held <= held' {
      SubsetSize(all, later + held');
    }
    UnionSize(all, later + held', granted + held);
    UnionSize(granted + held, granted, held);
  }

  lemma {:induction false} SameSetIds(m: Table, tr: seq<Event>, ip: Ip)
    requires Bounded(m) && ip in m && SameSet(m, tr, ip)
    ensures |AcceptedIds(m, tr, ip) + m[ip].ids| <= 301
    decreases |tr|
  {
    if tr == [] {
      assert AcceptedIds(m, tr, ip) + m[ip].ids == m[ip].ids;
    } else {
      var (ev, m') := (tr[0], Step(m, tr[0]).0);
      SameSetStep(m, ev, ip);
      SameSetIds(m', tr[1..], ip);
      HeldSizes(Granted(m, ev, ip), AcceptedIds(m', tr[1..], ip), m[ip].ids, m'[ip].ids);
    }
  }

  lemma HeldGrows(m: Table, ev: Event, ip: Ip)
    requires ip in m && !Opens(m, ev, ip) && !Drops(m, ev, ip)
    ensures ip in Step(m, ev).0 && Step(m, ev).0[ip].ids == m[ip].ids + Granted(m, ev, ip)
  {
    if ev.Check? && ev.ip == ip {
      EntryAfter(m, ip, ev.id, ev.now);
      VerdictIff(m, ip, ev.id, ev.now);
    }
  }

  /** While the set of an address is neither opened afresh nor dropped, it holds exactly what it held and the
      ids accepted since. */
  lemma {:induction false} HeldAreAccepted(m: Table, tr: seq<Event>, ip: Ip)
    requires ip in m && SameSet(m, tr, ip)
    ensures ip in Run(m, tr) && Run(m, tr)[ip].ids == m[ip].ids + AcceptedIds(m, tr, ip)
    decreases |tr|
  {
    if tr == [] {
    } else {
      HeldGrows(m, tr[0], ip);
      HeldAreAccepted(Step(m, tr[0]).0, tr[1..], ip);
    }
  }

  /** Counted hits and the time of the last, read off the checks of an address: after 61 s of quiet counting
      starts anew, and 31 are not exceeded. */
  function Spell(hits: nat, last: int, tr: seq<Event>, ip: Ip): (nat, int)
    decreases |tr|
  {
    if tr == [] then (hits, last)
    else
      var ev := tr[0];
      if !(ev.Check? && ev.ip == ip) then Spell(hits, last, tr[1..], ip)
      else if ev.now - last >= 61_000 then Spell(1, ev.now, tr[1..], ip)
      else if hits >= 31 then Spell(hits, last, tr[1..], ip)
      else Spell(hits + 1, ev.now, tr[1..], ip)
  }

  /** The entry of the address is not dropped during the run. */
  predicate Stays(m: Table, tr: seq<Event>, ip: Ip)
    decreases |tr|
  {
    tr == [] || (!Drops(m, tr[0], ip) && Stays(Step(m, tr[0]).0, tr[1..], ip))
  }

  lemma {:induction false} HitsAreTheSpell(m: Table, tr: seq<Event>, ip: Ip)
    requires ip in m && Stays(m, tr, ip)
    ensures ip in Run(m, tr) && (Run(m, tr)[ip].hits, Run(m, tr)[ip].hitTime) == Spell(m[ip].hits, m[ip].hitTime, tr, ip)
    decreases |tr|
  {
    if tr == [] {
    } else {
      if tr[0].Check? && tr[0].ip == ip {
        EntryAfter(m, ip, tr[0].id, tr[0].now);
      }
      HitsAreTheSpell(Step(m, tr[0]).0, tr[1..], ip);
    }
  }

  lemma {:induction false} SameSetStays(m: Table, tr: seq<Event>, ip: Ip)
    requires SameSet(m, tr, ip)
    ensures Stays(m, tr, ip)
    decreases |tr|
  {
    if tr == [] {
    } else {
      SameSetStays(Step(m, tr[0]).0, tr[1..], ip);
    }
  }

  /** The answer to a check, read off the run before it: refused if 31 hits were counted without 61 s of quiet;
      otherwise an id that was held or accepted is accepted again, and a new one exactly while fewer than 301
      are, or after the set has gone stale. */
  lemma AcceptedIff(m: Table, tr: seq<Event>, ip: Ip, id: string, now: int)
    requires ip in m && SameSet(m, tr, ip)
    ensures var (hits, last) := Spell(m[ip].hits, m[ip].hitTime, tr, ip);
            var held := m[ip].ids + AcceptedIds(m, tr, ip);
            && ip in Run(m, tr)
            && (Step(Run(m, tr), Check(ip, id, now)).1 <==>
                  && (hits < 31 || now - last >= 61_000)
                  && (id in held || |held| < 301 || Stale(Run(m, tr)[ip], now)))
  {
    HeldAreAccepted(m, tr, ip);
    SameSetStays(m, tr, ip);
    HitsAreTheSpell(m, tr, ip);
    VerdictIff(Run(m, tr), ip, id, now);
  }

  lemma SameSetStep(m: Table, ev: Event, ip: Ip)
    requires Bounded(m) && ip in m && !Opens(m, ev, ip) && !Drops(m, ev, ip)
    ensures var m' := Step(m, ev).0; ip in m' && Granted(m, ev, ip) + m[ip].ids <= m'[ip].ids && Bounded(m')
  {
  }

  lemma AddOne<T>(a: set<T>, b: set<T>, x: T)
    requires a <= b + {x}
    ensures |a| <= |b| + 1
  {
    SubsetSize(a, b + {x});
  }

  /** From the check that opens an id set up to the next one that opens or drops it, at most
      302 distinct ids are accepted. */
  lemma OneSetAcceptsAtMost302(m: Table, tr: seq<Event>, ip: Ip)
    requires Bounded(m) && tr != [] && Opens(m, tr[0], ip)
    requires SameSet(Step(m, tr[0]).0, tr[1..], ip)
    ensures |AcceptedIds(m, tr, ip)| <= 302
  {
    var m' := Step(m, tr[0]).0;
    SameSetIds(m', tr[1..], ip);
    AddOne(AcceptedIds(m, tr, ip), AcceptedIds(m', tr[1..], ip) + m'[ip].ids, tr[0].id);
  }

  /** Distinct ids an address may still be granted in a window that began at `from`. */
  function IdBudget(m: Table, ip: Ip, from: int): nat {
    if ip !in m then 302 else if m[ip].idTime >= from then 301 else 603
  }

  function Known(m: Table, ip: Ip): set<string> {
    if ip in m then m[ip].ids else {}
  }

  predicate DayCase(spare: int, granted: set<string>, held: set<string>, held': set<string>) {
    || (granted + held <= held' && spare >= 0)
    || (granted == {} && spare >= |held|)
    || (|granted| <= 1 && spare >= |held| + 1)
  }

  lemma DayCasePays(spare: int, granted: set<string>, later: set<string>, held: set<string>, held': set<string>)
    requires DayCase(spare, granted, held, held')
    ensures |granted + later + held| <= |later + held'| + spare
  {
    HeldSizes(granted, later, held, held');
  }

  /** An accepted id joins the set, unless the set is replaced; that needs a stamp from before the window. */
  lemma DayCheck(m: Table, ip: Ip, id: string, now: int, from: int)
    requires Bounded(m) && from <= now < from + QUIET_DAY
    ensures var ev := Check(ip, id, now);
            var m' := Step(m, ev).0;
            DayCase(IdBudget(m, ip, from) - IdBudget(m', ip, from), Granted(m, ev, ip), Known(m, ip), Known(m', ip))
  {
  }

  /** A set is dropped or replaced inside the window only if it was stamped before it. */
  lemma DayStep(m: Table, ev: Event, ip: Ip, from: int)
    requires Bounded(m) && from <= ev.now < from + QUIET_DAY
    ensures var m' := Step(m, ev).0;
            var spare := IdBudget(m, ip, from) + (if ev.Delete? && ev.ip == ip then 302 else 0) - IdBudget(m', ip, from);
            DayCase(spare, Granted(m, ev, ip), Known(m, ip), Known(m', ip))
  {
    if ev.Check? && ev.ip == ip {
      DayCheck(m, ip, ev.id, ev.now, from);
    }
  }

  /** What one event grants is paid for by the budget it uses up. */
  lemma DayPays(m: Table, ev: Event, ip: Ip, from: int, later: set<string>)
    requires Bounded(m) && from <= ev.now < from + QUIET_DAY
    ensures |Granted(m, ev, ip) + later + Known(m, ip)| + IdBudget(Step(m, ev).0, ip, from)
            <= |later + Known(Step(m, ev).0, ip)| + IdBudget(m, ip, from) + (if ev.Delete? && ev.ip == ip then 302 else 0)
  {
    DayStep(m, ev, ip, from);
    var m' := Step(m, ev).0;
    DayCasePays(IdBudget(m, ip, from) + (if ev.Delete? && ev.ip == ip then 302 else 0) - IdBudget(m', ip, from),
                Granted(m, ev, ip), later, Known(m, ip), Known(m', ip));
  }

  lemma {:induction false} DayWindowFrom(m: Table, tr: seq<Event>, ip: Ip, from: int)
    requires Bounded(m) && Within(tr, Clock, from, QUIET_DAY)
    ensures |AcceptedIds(m, tr, ip) + Known(m, ip)| <= IdBudget(m, ip, from) + 302 * Deletes(tr, ip)
    decreases |tr|
  {
    if tr == [] {
      assert AcceptedIds(m, tr, ip) + Known(m, ip) == Known(m, ip);
    } else {
      BoundedStep(m, tr[0]);
      DayPays(m, tr[0], ip, from, AcceptedIds(Step(m, tr[0]).0, tr[1..], ip));
      DayWindowFrom(Step(m, tr[0]).0, tr[1..], ip, from);
    }
  }

  /** In a window shorter than 86401 s an address is granted at most 603 distinct ids, plus 302
      for every hand deletion of its entry: the tail of one id set and the whole of the next. */
  lemma DayWindow(m: Table, tr: seq<Event>, ip: Ip, from: int)
    requires Bounded(m) && Within(tr, Clock, from, QUIET_DAY)
    ensures |AcceptedIds(m, tr, ip)| <= 603 + 302 * Deletes(tr, ip)
  {
    DayWindowFrom(m, tr, ip, from);
    SubsetSize(AcceptedIds(m, tr, ip), AcceptedIds(m, tr, ip) + Known(m, ip));
  }
}
