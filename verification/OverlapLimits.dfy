/** How far overlapping calls get past the limit of three per id. */
module OverlapLimits {
  import opened Net
  import opened Database
  import Registry
  import RegisterLimits
  import opened Overlap

  // ---------- The bound ----------

  /** This event charges the counter of record `h`. */
  predicate Charges(s: State, ev: Event, h: Handle) {
    ev.Go? && ev.c in s.tasks && s.tasks[ev.c].phase.Charging? && s.tasks[ev.c].phase.h == h
  }

  /** It writes a count that is out of date: since the call read the counter, and since `from`, another call
      has brought it to as much or more. */
  predicate Overtaken(s: State, ev: Event, h: Handle, from: int) {
    && Charges(s, ev, h) && h < |s.recs|
    && s.recs[h].peer.regTime >= from && s.tasks[ev.c].phase.count <= s.recs[h].peer.regCount
  }

  /** Charges of record `h` between two points of a run, */
  function ChargesOf(states: seq<State>, tr: seq<Event>, k: nat, h: Handle): nat
    requires |states| == |tr| + 1 && k <= |tr|
  {
    if k == 0 then 0 else ChargesOf(states, tr, k - 1, h) + (if Charges(states[k - 1], tr[k - 1], h) then 1 else 0)
  }

  /** and those of them that were overtaken. */
  function OvertakenOf(states: seq<State>, tr: seq<Event>, k: nat, h: Handle, from: int): nat
    requires |states| == |tr| + 1 && k <= |tr|
  {
    if k == 0 then 0
    else OvertakenOf(states, tr, k - 1, h, from) + (if Overtaken(states[k - 1], tr[k - 1], h, from) then 1 else 0)
  }

  function Budget(s: State, h: Handle, from: int): nat {
    if h < |s.recs| && s.recs[h].peer.regTime >= from then
      (if s.recs[h].peer.regCount <= 3 then 3 - s.recs[h].peer.regCount else 0)
    else 3
  }

  /** A count on its way is at most three: the limit was checked where it was read. */
  predicate CountsOk(s: State) {
    forall c :: c in s.tasks && s.tasks[c].phase.Charging? ==> 1 <= s.tasks[c].phase.count <= 3
  }

  lemma StepCountsOk(s: State, ev: Event)
    requires CountsOk(s) && Enabled(s, ev)
    ensures CountsOk(Step(s, ev))
  {
    var s' := Step(s, ev);
    if ev.Beat? {
      BeatKeeps(s, ev.h, ev.addr, ev.now);
    }
  }

  lemma ChargePays(s: State, c: Call, now: int, env: Registry.Env, h: Handle, from: int)
    requires CountsOk(s) && Enabled(s, Go(c, now, env)) && Charges(s, Go(c, now, env), h) && from <= now
    ensures Budget(Step(s, Go(c, now, env)), h, from) + 1
         <= Budget(s, h, from) + (if Overtaken(s, Go(c, now, env), h, from) then 3 else 0)
  {
  }

  /** Everything but a charge leaves the counter alone; a new record is as if last charged an hour ago. */
  lemma OthersDoNotCharge(s: State, c: Call, now: int, env: Registry.Env, h: Handle, from: int)
    requires Enabled(s, Go(c, now, env)) && !Charges(s, Go(c, now, env), h)
    requires from <= now < from + RegisterLimits.QUIET_REG
    ensures Budget(Effect(s, c, now, env), h, from) == Budget(s, h, from)
  {
    var phase := s.tasks[c].phase;
    if h < |s.recs| && Hand(phase) != Some(h) {
      OtherRecords(s, c, now, env, h);
    } else if !Searching(phase) && !phase.Charging? && !phase.Recording? && !phase.Stamping? {
      RecordsStay(s, c, now, env);
    }
  }

  /** All pieces of the run lie in this window. */
  predicate InWindow(tr: seq<Event>, from: int, length: int) {
    forall i :: 0 <= i < |tr| && !tr[i].Arrive? ==> from <= tr[i].now < from + length
  }

  /** However calls overlap: in any window shorter than 7 s a record is charged at most three times, plus three
      times for every charge that was overtaken. */
  lemma {:induction false} SevenSecondWindow(states: seq<State>, tr: seq<Event>, k: nat, h: Handle, from: int)
    requires Path(states, tr) && CountsOk(states[0]) && InWindow(tr, from, RegisterLimits.QUIET_REG) && k <= |tr|
    ensures CountsOk(states[k])
    ensures ChargesOf(states, tr, k, h) + Budget(states[k], h, from) <= 3 + 3 * OvertakenOf(states, tr, k, h, from)
  {
    if k == 0 {
    } else {
      SevenSecondWindow(states, tr, k - 1, h, from);
      var (s, ev) := (states[k - 1], tr[k - 1]);
      StepCountsOk(s, ev);
      match ev
      case Arrive(_, _) =>
      case Go(c, now, env) =>
        if Charges(s, ev, h) {
          ChargePays(s, c, now, env, h, from);
        } else {
          OthersDoNotCharge(s, c, now, env, h, from);
        }
      case Beat(h0, addr, now) => BeatKeeps(s, h0, addr, now);
    }
  }

  /** A call past its charge. */
  predicate Granted(phase: Phase) {
    phase.Recording? || phase.Writing? || phase.Stamping? || phase == Done(Some(Registry.OK))
  }

  /** No call is answered OK without having charged a record, and a call that has is answered nothing else. */
  lemma GrantedByCharge(s: State, ev: Event, c: Call)
    requires Enabled(s, ev) && c in s.tasks
    ensures c in Step(s, ev).tasks
    ensures Granted(Step(s, ev).tasks[c].phase) <==>
              Granted(s.tasks[c].phase) || (ev.Go? && ev.c == c && s.tasks[c].phase.Charging?)
  {
    if ev.Beat? {
      BeatKeeps(s, ev.h, ev.addr, ev.now);
    }
  }

  // ---------- Calls that pass the limit together ----------

  /** This call is about to read the counter of record `h`. */
  predicate AtLimit(s: State, c: Call, h: Handle) {
    c in s.tasks && TaskOk(s, s.tasks[c]) && s.tasks[c].phase.Limiting? && s.tasks[c].phase.h == h
  }

  predicate PastLimit(s: State, c: Call, h: Handle, now: int) {
    && h < |s.recs| && c in s.tasks && s.tasks[c].phase.Charging? && s.tasks[c].phase.h == h
    && s.tasks[c].phase.count == Registry.RegCounted(s.recs[h].peer, now).regCount
  }

  /** Any number of calls that read the counter before one of them charges it pass the per-id limit together,
      and all are about to write the same count. */
  lemma {:induction false} AllPassTogether(s: State, calls: seq<Call>, h: Handle, now: int, env: Registry.Env)
    returns (states: seq<State>, tr: seq<Event>)
    requires h < |s.recs| && !Registry.RegLimited(s.recs[h].peer, now) && env.newGuid != []
    requires forall i :: 0 <= i < |calls| ==> AtLimit(s, calls[i], h)
    requires forall i, j :: 0 <= i < j < |calls| ==> calls[i] != calls[j]
    ensures Path(states, tr) && states[0] == s && |tr| == |calls|
    ensures states[|tr|].recs == s.recs
    ensures forall i :: 0 <= i < |calls| ==> PastLimit(states[|tr|], calls[i], h, now)
    ensures forall c :: c in s.tasks && c !in calls ==> c in states[|tr|].tasks && states[|tr|].tasks[c] == s.tasks[c]
    decreases |calls|
  {
    if calls == [] {
      return [s], [];
    } else {
      var (c, rest) := (calls[0], calls[1..]);
      assert AtLimit(s, c, h);
      var s1 := Step(s, Go(c, now, env));
      assert s1 == s.(tasks := s.tasks[c := Task(s.tasks[c].job, s1.tasks[c].phase)]) && PastLimit(s1, c, h, now);
      forall i | 0 <= i < |rest| ensures AtLimit(s1, rest[i], h) {
        assert AtLimit(s, calls[i + 1], h) && rest[i] == calls[i + 1];
      }
      states, tr := AllPassTogether(s1, rest, h, now, env);
      assert c !in rest;
      PathBegins(s, Go(c, now, env), states, tr);
      states, tr := [s] + states, [Go(c, now, env)] + tr;
    }
  }

  // ---------- Any number of OK answers at one instant ----------

  ghost predicate AtOnce(s: State, s': State, now: int) {
    exists states: seq<State>, tr: seq<Event> ::
      && Path(states, tr) && states[0] == s && states[|tr|] == s'
      && forall i :: 0 <= i < |tr| ==> tr[i].Arrive? || (tr[i].Go? && tr[i].now == now && tr[i].env.readOk)
  }

  lemma Then(s: State, s1: State, ev: Event, now: int)
    requires AtOnce(s, s1, now) && Enabled(s1, ev) && (ev.Arrive? || (ev.Go? && ev.now == now && ev.env.readOk))
    ensures AtOnce(s, Step(s1, ev), now)
  {
    var states: seq<State>, tr: seq<Event> :|
      && Path(states, tr) && states[0] == s && states[|tr|] == s1
      && forall i :: 0 <= i < |tr| ==> tr[i].Arrive? || (tr[i].Go? && tr[i].now == now && tr[i].env.readOk);
    var (states', tr') := (states + [Step(s1, ev)], tr + [ev]);
    PathGoesOn(states, tr, ev, Step(s1, ev));
    assert states'[|tr'|] == Step(s1, ev);
    assert forall i :: 0 <= i < |tr'| ==> tr'[i].Arrive? || (tr'[i].Go? && tr'[i].now == now && tr'[i].env.readOk);
  }

  /** A registration that says what the row says. */
  predicate SaysSame(job: Job, row: Row) {
    && job.Register? && job.rk.id == row.id && job.rk.uuid == row.uuid && job.rk.pk == row.pk && Some(job.addr.ip) == row.infoIp
    && !job.ws && row.uuid != [] && row.pk != []
  }

  /** `n` equal calls, the first `k` in phase `x`, the others in phase `y`. */
  ghost predicate Crowd(tasks: map<Call, Task>, job: Job, n: nat, k: nat, x: Phase, y: Phase) {
    && (forall c: Call :: c in tasks <==> c < n)
    && (forall c: Call :: c in tasks ==> tasks[c] == Task(job, if c < k then x else y))
  }

  function OnLoaded(rows: Rows, id: string, p: Registry.Peer, tasks: map<Call, Task>): State {
    State.State(map[id := 0], [Record(id, p)], rows, tasks, History(map[], map[], map[]))
  }

  lemma FirstLoads(rows: Rows, g: Bytes, job: Job, now: int, env: Registry.Env)
    requires UniqueIds(rows) && g in rows && SaysSame(job, rows[g]) && env.readOk && env.newGuid != []
    ensures AtOnce(Start(rows), Start(rows).(tasks := map[0 := Task(job, Loading(Registry.Load(g, rows[g])))]), now)
  {
    var s0 := Start(rows);
    assert Path([s0], []);
    assert AtOnce(s0, s0, now);
    Then(s0, s0, Arrive(0, job), now);
    var s1 := s0.(tasks := map[0 := Task(job, Looking)]);
    assert Step(s0, Arrive(0, job)) == s1;
    Then(s0, s1, Go(0, now, env), now);
    var s2 := s0.(tasks := map[0 := Task(job, Querying)]);
    assert Step(s1, Go(0, now, env)) == s2;
    Then(s0, s2, Go(0, now, env), now);
    assert HasId(rows, job.Id());
    assert Step(s2, Go(0, now, env)) == s0.(tasks := map[0 := Task(job, Loading(Registry.Load(g, rows[g])))]);
  }

  lemma FirstAtLimit(rows: Rows, g: Bytes, job: Job, now: int, env: Registry.Env)
    requires UniqueIds(rows) && g in rows && SaysSame(job, rows[g]) && env.readOk && env.newGuid != []
    ensures AtOnce(Start(rows), OnLoaded(rows, rows[g].id, Registry.LoadedPeer(g, rows[g], now),
                                         map[0 := Task(job, Limiting(0, false))]), now)
  {
    var (s0, id, p) := (Start(rows), rows[g].id, Registry.LoadedPeer(g, rows[g], now));
    FirstLoads(rows, g, job, now, env);
    var s1 := s0.(tasks := map[0 := Task(job, Loading(Registry.Load(g, rows[g])))]);
    Then(s0, s1, Go(0, now, env), now);
    var s2 := OnLoaded(rows, id, p, map[0 := Task(job, Checking(0))]);
    assert Step(s1, Go(0, now, env)) == s2;
    Then(s0, s2, Go(0, now, env), now);
    assert Step(s2, Go(0, now, env)) == OnLoaded(rows, id, p, map[0 := Task(job, Limiting(0, false))]);
  }

  /** One more call arrives, finds the record, and passes the identity check. */
  lemma OneMore(rows: Rows, g: Bytes, job: Job, n: nat, now: int, env: Registry.Env, tasks: map<Call, Task>)
    requires UniqueIds(rows) && g in rows && SaysSame(job, rows[g]) && env.readOk && env.newGuid != [] && n !in tasks
    requires AtOnce(Start(rows), OnLoaded(rows, rows[g].id, Registry.LoadedPeer(g, rows[g], now), tasks), now)
    ensures AtOnce(Start(rows), OnLoaded(rows, rows[g].id, Registry.LoadedPeer(g, rows[g], now),
                                         tasks[n := Task(job, Limiting(0, false))]), now)
  {
    var (s0, id, p) := (Start(rows), rows[g].id, Registry.LoadedPeer(g, rows[g], now));
    var s1 := OnLoaded(rows, id, p, tasks);
    Then(s0, s1, Arrive(n, job), now);
    var s2 := OnLoaded(rows, id, p, tasks[n := Task(job, Looking)]);
    assert Step(s1, Arrive(n, job)) == s2;
    Then(s0, s2, Go(n, now, env), now);
    var s3 := OnLoaded(rows, id, p, tasks[n := Task(job, Checking(0))]);
    assert Step(s2, Go(n, now, env)) == s3;
    Then(s0, s3, Go(n, now, env), now);
    assert Step(s3, Go(n, now, env)) == OnLoaded(rows, id, p, tasks[n := Task(job, Limiting(0, false))]);
  }

  lemma {:induction false} AllAtLimit(rows: Rows, g: Bytes, job: Job, n: nat, now: int, env: Registry.Env)
    returns (tasks: map<Call, Task>)
    requires UniqueIds(rows) && g in rows && SaysSame(job, rows[g]) && env.readOk && env.newGuid != [] && n > 0
    ensures Crowd(tasks, job, n, 0, Looking, Limiting(0, false))
    ensures AtOnce(Start(rows), OnLoaded(rows, rows[g].id, Registry.LoadedPeer(g, rows[g], now), tasks), now)
  {
    if n == 1 {
      FirstAtLimit(rows, g, job, now, env);
      tasks := map[0 := Task(job, Limiting(0, false))];
    } else {
      tasks := AllAtLimit(rows, g, job, n - 1, now, env);
      OneMore(rows, g, job, n - 1, now, env, tasks);
      tasks := tasks[n - 1 := Task(job, Limiting(0, false))];
    }
  }

  /** One more of the crowd reads the counter, */
  lemma OneReads(s0: State, rows: Rows, id: string, p: Registry.Peer, tasks: map<Call, Task>,
                 job: Job, n: nat, k: nat, now: int, env: Registry.Env) returns (tasks': map<Call, Task>)
    requires AtOnce(s0, OnLoaded(rows, id, p, tasks), now) && env.readOk && env.newGuid != []
    requires job.Register? && job.rk.uuid != [] && job.rk.id == id && SecsExceed(p.regTime, now, 6)
    requires k < n && Crowd(tasks, job, n, k, Charging(0, false, 1), Limiting(0, false))
    ensures AtOnce(s0, OnLoaded(rows, id, p, tasks'), now) && Crowd(tasks', job, n, k + 1, Charging(0, false, 1), Limiting(0, false))
  {
    var s := OnLoaded(rows, id, p, tasks);
    tasks' := tasks[k := Task(job, Charging(0, false, 1))];
    Then(s0, s, Go(k, now, env), now);
    assert Step(s, Go(k, now, env)) == OnLoaded(rows, id, p, tasks');
  }

  lemma {:induction false} AllRead(s0: State, rows: Rows, id: string, p: Registry.Peer, start: map<Call, Task>,
                                   job: Job, n: nat, k: nat, now: int, env: Registry.Env) returns (tasks: map<Call, Task>)
    requires AtOnce(s0, OnLoaded(rows, id, p, start), now) && env.readOk && env.newGuid != []
    requires job.Register? && job.rk.uuid != [] && job.rk.id == id && SecsExceed(p.regTime, now, 6)
    requires k <= n && Crowd(start, job, n, 0, Charging(0, false, 1), Limiting(0, false))
    ensures AtOnce(s0, OnLoaded(rows, id, p, tasks), now) && Crowd(tasks, job, n, k, Charging(0, false, 1), Limiting(0, false))
  {
    if k == 0 {
      tasks := start;
    } else {
      tasks := AllRead(s0, rows, id, p, start, job, n, k - 1, now, env);
      tasks := OneReads(s0, rows, id, p, tasks, job, n, k - 1, now, env);
    }
  }

  /** and charges it. */
  lemma OneCharges(s0: State, rows: Rows, id: string, p: Registry.Peer, tasks: map<Call, Task>,
                   job: Job, n: nat, k: nat, now: int, env: Registry.Env) returns (tasks': map<Call, Task>, p': Registry.Peer)
    requires AtOnce(s0, OnLoaded(rows, id, p, tasks), now) && env.readOk && env.newGuid != []
    requires job.Register? && job.rk.uuid != [] && job.rk.id == id && !job.ws
    requires k < n && Crowd(tasks, job, n, k, Done(Some(Registry.OK)), Charging(0, false, 1))
    ensures AtOnce(s0, OnLoaded(rows, id, p', tasks'), now) && Crowd(tasks', job, n, k + 1, Done(Some(Registry.OK)), Charging(0, false, 1))
    ensures p'.regCount == 1 && p'.regTime == now
  {
    var s := OnLoaded(rows, id, p, tasks);
    tasks', p' := tasks[k := Task(job, Done(Some(Registry.OK)))], p.(regCount := 1, regTime := now);
    Then(s0, s, Go(k, now, env), now);
    assert Step(s, Go(k, now, env)) == OnLoaded(rows, id, p', tasks');
  }

  lemma {:induction false} AllCharge(s0: State, rows: Rows, id: string, p0: Registry.Peer, start: map<Call, Task>,
                                     job: Job, n: nat, k: nat, now: int, env: Registry.Env)
    returns (tasks: map<Call, Task>, p: Registry.Peer)
    requires AtOnce(s0, OnLoaded(rows, id, p0, start), now) && env.readOk && env.newGuid != []
    requires job.Register? && job.rk.uuid != [] && job.rk.id == id && !job.ws
    requires k <= n && Crowd(start, job, n, 0, Done(Some(Registry.OK)), Charging(0, false, 1))
    ensures AtOnce(s0, OnLoaded(rows, id, p, tasks), now) && Crowd(tasks, job, n, k, Done(Some(Registry.OK)), Charging(0, false, 1))
    ensures k > 0 ==> p.regCount == 1 && p.regTime == now
  {
    if k == 0 {
      tasks, p := start, p0;
    } else {
      tasks, p := AllCharge(s0, rows, id, p0, start, job, n, k - 1, now, env);
      tasks, p := OneCharges(s0, rows, id, p, tasks, job, n, k - 1, now, env);
    }
  }

  /** From the start, with no failing read or write: any number of equal registrations of a known id are all
      answered OK at one and the same instant, and the counter then stands at one. */
  lemma AnyNumberOk(rows: Rows, g: Bytes, job: Job, n: nat, now: int, env: Registry.Env)
    requires UniqueIds(rows) && g in rows && SaysSame(job, rows[g]) && env.readOk && env.newGuid != [] && 0 < n
    ensures exists s :: AtOnce(Start(rows), s, now) && |s.recs| == 1 && s.recs[0].peer.regCount == 1
                        && forall c: Call :: c < n ==> c in s.tasks && s.tasks[c] == Task(job, Done(Some(Registry.OK)))
  {
    var id := rows[g].id;
    var tasks := AllAtLimit(rows, g, job, n, now, env);
    tasks := AllRead(Start(rows), rows, id, Registry.LoadedPeer(g, rows[g], now), tasks, job, n, n, now, env);
    var p;
    tasks, p := AllCharge(Start(rows), rows, id, Registry.LoadedPeer(g, rows[g], now), tasks, job, n, n, now, env);
    var s := OnLoaded(rows, rows[g].id, p, tasks);
    assert AtOnce(Start(rows), s, now);
  }
}
