/** Which servers can be in the lists: of the main loop, and of the tasks it spawned. */
module RelayLists {
  import opened Net
  import opened Rotation
  import opened RelayPool

  /** `list` is a non-empty part of one of the lists in `past`. */
  ghost predicate PartOf(list: Servers, past: set<Servers>) {
    list != [] && exists l :: l in past && multiset(list) <= multiset(l)
  }

  ghost predicate KnownOrEmpty(list: Servers, past: set<Servers>) {
    if list == [] then [] in past else PartOf(list, past)
  }

  ghost predicate KnownMessage(msg: Message, past: set<Servers>) {
    if msg.Reconfigured? then msg.servers in past else PartOf(msg.servers, past)
  }

  /** `past` holds every list that is, was or is about to become the configuration. */
  ghost predicate Inv(s: State, past: set<Servers>) {
    && s.configured in past
    && KnownOrEmpty(s.active, past)
    && (s.active == [] ==> s.configured == [])
    && (forall l :: l in s.checks ==> l in past)
    && (forall i :: 0 <= i < |s.queue| ==> KnownMessage(s.queue[i], past))
    && (forall t :: t in s.held ==> KnownOrEmpty(s.held[t], past))
  }

  lemma PastIsKnown(l: Servers, past: set<Servers>)
    requires l in past
    ensures KnownOrEmpty(l, past)
  {
    assert multiset(l) <= multiset(l);
  }

  lemma CheckDoneInv(s: State, servers: Servers, order: seq<nat>, past: set<Servers>)
    requires Inv(s, past) && Enabled(s, CheckDone(servers, order))
    ensures Inv(Step(s, CheckDone(servers, order)), past)
  {
    var s' := Step(s, CheckDone(servers, order));
    PickedIsSubBag(servers, order);
    assert forall l :: l in s'.checks ==> l in s.checks;
    assert forall i :: 0 <= i < |s'.queue| ==> KnownMessage(s'.queue[i], past);
  }

  lemma DeliverInv(s: State, past: set<Servers>)
    requires Inv(s, past) && s.queue != []
    ensures Inv(Step(s, Deliver), past)
  {
    assert KnownMessage(s.queue[0], past);
    if s.queue[0].Reconfigured? {
      PastIsKnown(s.queue[0].servers, past);
    }
  }

  lemma StepInv(s: State, ev: Event, past: set<Servers>)
    requires Inv(s, past) && Enabled(s, ev) && (ev.Operator? ==> ev.servers in past)
    ensures Inv(Step(s, ev), past)
  {
    match ev
    case CheckDone(servers, order) => CheckDoneInv(s, servers, order, past);
    case Deliver => DeliverInv(s, past);
    case Tick => assert forall l :: l in Step(s, ev).checks ==> l in s.checks || l == s.configured;
    case _ =>
  }

  ghost predicate Quiet(tr: seq<Event>) {
    forall i :: 0 <= i < |tr| ==> !tr[i].Operator?
  }

  lemma {:induction false} PathInv(states: seq<State>, tr: seq<Event>, past: set<Servers>, k: nat)
    requires Path(states, tr) && Inv(states[0], past) && k <= |tr|
    requires forall i :: 0 <= i < |tr| && tr[i].Operator? ==> tr[i].servers in past
    ensures Inv(states[k], past)
  {
    if k == 0 {
    } else {
      PathInv(states, tr, past, k - 1);
      StepInv(states[k - 1], tr[k - 1], past);
    }
  }

  /** The queue never carries a reconfiguration the operator did not ask for. */
  lemma {:induction false} QuietKeepsConfiguration(servers: Servers, states: seq<State>, tr: seq<Event>, k: nat)
    requires Path(states, tr) && states[0] == Start(servers) && Quiet(tr) && k <= |tr|
    ensures states[k].configured == servers
    ensures forall i :: 0 <= i < |states[k].queue| ==> states[k].queue[i].Alive?
  {
    if k == 0 {
    } else {
      QuietKeepsConfiguration(servers, states, tr, k - 1);
      assert !tr[k - 1].Operator?;
    }
  }

  /** Without operator commands every list in use, the main loop's and every task's, is at all times a
      non-empty part of the non-empty configured list, however the health checks overlap. */
  lemma HealthChecksOnlyPrune(servers: Servers, states: seq<State>, tr: seq<Event>, k: nat, caller: Caller)
    requires servers != [] && Path(states, tr) && states[0] == Start(servers) && Quiet(tr) && k <= |tr|
    requires Holds(states[k], caller)
    ensures states[k].configured == servers
    ensures Used(states[k], caller) != [] && multiset(Used(states[k], caller)) <= multiset(servers)
  {
    PastIsKnown(servers, {servers});
    PathInv(states, tr, {servers}, k);
    QuietKeepsConfiguration(servers, states, tr, k);
  }

  /** With operator commands every list in use is a part of some list the operator gave, and empty only
      if one of those is; the main loop's own only while the configured list is. */
  lemma ActiveWasOnceConfigured(servers: Servers, states: seq<State>, tr: seq<Event>, k: nat, caller: Caller)
    requires servers != [] && Path(states, tr) && states[0] == Start(servers) && k <= |tr|
    requires Holds(states[k], caller)
    ensures states[k].active == [] ==> states[k].configured == []
    ensures var past := {servers} + set i | 0 <= i < |tr| && tr[i].Operator? :: tr[i].servers;
            if Used(states[k], caller) == [] then [] in past else PartOf(Used(states[k], caller), past)
  {
    var past := {servers} + set i | 0 <= i < |tr| && tr[i].Operator? :: tr[i].servers;
    PastIsKnown(servers, past);
    PathInv(states, tr, past, k);
  }

  /** What each event changes, and that it changes nothing else: only the main loop's messages reach its lists,
      and nothing reaches a task's. */
  lemma EventChanges(s: State, ev: Event)
    requires Enabled(s, ev)
    ensures var s' := Step(s, ev);
            && s'.configured == (if ev.Deliver? && s.queue[0].Reconfigured? then s.queue[0].servers else s.configured)
            && s'.active == (if ev.Deliver? then s.queue[0].servers else s.active)
            && s'.checks == (if ev.Tick? && |s.configured| >= 2 then s.checks + multiset{s.configured}
                             else if ev.CheckDone? then s.checks - multiset{ev.servers} else s.checks)
            && s'.queue == (if ev.Deliver? then s.queue[1..]
                            else if ev.Operator? then s.queue + [Reconfigured(ev.servers)]
                            else if ev.CheckDone? && ev.order != [] then s.queue + [Alive(Picked(ev.servers, ev.order))]
                            else s.queue)
            && s'.held == (if ev.Spawn? then s.held[ev.t := s.active] else if ev.End? then s.held - {ev.t} else s.held)
            && (s'.counter != s.counter ==> ev.GetRelay? && |Used(s, ev.caller)| >= 2)
  {
  }

  /** A task keeps the list that was active when it was spawned exactly until it ends. */
  lemma {:induction false} TaskKeepsItsList(states: seq<State>, tr: seq<Event>, j: nat, k: nat, t: Task)
    requires Path(states, tr) && j < k <= |tr| && tr[j] == Spawn(t)
    requires forall i :: j < i < k ==> tr[i] != Spawn(t)
    ensures t in states[k].held <==> forall i :: j < i < k ==> tr[i] != End(t)
    ensures t in states[k].held ==> states[k].held[t] == states[j].active
  {
    if k == j + 1 {
    } else {
      TaskKeepsItsList(states, tr, j, k - 1, t);
      assert Enabled(states[k - 1], tr[k - 1]);
      EventChanges(states[k - 1], tr[k - 1]);
    }
  }

  lemma {:induction false} HeldOnce(states: seq<State>, tr: seq<Event>, j: nat, k: nat, t: Task)
    requires Path(states, tr) && j < k <= |tr| && tr[j] == Spawn(t)
    requires forall i :: j < i < k ==> tr[i] != End(t)
    ensures t in states[k].held && forall i :: j < i < k ==> tr[i] != Spawn(t)
  {
    if k == j + 1 {
    } else {
      HeldOnce(states, tr, j, k - 1, t);
      assert Enabled(states[k - 1], tr[k - 1]);
    }
  }

  /** So what a task hands out comes from that list, whatever has become of it since. */
  lemma TaskHandsOutItsSnapshot(states: seq<State>, tr: seq<Event>, j: nat, k: nat, t: Task)
    requires Path(states, tr) && j < k < |tr| && tr[j] == Spawn(t) && tr[k] == GetRelay(Some(t))
    requires forall i :: j < i < k ==> tr[i] != End(t)
    ensures var server := Handed(Used(states[k], Some(t)), states[k].counter).0;
            if states[j].active == [] then server == "" else server in states[j].active
  {
    HeldOnce(states, tr, j, k, t);
    TaskKeepsItsList(states, tr, j, k, t);
  }

  /** A check begun before a reconfiguration can bring servers of the old list back. */
  lemma StaleCheckRevivesOldList(old': Servers, new': Servers)
    requires |old'| > 1
    ensures Distinct([0], |old'|) && Picked(old', [0]) == [old'[0]]
    ensures var s2 := Step(Step(Start(old'), Tick), Operator(new'));
            var s3 := Step(s2, Deliver);
            && Enabled(s3, CheckDone(old', [0]))
            && var s5 := Step(Step(s3, CheckDone(old', [0])), Deliver);
               s5.configured == new' && s5.active == [old'[0]]
  {
  }

  // ---------- Exactly when lists stay inside the configured one ----------

  ghost predicate Inside(list: Servers, configured: Servers) {
    multiset(list) <= multiset(configured)
  }

  /** No reconfiguration is on its way. */
  predicate NonePending(s: State) {
    forall i :: 0 <= i < |s.queue| ==> s.queue[i].Alive?
  }

  /** A list that is the main loop's or can become it. */
  ghost predicate Coming(s: State, l: Servers) {
    || l == s.active || (l == s.configured && |l| > 1) || l in s.checks
    || exists i :: 0 <= i < |s.queue| && s.queue[i].servers == l
  }

  /** A list in use, or that can come into use. */
  ghost predicate Outstanding(s: State, l: Servers) {
    Coming(s, l) || exists t :: t in s.held && s.held[t] == l
  }

  /** A running check can report servers outside the configured list exactly if its own list is not inside. */
  lemma CheckCanLeaveIff(l: Servers, configured: Servers)
    ensures (exists order :: Distinct(order, |l|) && !Inside(Picked(l, order), configured)) <==> !Inside(l, configured)
  {
    if order :| Distinct(order, |l|) && !Inside(Picked(l, order), configured) {
      PickedIsSubBag(l, order);
    }
    if !Inside(l, configured) {
      EveryoneAnswers(l);
      assert Distinct(Everyone(l), |l|) && !Inside(Picked(l, Everyone(l)), configured);
    }
  }

  function Everyone(l: Servers): seq<nat> {
    seq(|l|, i requires 0 <= i < |l| => i)
  }

  lemma EveryoneAnswers(l: Servers)
    ensures Distinct(Everyone(l), |l|) && Picked(l, Everyone(l)) == l
  {
  }

  /** What holds of a list holds of any answer to a check of it. */
  ghost predicate Closed(P: Servers -> bool) {
    forall l: Servers, order: seq<nat> :: Distinct(order, |l|) && P(l) ==> P(Picked(l, order))
  }

  ghost predicate AllComing(s: State, P: Servers -> bool) {
    && P(s.active) && (|s.configured| > 1 ==> P(s.configured))
    && (forall l :: l in s.checks ==> P(l))
    && (forall i :: 0 <= i < |s.queue| ==> s.queue[i].Alive? && P(s.queue[i].servers))
  }

  ghost predicate AllHeld(s: State, P: Servers -> bool) {
    forall t :: t in s.held ==> P(s.held[t])
  }

  lemma StepKeepsAll(s: State, ev: Event, P: Servers -> bool)
    requires Closed(P) && AllComing(s, P) && Enabled(s, ev) && !ev.Operator?
    ensures AllComing(Step(s, ev), P) && Step(s, ev).configured == s.configured
    ensures AllHeld(s, P) ==> AllHeld(Step(s, ev), P)
  {
    match ev
    case CheckDone(servers, order) =>
      assert P(Picked(servers, order));
      assert forall l :: l in Step(s, ev).checks ==> l in s.checks;
    case Deliver => assert s.queue[0].Alive? && P(s.queue[0].servers);
    case _ =>
  }

  /** What holds of all lists that are coming keeps holding of them on every quiet run, and of the lists
      held by tasks too if it does now. */
  lemma {:induction false} PathKeepsAll(states: seq<State>, tr: seq<Event>, P: Servers -> bool, k: nat)
    requires Path(states, tr) && Quiet(tr) && k <= |tr|
    requires Closed(P) && AllComing(states[0], P)
    ensures AllComing(states[k], P) && states[k].configured == states[0].configured
    ensures AllHeld(states[0], P) ==> AllHeld(states[k], P)
  {
    if k == 0 {
    } else {
      PathKeepsAll(states, tr, P, k - 1);
      StepKeepsAll(states[k - 1], tr[k - 1], P);
    }
  }

  /** The run that takes the first `n` messages. */
  lemma {:induction false} DeliverSome(s: State, n: nat) returns (states: seq<State>, tr: seq<Event>)
    requires NonePending(s) && n <= |s.queue|
    ensures Path(states, tr) && Quiet(tr) && |tr| == n && states[0] == s
    ensures states[n] == s.(queue := s.queue[n..], active := if n == 0 then s.active else s.queue[n - 1].servers)
  {
    if n == 0 {
      return [s], [];
    } else {
      states, tr := DeliverSome(s, n - 1);
      states, tr := states + [Step(states[n - 1], Deliver)], tr + [Deliver];
    }
  }

  /** The run in which everyone answers a check and the main loop takes what is queued. */
  lemma CheckSurfaces(s: State, l: Servers) returns (states: seq<State>, tr: seq<Event>)
    requires NonePending(s) && l in s.checks && l != []
    ensures Path(states, tr) && Quiet(tr) && states[0] == s
    ensures states[|tr|].active == l && states[|tr|].counter == s.counter && states[|tr|].held == s.held
  {
    EveryoneAnswers(l);
    var ev := CheckDone(l, Everyone(l));
    var s1 := Step(s, ev);
    states, tr := DeliverSome(s1, |s1.queue|);
    states, tr := [s] + states, [ev] + tr;
  }

  lemma TickSurfaces(s: State) returns (states: seq<State>, tr: seq<Event>)
    requires NonePending(s) && |s.configured| > 1
    ensures Path(states, tr) && Quiet(tr) && states[0] == s
    ensures states[|tr|].active == s.configured && states[|tr|].counter == s.counter && states[|tr|].held == s.held
  {
    var s1 := Step(s, Tick);
    assert s1.checks[s.configured] >= 1;
    states, tr := CheckSurfaces(s1, s.configured);
    states, tr := [s] + states, [Tick] + tr;
  }

  /** Every list that is coming can become the main loop's. */
  lemma Surfaces(s: State, l: Servers) returns (states: seq<State>, tr: seq<Event>)
    requires NonePending(s) && Coming(s, l) && l != []
    ensures Path(states, tr) && Quiet(tr) && states[0] == s
    ensures states[|tr|].active == l && states[|tr|].counter == s.counter && states[|tr|].held == s.held
  {
    if l == s.active {
      states, tr := DeliverSome(s, 0);
    } else if i :| 0 <= i < |s.queue| && s.queue[i].servers == l {
      states, tr := DeliverSome(s, i + 1);
    } else if l in s.checks {
      states, tr := CheckSurfaces(s, l);
    } else {
      states, tr := TickSurfaces(s);
    }
  }

  lemma InsideIsClosed(configured: Servers)
    ensures Closed(l => Inside(l, configured))
  {
    forall l: Servers, order: seq<nat> | Distinct(order, |l|) && Inside(l, configured)
      ensures Inside(Picked(l, order), configured)
    {
      PickedIsSubBag(l, order);
    }
  }

  /** No quiet run from here takes the main loop's list outside the configured one. */
  ghost predicate MainStaysInside(s: State) {
    forall states: seq<State>, tr: seq<Event> ::
      Path(states, tr) && Quiet(tr) && states[0] == s ==> Inside(states[|tr|].active, s.configured)
  }

  /** Nor any list in use. */
  ghost predicate StaysInside(s: State) {
    forall states: seq<State>, tr: seq<Event>, caller ::
      Path(states, tr) && Quiet(tr) && states[0] == s && Holds(states[|tr|], caller)
      ==> Inside(Used(states[|tr|], caller), s.configured)
  }

  /** Once no reconfiguration is pending, the main loop's list stays inside the configured one for good
      exactly if it, every running check and every queued report are inside it now. */
  lemma MainStaysInsideIff(s: State)
    requires NonePending(s)
    ensures MainStaysInside(s) <==> forall l :: Coming(s, l) ==> Inside(l, s.configured)
  {
    var P := l => Inside(l, s.configured);
    InsideIsClosed(s.configured);
    if forall l :: Coming(s, l) ==> Inside(l, s.configured) {
      assert forall i :: 0 <= i < |s.queue| ==> Coming(s, s.queue[i].servers);
      assert AllComing(s, P);
      forall states: seq<State>, tr: seq<Event> | Path(states, tr) && Quiet(tr) && states[0] == s
        ensures Inside(states[|tr|].active, s.configured)
      {
        PathKeepsAll(states, tr, P, |tr|);
      }
    } else {
      var l :| Coming(s, l) && !Inside(l, s.configured);
      var states, tr := Surfaces(s, l);
      assert !Inside(states[|tr|].active, s.configured);
    }
  }

  /** And all lists in use do exactly if the lists the tasks hold are inside as well. */
  lemma StaysInsideIff(s: State)
    requires NonePending(s)
    ensures StaysInside(s) <==> forall l :: Outstanding(s, l) ==> Inside(l, s.configured)
  {
    var P := l => Inside(l, s.configured);
    InsideIsClosed(s.configured);
    if forall l :: Outstanding(s, l) ==> Inside(l, s.configured) {
      assert forall i :: 0 <= i < |s.queue| ==> Coming(s, s.queue[i].servers);
      assert AllComing(s, P) && AllHeld(s, P);
      forall states: seq<State>, tr: seq<Event>, caller | Path(states, tr) && Quiet(tr) && states[0] == s && Holds(states[|tr|], caller)
        ensures Inside(Used(states[|tr|], caller), s.configured)
      {
        PathKeepsAll(states, tr, P, |tr|);
      }
    } else {
      var l :| Outstanding(s, l) && !Inside(l, s.configured);
      if Coming(s, l) {
        var states, tr := Surfaces(s, l);
        assert !Inside(Used(states[|tr|], None), s.configured);
      } else {
        var t :| t in s.held && s.held[t] == l;
        var states, tr := DeliverSome(s, 0);
        assert !Inside(Used(states[|tr|], Some(t)), s.configured);
      }
    }
  }

  /** A reconfiguration with no other behind it takes effect on the main loop at once. It lasts there exactly
      if no check still running and no report still queued names servers beyond the new list, and for
      everyone exactly if no task holds a list that does either. */
  lemma ReconfigurationLastsIff(s: State)
    requires s.queue != [] && s.queue[0].Reconfigured? && forall i :: 1 <= i < |s.queue| ==> s.queue[i].Alive?
    ensures var (s1, l) := (Step(s, Deliver), s.queue[0].servers);
            var under := (forall c :: c in s.checks ==> Inside(c, l))
                         && (forall i :: 1 <= i < |s.queue| ==> Inside(s.queue[i].servers, l));
            && s1.configured == s1.active == l && s1.held == s.held
            && (MainStaysInside(s1) <==> under)
            && (StaysInside(s1) <==> under && forall t :: t in s.held ==> Inside(s.held[t], l))
  {
    var (s1, l) := (Step(s, Deliver), s.queue[0].servers);
    assert forall i :: 0 <= i < |s1.queue| ==> s1.queue[i] == s.queue[i + 1];
    assert forall i :: 1 <= i < |s.queue| ==> s.queue[i] == s1.queue[i - 1];
    MainStaysInsideIff(s1);
    StaysInsideIff(s1);
    assert forall c :: c in s1.checks ==> Coming(s1, c);
    assert forall i :: 0 <= i < |s1.queue| ==> Coming(s1, s1.queue[i].servers);
    assert forall t :: t in s1.held ==> Outstanding(s1, s1.held[t]);
  }

  // ---------- Exactly which servers can still be handed out ----------

  /** Some quiet run ends in a call that is answered with this server. */
  ghost predicate CanHandOut(s: State, server: string) {
    exists states: seq<State>, tr: seq<Event>, caller ::
      && Path(states, tr) && Quiet(tr) && states[0] == s && Holds(states[|tr|], caller)
      && Answers(states[|tr|], caller, server)
  }

  predicate Answers(s: State, caller: Caller, server: string)
    requires Holds(s, caller)
  {
    Used(s, caller) != [] && Handed(Used(s, caller), s.counter).0 == server
  }

  /** The run of `m` calls by one caller. */
  lemma {:induction false} CallAgain(s: State, caller: Caller, m: nat) returns (states: seq<State>, tr: seq<Event>)
    requires Holds(s, caller) && |Used(s, caller)| >= 2 && s.counter < WRAP && s.counter + m < 2 * WRAP
    ensures Path(states, tr) && Quiet(tr) && |tr| == m && states[0] == s
    ensures forall i :: 0 <= i < m ==> tr[i] == GetRelay(caller)
    ensures forall i :: 0 <= i <= m ==> states[i] == s.(counter := After(s.counter, i))
  {
    if m == 0 {
      return [s], [];
    } else {
      states, tr := CallAgain(s, caller, m - 1);
      states, tr := states + [Step(states[m - 1], GetRelay(caller))], tr + [GetRelay(caller)];
    }
  }

  /** A caller that goes on asking gets every server of its list. */
  lemma TurnOf(s: State, caller: Caller, p: nat) returns (states: seq<State>, tr: seq<Event>)
    requires Holds(s, caller) && p < |Used(s, caller)| < WRAP && s.counter < WRAP
    ensures Path(states, tr) && Quiet(tr) && states[0] == s && Holds(states[|tr|], caller)
    ensures Answers(states[|tr|], caller, Used(s, caller)[p])
  {
    if |Used(s, caller)| == 1 {
      return [s], [];
    } else {
      var n := |Used(s, caller)|;
      TurnComes(s.counter, n, p);
      states, tr := CallAgain(s, caller, UntilTurn(s.counter, n, p));
    }
  }

  lemma Joined(s1: seq<State>, t1: seq<Event>, s2: seq<State>, t2: seq<Event>)
    returns (states: seq<State>, tr: seq<Event>)
    requires Path(s1, t1) && Quiet(t1) && Path(s2, t2) && Quiet(t2) && s1[|t1|] == s2[0]
    ensures Path(states, tr) && Quiet(tr) && states[0] == s1[0] && states[|tr|] == s2[|t2|]
  {
    states, tr := s1[..|t1|] + s2, t1 + t2;
  }

  /** With no reconfiguration pending, a server can still be handed out exactly if it is in a list that is in
      use or can come into use. */
  lemma CanHandOutIff(s: State, server: string)
    requires NonePending(s) && s.counter < WRAP && forall l :: Outstanding(s, l) ==> |l| < WRAP
    ensures CanHandOut(s, server) <==> exists l :: Outstanding(s, l) && server in l
  {
    if l :| Outstanding(s, l) && server in l {
      var p :| 0 <= p < |l| && l[p] == server;
      if Coming(s, l) {
        var s1, t1 := Surfaces(s, l);
        var s2, t2 := TurnOf(s1[|t1|], None, p);
        var states, tr := Joined(s1, t1, s2, t2);
        assert Answers(states[|tr|], None, server);
      } else {
        var t :| t in s.held && s.held[t] == l;
        var states, tr := TurnOf(s, Some(t), p);
        assert Answers(states[|tr|], Some(t), server);
      }
    } else {
      var P := (l: Servers) => server !in l;
      assert Closed(P);
      assert forall i :: 0 <= i < |s.queue| ==> Coming(s, s.queue[i].servers);
      assert AllComing(s, P) && AllHeld(s, P);
      forall states: seq<State>, tr: seq<Event>, caller | Path(states, tr) && Quiet(tr) && states[0] == s && Holds(states[|tr|], caller)
        ensures !Answers(states[|tr|], caller, server)
      {
        PathKeepsAll(states, tr, P, |tr|);
      }
    }
  }
}
