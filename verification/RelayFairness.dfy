/** How evenly the servers are handed out, over whole runs. */
module RelayFairness {
  import opened Net
  import opened Rotation
  import opened RelayPool
  import opened RelayLists

  // ---------- Rotation over runs ----------

  /** A call that takes a turn: its caller has two servers or more. */
  predicate Turns(s: State, ev: Event) {
    ev.GetRelay? && Holds(s, ev.caller) && |Used(s, ev.caller)| >= 2
  }

  predicate TurnsOn(s: State, ev: Event, n: nat) {
    Turns(s, ev) && |Used(s, ev.caller)| == n
  }

  /** How many turns are taken between two points of a run, */
  function Taken(states: seq<State>, tr: seq<Event>, j: nat, k: nat): nat
    requires |states| == |tr| + 1 && j <= k <= |tr|
    decreases k - j
  {
    if j == k then 0 else (if Turns(states[j], tr[j]) then 1 else 0) + Taken(states, tr, j + 1, k)
  }

  /** how many of them on lists of length `n`, */
  function Calls(states: seq<State>, tr: seq<Event>, j: nat, k: nat, n: nat): nat
    requires |states| == |tr| + 1 && j <= k <= |tr|
    decreases k - j
  {
    if j == k then 0 else (if TurnsOn(states[j], tr[j], n) then 1 else 0) + Calls(states, tr, j + 1, k, n)
  }

  /** and how many of these are answered with position `p`. */
  function Picks(states: seq<State>, tr: seq<Event>, j: nat, k: nat, n: nat, p: nat): nat
    requires |states| == |tr| + 1 && j <= k <= |tr| && n > 0
    decreases k - j
  {
    if j == k then 0
    else (if TurnsOn(states[j], tr[j], n) && states[j].counter % n == p then 1 else 0) + Picks(states, tr, j + 1, k, n, p)
  }

  lemma TurnAdvances(s: State, ev: Event)
    requires Enabled(s, ev)
    ensures Step(s, ev).counter == if Turns(s, ev) then Next(s.counter) else s.counter
  {
  }

  /** Whoever calls, with lists of whatever lengths: the counter counts all turns together. So the position
      handed out next is decided by everybody's calls, taken modulo the length of the caller's list. */
  lemma {:induction false} CounterCountsTurns(states: seq<State>, tr: seq<Event>, j: nat, k: nat)
    requires Path(states, tr) && j <= k <= |tr| && states[j].counter < WRAP && states[j].counter + Taken(states, tr, j, k) < 2 * WRAP
    ensures states[k].counter == After(states[j].counter, Taken(states, tr, j, k))
    decreases k - j
  {
    if j == k {
    } else {
      TurnAdvances(states[j], tr[j]);
      CounterCountsTurns(states, tr, j + 1, k);
    }
  }

  lemma {:induction false} PicksAreHits(states: seq<State>, tr: seq<Event>, j: nat, k: nat, n: nat, p: nat)
    requires Path(states, tr) && j <= k <= |tr| && n >= 2
    requires forall i :: j <= i < k && Turns(states[i], tr[i]) ==> |Used(states[i], tr[i].caller)| == n
    ensures Picks(states, tr, j, k, n, p) == Hits(states[j].counter, n, Calls(states, tr, j, k, n), p)
    decreases k - j
  {
    if j == k {
    } else {
      TurnAdvances(states[j], tr[j]);
      assert Turns(states[j], tr[j]) <==> TurnsOn(states[j], tr[j], n);
      PicksAreHits(states, tr, j + 1, k, n, p);
    }
  }

  predicate Fair(states: seq<State>, tr: seq<Event>, j: nat, k: nat, n: nat, p: nat)
    requires |states| == |tr| + 1 && j <= k <= |tr| && n > 0
  {
    var m := Calls(states, tr, j, k, n);
    m / n <= Picks(states, tr, j, k, n, p) <= Ceil(m, n)
  }

  /** While all lists that turns are taken on have the same length n, and the counter does not wrap, every
      position is handed out floor(m/n) or ceil(m/n) times in m turns, whatever happens between them. */
  lemma CallsAreFair(states: seq<State>, tr: seq<Event>, j: nat, k: nat, n: nat, p: nat)
    requires Path(states, tr) && j <= k <= |tr| && n >= 2 && p < n
    requires forall i :: j <= i < k && Turns(states[i], tr[i]) ==> |Used(states[i], tr[i].caller)| == n
    requires states[j].counter + Calls(states, tr, j, k, n) <= WRAP
    ensures Fair(states, tr, j, k, n, p)
  {
    PicksAreHits(states, tr, j, k, n, p);
    RotationIsFair(states[j].counter, n, Calls(states, tr, j, k, n), p);
  }

  // ---------- Exactly when the rotation is fair ----------

  /** The main loop takes no message. */
  ghost predicate Undelivered(tr: seq<Event>) {
    forall i :: 0 <= i < |tr| ==> !tr[i].Deliver?
  }

  /** Every run from here on which the main loop takes no message, and the counter does not wrap, is fair
      for lists of every length. */
  ghost predicate AlwaysFair(s: State) {
    forall states: seq<State>, tr: seq<Event>, n: nat, p: nat ::
      Path(states, tr) && states[0] == s && Undelivered(tr) && s.counter + |tr| <= WRAP && p < n && n >= 2
      ==> Fair(states, tr, 0, |tr|, n, p)
  }

  /** All lists in use that have two servers or more are equally long. */
  ghost predicate OneLength(s: State) {
    forall a, b :: Holds(s, a) && Holds(s, b) && |Used(s, a)| >= 2 && |Used(s, b)| >= 2 ==> |Used(s, a)| == |Used(s, b)|
  }

  predicate LengthIs(s: State, n: nat) {
    (|s.active| >= 2 ==> |s.active| == n) && forall t :: t in s.held && |s.held[t]| >= 2 ==> |s.held[t]| == n
  }

  lemma {:induction false} LengthStays(states: seq<State>, tr: seq<Event>, k: nat, n: nat)
    requires Path(states, tr) && Undelivered(tr) && LengthIs(states[0], n) && k <= |tr|
    ensures LengthIs(states[k], n)
  {
    if k == 0 {
    } else {
      LengthStays(states, tr, k - 1, n);
      assert !tr[k - 1].Deliver?;
    }
  }

  lemma {:induction false} NoCalls(states: seq<State>, tr: seq<Event>, j: nat, k: nat, n: nat, p: nat)
    requires |states| == |tr| + 1 && j <= k <= |tr| && n > 0
    requires forall i :: j <= i < k ==> !TurnsOn(states[i], tr[i], n)
    ensures Calls(states, tr, j, k, n) == Picks(states, tr, j, k, n, p) == 0
    decreases k - j
  {
    if j == k {
    } else {
      NoCalls(states, tr, j + 1, k, n, p);
    }
  }

  lemma {:induction false} CallsBound(states: seq<State>, tr: seq<Event>, j: nat, k: nat, n: nat)
    requires |states| == |tr| + 1 && j <= k <= |tr|
    ensures Calls(states, tr, j, k, n) <= k - j
    decreases k - j
  {
    if j == k {
    } else {
      CallsBound(states, tr, j + 1, k, n);
    }
  }

  lemma OneLengthIsFair(s: State, states: seq<State>, tr: seq<Event>, n: nat, p: nat)
    requires OneLength(s) && Path(states, tr) && states[0] == s && Undelivered(tr) && s.counter + |tr| <= WRAP && p < n && n >= 2
    ensures Fair(states, tr, 0, |tr|, n, p)
  {
    var length := CommonLength(s);
    forall i | 0 <= i < |tr| && Turns(states[i], tr[i])
      ensures |Used(states[i], tr[i].caller)| == length
    {
      LengthStays(states, tr, i, length);
    }
    if n == length {
      CallsBound(states, tr, 0, |tr|, n);
      CallsAreFair(states, tr, 0, |tr|, n, p);
    } else {
      NoCalls(states, tr, 0, |tr|, n, p);
      ModIs(0, n, 0, 0);
    }
  }

  lemma CommonLength(s: State) returns (n: nat)
    requires OneLength(s)
    ensures LengthIs(s, n)
  {
    assert Used(s, None) == s.active;
    assert forall t :: t in s.held ==> Holds(s, Some(t)) && Used(s, Some(t)) == s.held[t];
    if a :| Holds(s, a) && |Used(s, a)| >= 2 {
      n := |Used(s, a)|;
    } else {
      n := 0;
    }
  }

  /** One call, as many by another caller as to come round on the first list, one more call. */
  lemma RoundBetween(s: State, a: Caller, b: Caller) returns (states: seq<State>, tr: seq<Event>)
    requires Holds(s, a) && Holds(s, b) && |Used(s, a)| >= 2 && |Used(s, b)| >= 2
    requires s.counter + |Used(s, a)| < WRAP
    ensures Path(states, tr) && |tr| == |Used(s, a)| + 1 && Undelivered(tr)
    ensures forall i :: 0 <= i < |tr| ==> states[i] == s.(counter := s.counter + i)
    ensures forall i :: 0 <= i < |tr| ==> tr[i] == GetRelay(if 1 <= i < |tr| - 1 then b else a)
  {
    var n := |Used(s, a)|;
    var s0 := s.(counter := s.counter + 1);
    assert Step(s, GetRelay(a)) == s0;
    var s1, t1 := CallAgain(s0, b, n - 1);
    var last := Step(s1[n - 1], GetRelay(a));
    states, tr := [s] + s1 + [last], [GetRelay(a)] + t1 + [GetRelay(a)];
    assert forall i :: 1 <= i <= n ==> states[i] == s1[i - 1];
    assert forall i :: 1 <= i < n ==> tr[i] == t1[i - 1];
  }

  /** If their lists have different lengths, both calls of the first get the same position. */
  lemma TwoLengthsUnfair(s: State, a: Caller, b: Caller)
    requires Holds(s, a) && Holds(s, b) && |Used(s, a)| >= 2 && |Used(s, b)| >= 2 && |Used(s, a)| != |Used(s, b)|
    requires s.counter + |Used(s, a)| < WRAP
    ensures !AlwaysFair(s)
  {
    var (c, n) := (s.counter, |Used(s, a)|);
    var states, tr := RoundBetween(s, a, b);
    assert (c / n + 1) * n == c / n * n + n;
    ModIs(c + n, n, c / n + 1, c % n);
    TwoOfTwo(states, tr, n, c % n);
    assert !Fair(states, tr, 0, |tr|, n, c % n);
  }

  /** Two turns on lists of length `n`, first and last in the run, both get the same position. */
  lemma TwoOfTwo(states: seq<State>, tr: seq<Event>, n: nat, p: nat)
    requires |states| == |tr| + 1 && |tr| >= 2 && n >= 2
    requires TurnsOn(states[0], tr[0], n) && TurnsOn(states[|tr| - 1], tr[|tr| - 1], n)
    requires states[0].counter % n == states[|tr| - 1].counter % n == p
    requires forall i :: 1 <= i < |tr| - 1 ==> !TurnsOn(states[i], tr[i], n)
    ensures Calls(states, tr, 0, |tr|, n) == Picks(states, tr, 0, |tr|, n, p) == 2 > Ceil(2, n)
  {
    ModIs(2, n, if n == 2 then 1 else 0, if n == 2 then 0 else 2);
    AtTheEnd(states, tr, 1, n, p);
  }

  lemma {:induction false} AtTheEnd(states: seq<State>, tr: seq<Event>, j: nat, n: nat, p: nat)
    requires |states| == |tr| + 1 && j < |tr| && n > 0
    requires TurnsOn(states[|tr| - 1], tr[|tr| - 1], n) && states[|tr| - 1].counter % n == p
    requires forall i :: j <= i < |tr| - 1 ==> !TurnsOn(states[i], tr[i], n)
    ensures Calls(states, tr, j, |tr|, n) == Picks(states, tr, j, |tr|, n, p) == 1
    decreases |tr| - j
  {
    if j == |tr| - 1 {
    } else {
      AtTheEnd(states, tr, j + 1, n, p);
    }
  }

  /** Until the main loop takes its next message, and short of a wrap, the rotation is fair to everyone
      exactly if all lists in use are equally long, those with one server or none apart. */
  lemma AlwaysFairIff(s: State)
    requires forall caller :: Holds(s, caller) ==> s.counter + |Used(s, caller)| < WRAP
    ensures AlwaysFair(s) <==> OneLength(s)
  {
    if OneLength(s) {
      forall states: seq<State>, tr: seq<Event>, n: nat, p: nat |
        Path(states, tr) && states[0] == s && Undelivered(tr) && s.counter + |tr| <= WRAP && p < n && n >= 2
        ensures Fair(states, tr, 0, |tr|, n, p)
      {
        OneLengthIsFair(s, states, tr, n, p);
      }
    } else {
      var a, b :| Holds(s, a) && Holds(s, b) && |Used(s, a)| >= 2 && |Used(s, b)| >= 2 && |Used(s, a)| != |Used(s, b)|;
      TwoLengthsUnfair(s, a, b);
    }
  }

  /** A server can even be starved. A connection that was open before a check found one of three servers
      dead takes turns with newer callers: the second of the two servers left never comes up for these. */
  lemma {:induction false} OldListStarves(s: State, t: Task, rounds: nat) returns (states: seq<State>, tr: seq<Event>)
    requires t in s.held && |s.held[t]| == 3 && |s.active| == 2 && s.counter % 2 == 1 && s.counter + 2 * rounds < WRAP
    ensures Path(states, tr) && |tr| == 2 * rounds && states[0] == s
    ensures Calls(states, tr, 0, |tr|, 2) == rounds && Picks(states, tr, 0, |tr|, 2, 1) == 0
    decreases rounds
  {
    if rounds == 0 {
      return [s], [];
    } else {
      var states', tr' := OldListStarves(s.(counter := s.counter + 2), t, rounds - 1);
      states, tr := OneMoreRound(s, t, states', tr');
    }
  }

  /** The old list's turn, then a turn on the list of two, which gets its first server. */
  lemma OneMoreRound(s: State, t: Task, states': seq<State>, tr': seq<Event>) returns (states: seq<State>, tr: seq<Event>)
    requires t in s.held && |s.held[t]| == 3 && |s.active| == 2 && s.counter % 2 == 1 && s.counter + 2 < WRAP
    requires Path(states', tr') && states'[0] == s.(counter := s.counter + 2)
    ensures Path(states, tr) && |tr| == |tr'| + 2 && states[0] == s
    ensures Calls(states, tr, 0, |tr|, 2) == Calls(states', tr', 0, |tr'|, 2) + 1
    ensures Picks(states, tr, 0, |tr|, 2, 1) == Picks(states', tr', 0, |tr'|, 2, 1)
  {
    var s1 := s.(counter := s.counter + 1);
    assert Step(s, GetRelay(Some(t))) == s1 && Step(s1, GetRelay(None)) == states'[0];
    states, tr := [s, s1] + states', [GetRelay(Some(t)), GetRelay(None)] + tr';
    TwoMore(s, s1, GetRelay(Some(t)), GetRelay(None), states', tr');
    Prefixed(states', tr', [s, s1], [GetRelay(Some(t)), GetRelay(None)], 0, 2, 1);
    FirstTwo(states, tr, 2, 1);
  }

  lemma TwoMore(s: State, s1: State, ev: Event, ev1: Event, states: seq<State>, tr: seq<Event>)
    requires Path(states, tr) && Enabled(s, ev) && Step(s, ev) == s1 && Enabled(s1, ev1) && Step(s1, ev1) == states[0]
    ensures Path([s, s1] + states, [ev, ev1] + tr)
  {
  }

  lemma FirstTwo(states: seq<State>, tr: seq<Event>, n: nat, p: nat)
    requires |states| == |tr| + 1 && |tr| >= 2 && n > 0
    requires !TurnsOn(states[0], tr[0], n) && TurnsOn(states[1], tr[1], n) && states[1].counter % n != p
    ensures Calls(states, tr, 0, |tr|, n) == 1 + Calls(states, tr, 2, |tr|, n)
    ensures Picks(states, tr, 0, |tr|, n, p) == Picks(states, tr, 2, |tr|, n, p)
  {
  }

  lemma {:induction false} Prefixed(states: seq<State>, tr: seq<Event>, states0: seq<State>, tr0: seq<Event>, j: nat, n: nat, p: nat)
    requires |states| == |tr| + 1 && |states0| == |tr0| && j <= |tr| && n > 0
    ensures var (ss, es) := (states0 + states, tr0 + tr);
            && Calls(ss, es, |tr0| + j, |es|, n) == Calls(states, tr, j, |tr|, n)
            && Picks(ss, es, |tr0| + j, |es|, n, p) == Picks(states, tr, j, |tr|, n, p)
    decreases |tr| - j
  {
    if j == |tr| {
    } else {
      Prefixed(states, tr, states0, tr0, j + 1, n, p);
    }
  }

  /** Such a state is reached from the start. */
  lemma PruneSplitsLists(servers: Servers, t: Task)
    requires |servers| == 3
    ensures Distinct([0, 1], 3)
    ensures var s1 := Step(Step(Step(Start(servers), GetRelay(None)), Spawn(t)), Tick);
            && Enabled(s1, CheckDone(servers, [0, 1]))
            && var s2 := Step(Step(s1, CheckDone(servers, [0, 1])), Deliver);
               s2.held == map[t := servers] && s2.active == servers[..2] && s2.configured == servers && s2.counter == 1
  {
    var s1 := Step(Step(Step(Start(servers), GetRelay(None)), Spawn(t)), Tick);
    assert Picked(servers, [0, 1]) == servers[..2];
  }
}
