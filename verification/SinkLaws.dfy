/** Exactly when a sink enters and leaves each place: who is parked, what is delivered, who reads on. */
module SinkLaws {
  import opened Net
  import opened Sinks

  // ---------- What an event does, seen from one sink ----------

  /** The task of `x` asks for a punch hole or a relay, sink in hand. */
  predicate Parks(s: State, ev: Event, x: Conn) {
    (ev.PunchHoleRequest? || ev.RequestRelay?) && ev.c == x && OwnedByTask(s, x)
  }

  /** The WebSocket `x` has registered, sink in hand. */
  predicate ParksWs(s: State, ev: Event, x: Conn) {
    ev.RegisterPk? && ev.ok && ev.c == x && OwnedByTask(s, x) && s.tasks[x].ws
  }

  /** A reply to its key, the answer to its own request, or a request for the WebSocket at its key: the
      sink of `x` is taken for a message. */
  predicate Delivered(s: State, ev: Event, x: Conn)
    requires Enabled(s, ev)
  {
    || (ev.Reply? && ev.addressee in s.tcpPunch && s.tcpPunch[ev.addressee] == x)
    || (ev.AnswerPunch? && match s.tasks[ev.c].phase.to
                           case None => s.tasks[ev.c].key in s.tcpPunch && s.tcpPunch[s.tasks[ev.c].key] == x
                           case Some(to) => to in s.wsMap && s.wsMap[to] == x)
  }

  /** A reply to this key, the answer to an asker with this key, a parking under it, or a connection
      without sink that closes under it. */
  predicate ClearsTcp(s: State, ev: Event, key: Addr)
    requires Enabled(s, ev)
  {
    || (ev.Reply? && ev.addressee == key)
    || (ev.AnswerPunch? && s.tasks[ev.c].phase.to == None && s.tasks[ev.c].key == key)
    || ((ev.PunchHoleRequest? || ev.RequestRelay?) && s.tasks[ev.c].hasSink && s.tasks[ev.c].key == key)
    || (ev.Close? && !s.tasks[ev.c].hasSink && s.tasks[ev.c].key == key)
  }

  predicate At(m: map<Addr, Conn>, key: Addr, x: Conn) {
    key in m && m[key] == x
  }

  // ---------- The laws of one step ----------

  /** A sink is in a sender's hand exactly from its delivery to its transmission. */
  lemma LeavingIff(s: State, ev: Event, x: Conn)
    requires Enabled(s, ev)
    ensures x in Step(s, ev).leaving <==> (x in s.leaving && ev != Transmit(x)) || Delivered(s, ev, x)
  {
  }

  /** An entry of `tcp_punch` is there exactly from its parking until its key is cleared. */
  lemma PunchMapIff(s: State, ev: Event, key: Addr, x: Conn)
    requires Enabled(s, ev)
    ensures At(Step(s, ev).tcpPunch, key, x) <==>
              (At(s.tcpPunch, key, x) && !ClearsTcp(s, ev, key)) || (Parks(s, ev, x) && s.tasks[x].key == key)
  {
  }

  /** An entry of `ws_map` likewise. */
  lemma WsMapIff(s: State, ev: Event, key: Addr, x: Conn)
    requires Enabled(s, ev)
    ensures At(Step(s, ev).wsMap, key, x) <==>
              (At(s.wsMap, key, x) && !ClearsWs(s, ev, key)) || (ParksWs(s, ev, x) && s.tasks[x].key == key)
  {
  }

  /** A task has its sink exactly until it parks it or closes. */
  lemma OwnedIff(s: State, ev: Event, x: Conn)
    requires Enabled(s, ev)
    ensures OwnedByTask(Step(s, ev), x) <==>
              (ev.Open? && ev.c == x) || (OwnedByTask(s, x) && !Parks(s, ev, x) && !ParksWs(s, ev, x) && ev != Close(x))
  {
  }

  /** A connection goes on being read after a request for a relay, an OK registration, a good key, and the answer to a
      punch-hole request, which it waits for meanwhile. Everything else it may say ends it, as does its own end. */
  lemma PhaseAfter(s: State, ev: Event, x: Conn)
    requires Enabled(s, ev)
    ensures x in Step(s, ev).tasks <==> x in s.tasks || (ev.Open? && ev.c == x)
    ensures x in s.tasks ==> Step(s, ev).tasks[x].key == s.tasks[x].key && Step(s, ev).tasks[x].ws == s.tasks[x].ws
    ensures x in Step(s, ev).tasks ==>
              var phase := Step(s, ev).tasks[x].phase;
              if ev.Transmit? || ev.c != x then x in s.tasks && phase == s.tasks[x].phase
              else
                && (phase == Reading <==> ev.Open? || ev.AnswerPunch? || ev.RequestRelay? || ((ev.RegisterPk? || ev.KeyExchange?) && ev.ok))
                && (phase.Answering? <==> ev.PunchHoleRequest?) && (ev.PunchHoleRequest? ==> phase == Answering(ev.to))
                && (phase == Closed <==> ev.Close?)
  {
  }

  /** What a sink has transmitted since it was first parked. */
  lemma ToldAfter(s: State, ev: Event, x: Conn)
    requires Enabled(s, ev)
    ensures var told := if x in s.told then s.told[x] else 0;
            (if x in Step(s, ev).told then Step(s, ev).told[x] else 0)
            == if Parks(s, ev, x) || ParksWs(s, ev, x) then 0 else if ev == Transmit(x) then told + 1 else told
  {
  }

  // ---------- Over runs ----------

  predicate Waits(s: State, key: Addr, x: Conn) {
    x in s.tasks && !s.tasks[x].hasSink && s.tasks[x].key == key
  }

  lemma StepWaits(s: State, ev: Event, key: Addr, x: Conn)
    requires Enabled(s, ev) && Waits(s, key, x)
    ensures Waits(Step(s, ev), key, x)
    ensures At(Step(s, ev).tcpPunch, key, x) <==> At(s.tcpPunch, key, x) && !ClearsTcp(s, ev, key)
  {
    PunchMapIff(s, ev, key, x);
    PhaseAfter(s, ev, x);
    OwnedIff(s, ev, x);
  }

  lemma ParkWaits(s: State, ev: Event, x: Conn)
    requires Enabled(s, ev) && Parks(s, ev, x)
    ensures Waits(Step(s, ev), s.tasks[x].key, x) && At(Step(s, ev).tcpPunch, s.tasks[x].key, x)
  {
    PunchMapIff(s, ev, s.tasks[x].key, x);
    PhaseAfter(s, ev, x);
    OwnedIff(s, ev, x);
  }

  /** A sink parked by a request stays in `tcp_punch` exactly until its key is cleared. */
  lemma {:induction false} PunchMapUntilCleared(states: seq<State>, tr: seq<Event>, j: nat, k: nat, x: Conn)
    requires Path(states, tr) && j < k <= |tr| && Parks(states[j], tr[j], x)
    ensures var key := states[j].tasks[x].key;
            && Waits(states[k], key, x)
            && (At(states[k].tcpPunch, key, x) <==> forall i :: j < i < k ==> !ClearsTcp(states[i], tr[i], key))
  {
    if k == j + 1 {
      ParkWaits(states[j], tr[j], x);
    } else {
      PunchMapUntilCleared(states, tr, j, k - 1, x);
      StepWaits(states[k - 1], tr[k - 1], states[j].tasks[x].key, x);
    }
  }

  /** The event that clears it decides its fate: the sink is delivered if that is a reply to its key or the answer
      to an asker with that key, and is nowhere otherwise. */
  lemma ClearedIsDeliveredIff(states: seq<State>, tr: seq<Event>, j: nat, k: nat, x: Conn)
    requires Path(states, tr) && j < k < |tr| && Parks(states[j], tr[j], x)
    requires ClearsTcp(states[k], tr[k], states[j].tasks[x].key)
    requires forall i :: j < i < k ==> !ClearsTcp(states[i], tr[i], states[j].tasks[x].key)
    ensures x in states[k + 1].leaving <==> tr[k].Reply? || tr[k].AnswerPunch?
    ensures Places(states[k + 1], x) == if tr[k].Reply? || tr[k].AnswerPunch? then 1 else 0
  {
    var (s, ev, key) := (states[k], tr[k], states[j].tasks[x].key);
    PunchMapUntilCleared(states, tr, j, k, x);
    Reachable(states, tr, k);
    Reachable(states, tr, k + 1);
    assert SinkOk(s, x) && SinkOk(states[k + 1], x);
    LeavingIff(s, ev, x);
    PunchMapIff(s, ev, key, x);
    WsMapIff(s, ev, key, x);
    OwnedIff(s, ev, x);
    PhaseAfter(s, ev, x);
  }
}
