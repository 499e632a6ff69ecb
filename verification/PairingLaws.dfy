/** Exactly when a stream enters and leaves PEERS, an id USAGE, and a task its next phase. */
module PairingLaws {
  import opened Net
  import opened Pairing

  predicate At(m: map<string, Conn>, u: string, x: Conn) {
    u in m && m[u] == x
  }

  /** An entry of PEERS is there exactly from its parking until somebody looks its uuid up, parks under it, or
      wakes up with it. */
  lemma PeersIff(s: State, ev: Event, u: string, x: Conn)
    requires Enabled(s, ev)
    ensures At(Step(s, ev).peers, u, x) <==>
              (At(s.peers, u, x) && !Touches(s, ev, u)) || (ev == Park(x) && s.tasks[x].uuid == u)
  {
  }

  /** An id is in USAGE exactly from when a relay enters or samples under it until one with that id is over. */
  lemma UsageIff(s: State, ev: Event, id: string)
    requires Enabled(s, ev)
    ensures id in Step(s, ev).usage <==>
              || (id in s.usage && !(ev.LeaveUsage? && s.tasks[ev.c].id == id))
              || ((ev.EnterUsage? || ev.Sample?) && s.tasks[ev.c].id == id)
  {
  }

  function PeerOf(phase: Phase): Option<Conn> {
    if HasPeer(phase) then Some(phase.peer) else None
  }

  /** What a task does next, and what it keeps. */
  lemma PhaseAfter(s: State, ev: Event, x: Conn)
    requires Enabled(s, ev)
    ensures x in Step(s, ev).tasks <==> x in s.tasks || (ev.Accept? && ev.c == x)
    ensures x in Step(s, ev).tasks ==>
              var t := Step(s, ev).tasks[x];
              if ev.Wait? || ev.c != x then x in s.tasks && t == s.tasks[x]
              else if ev.Accept? then t == Task(ev.id, "", Greeting)
              else if ev.LookUp? then t == Task(s.tasks[x].id, ev.uuid, if ev.uuid in s.peers then Paired(s.peers[ev.uuid]) else Unpaired)
              else
                && t.id == s.tasks[x].id && t.uuid == s.tasks[x].uuid
                && (t.phase == Done <==> ev.Reject? || ev.Unpark? || ev.LeaveUsage?)
                && (t.phase.Sleeping? <==> ev.Park?) && (ev.Park? ==> t.phase.wake == s.now + 30_000)
                && (t.phase.Relaying? <==> ev.EnterUsage? || ev.Sample?) && (t.phase.Ended? <==> ev.Finish?)
                && (ev.EnterUsage? || ev.Sample? || ev.Finish? ==> PeerOf(t.phase) == PeerOf(s.tasks[x].phase))
  {
  }

  /** A relay starts exactly when a look-up finds a stream, and with that stream; time passes only while all wait. */
  lemma StartsAndTime(s: State, ev: Event)
    requires Enabled(s, ev)
    ensures Step(s, ev).started == s.started + (if ev.LookUp? && ev.uuid in s.peers then [(ev.c, s.peers[ev.uuid])] else [])
    ensures Step(s, ev).now == if ev.Wait? then ev.until else s.now
    ensures ev.Wait? ==> s.now <= ev.until && forall c :: c in s.tasks && s.tasks[c].phase.Sleeping? ==> ev.until <= s.tasks[c].phase.wake
    ensures ev.Unpark? ==> s.tasks[ev.c].phase.Sleeping? && s.tasks[ev.c].phase.wake <= s.now
  {
  }
}
