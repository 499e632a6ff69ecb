/** Addresses in all interleavings, heartbeats included. */
module OverlapForwarding {
  import opened Net
  import opened Database
  import Registry
  import opened Overlap
  import Forwarding

  /** Every record, in the map or not, has a sound address. */
  predicate AddrsSound(s: State, now: int) {
    forall h :: 0 <= h < |s.recs| ==> Forwarding.AddrSound(s.recs[h].peer, now)
  }

  lemma StepAddrs(s: State, ev: Event, before: int)
    requires AddrsSound(s, before) && Enabled(s, ev) && !ev.Arrive? && before <= ev.now
    ensures AddrsSound(Step(s, ev), ev.now)
  {
    assert AddrsSound(s, ev.now);
    if ev.Go? {
      GoAddrs(s, ev.c, ev.now, ev.env);
    }
  }

  lemma GoAddrs(s: State, c: Call, now: int, env: Registry.Env)
    requires AddrsSound(s, now) && Enabled(s, Go(c, now, env))
    ensures AddrsSound(Effect(s, c, now, env), now)
  {
    var s' := Effect(s, c, now, env);
    var phase := s.tasks[c].phase;
    if !Searching(phase) && !phase.Charging? && !phase.Recording? && !phase.Stamping? {
      RecordsStay(s, c, now, env);
    } else if Hand(phase).Some? {
      forall h | 0 <= h < |s'.recs| ensures Forwarding.AddrSound(s'.recs[h].peer, now) {
        NoNewEntry(s, c, now, env);
        assert Forwarding.AddrSound(s.recs[h].peer, now);
        if Hand(phase) != Some(h) {
          OtherRecords(s, c, now, env, h);
        }
      }
    }
  }

  /** Time does not go back: `clock[i]` is the time before event `i`. */
  predicate Clocked(tr: seq<Event>, clock: seq<int>) {
    && |clock| == |tr| + 1
    && forall i :: 0 <= i < |tr| ==> clock[i] <= clock[i + 1] && (!tr[i].Arrive? ==> tr[i].now == clock[i + 1])
  }

  /** However registrations, loads and heartbeats interleave, and whatever the table answers: at every moment
      the address in every record is blank, or has the ip recorded with it, or is loopback. */
  lemma {:induction false} RunAddrs(states: seq<State>, tr: seq<Event>, clock: seq<int>, k: nat)
    requires Path(states, tr) && Clocked(tr, clock) && AddrsSound(states[0], clock[0]) && k <= |tr|
    ensures AddrsSound(states[k], clock[k])
  {
    if k == 0 {
    } else {
      RunAddrs(states, tr, clock, k - 1);
      var i := k - 1;
      assert clock[i] <= clock[i + 1];
      if !tr[k - 1].Arrive? {
        StepAddrs(states[k - 1], tr[k - 1], clock[k - 1]);
      }
    }
  }

  /** So a request that finds a record, and finds it online, goes to the recorded ip or to loopback. */
  lemma ForwardToInfo(states: seq<State>, tr: seq<Event>, clock: seq<int>, k: nat, h: Handle, now: int)
    requires Path(states, tr) && Clocked(tr, clock) && AddrsSound(states[0], clock[0]) && k <= |tr| && h < |states[k].recs|
    requires var p := states[k].recs[h].peer;
             clock[k] <= now && Registry.Online(p, now) && Elapsed(p.lastRegTime, now) < 0x8000_0000
    ensures var p := states[k].recs[h].peer; p.socketAddr.ip.IsLoopback() || Some(p.socketAddr.ip) == p.infoIp
  {
    RunAddrs(states, tr, clock, k);
    assert Forwarding.AddrSound(states[k].recs[h].peer, clock[k]);
    Forwarding.OnlineExactly(states[k].recs[h].peer, now);
  }
}
