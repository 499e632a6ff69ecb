# Verified model of a rendezvous and relay server

This project models the stateful core of the two server programs and proves what holds over all
their runs: `hbbs`, which registers peers and introduces them to each other, and `hbbr`, which
relays between peers that cannot connect directly.

* **Per-IP gate** (`IpBlocker.dfy`): the hit counter and the id set in front of RegisterPk, with the
  operator's `ib` command.
* **Registry** (`Database.dfy`, `Registry.dfy`): peers cached in memory over the peer table; the handlers
  for RegisterPk, RegisterPeer, PunchHoleRequest and key lookups, and loads of rows that end later than
  they began, are steps of one state machine. `Answers.dfy` says from outside what each message is
  answered and what it changes, with exact conditions. `Binding.dfy`, `Ledger.dfy`, `RegisterLimits.dfy` and
  `Forwarding.dfy` hold what is proved about its runs. `Server.dfy` has the same handlers on mutable
  objects (shared peer records, the map, the table, the gate), each method proved to be exactly one step.
* **Overlapping registrations** (`Overlap.dfy`): the same RegisterPk handler, loads and heartbeats cut at
  every await, any number of them at once, on records reached through shared handles. A call alone is
  proved to be the registry's step. `OverlapBinding.dfy`, `OverlapKeys.dfy`, `OverlapForwarding.dfy` and
  `OverlapLimits.dfy` have what holds of uuids, keys, addresses and the per-id limit in all interleavings,
  `OverlapRuns.dfy` runs of two calls.
* **Online bitmap** (`OnlineBitmap.dfy`, method `Server.RendezvousServer.PeersOnlineState`).
* **Relay servers** (`RelayPool.dfy`): rotation, health checks and reconfiguration, with the main loop's
  lists and the copies its tasks work on. `RelayLists.dfy` has which servers can be handed out,
  `Rotation.dfy` and `RelayFairness.dfy` how evenly.
* **Sinks** (`Sinks.dfy`, `SinkLaws.dfy`): who owns the writing half of a connection, and to whom it is
  delivered, over interleaved connections.
* **Pairing** (`Pairing.dfy`, `PairingLaws.dfy`): interleaved `make_pair_` runs over the shared maps PEERS
  and USAGE.
* **Relay session** (`RelaySession.dfy`, `RelayProofs.dfy`): the copy loop with its accounting.

A specification is a function on values; a run is a sequence of events. Statements about a time window
start from an arbitrary state, so they hold for every window of every run. Where the source changes
objects in place a class does the same, and its methods' contracts equate the new state with the
specification function applied to the old one.

## Modelling choices

* Time is in integer milliseconds, with one reading per handler call; a relay turn has separate
  readings for the arm, the sample and the restart of the sample clock. `elapsed().as_secs() > k` is
  truncated to whole seconds, and `as_millis() as i32` wraps to 32 bits.
* `get_expired_time` is taken to be one hour ago: the machine has been up that long.
* An IP address is its numeric value; its text, which the source compares, determines it. A missing
  `info.ip` is `None`, and the JSON of `info` round-trips.
* The random guid of an insert and the success of each table read and write are inputs of the event.
* `usize` counters are unbounded, except for the rotation counter, which wraps at 2^64. The floating
  point downgrade threshold is an exact floor.
* Id length is counted in the bytes of the id's text.
* One event of the registry is one whole handler call, or one half of a load: a UDP punch-hole request
  for an id that is not in memory is spawned (`src/rendezvous_server.rs:438-443`), so its row is read in
  one event and put into memory in a later one (`src/peer.rs:137-151`), with any events between. An insert
  that falls inside a RegisterPk call for the same id counts as after it, since that call goes on writing
  to the record it holds. The rest of a spawned request reads memory only and is a punch-hole event.
* RegisterPk calls that overlap, as calls on different TCP connections can, are the subject of `Overlap`.
  Its events are the pieces of a call between two lock or table operations, beginning after the format
  checks and the per-IP gate. A heartbeat is one piece, on any record its sender may have looked up before.
  Restarts are not among the events.
* The server object is cloned for every connection and spawned request (`src/rendezvous_server.rs:439`,
  `1290`, `1331`), and a clone keeps the relay list it was made with. In `RelayPool` a task is such a clone.
* In `Pairing` and `Sinks` an event is what happens between two awaits. Timers fire on time in
  `Pairing`; in `Sinks` time plays no part. Map keys made from addresses are arbitrary and may collide.

## Where the code departs from what one might expect

* `SilentForWeeksIsOnline`: after about 25 days without contact the 32-bit cast makes a peer count as
  online again. `OnlineExactly` says for which silences this happens.
* `SoundIffReadFindsTheRow`: a table read that fails during RegisterPk looks like a missing row, and
  lets any uuid take the id over in memory. Reads that fail anywhere else do no harm.
* `RestartKeepsBindingIff`: a binding whose row was never written does not survive a restart.
* `LateLoadSyncedIff`: a load that ends after a registration wrote the row puts the outdated row over the
  newer record. Memory and table then disagree, exactly if the row changed since it was read; the uuid
  is safe (`LoadSound`), the signed key is the old one (`LateLoadSigns`), and the peer counts as
  offline (`LateLoadTakesOffline`). `LateLoadRevivesOldKey` is a run that gets there.
* `NewIdInStepIff`: registrations of a new id that overlap are all accepted while its record is blank. Memory
  and row end in step exactly if the last call to write the record in the map named the uuid of the call
  whose insert succeeded, or that record was loaded and not written since, or nothing was inserted. So
  calls with different uuids split or not by the order of their inserts (`InsertOrderDecides`); every
  interleaving is safe exactly if all calls name the same uuid (`AlwaysInStepIff`).
* `KnownIdStaysBound`: overlapping calls for an id that has a row keep its uuid exactly as long as no
  registration enters a blank record over the row, which takes a read that failed.
* `KeyInStepIff`: they can hold two records of the id, though, and a load can end late. Key and address in
  memory and row agree exactly if those of the last call to write the record in the map, or of the row it
  was loaded from, are those of the last call to write the row. `TwoRecordsDisagree` is a run where they
  do not. Every interleaving is safe exactly if no registration says anything new that the identity check
  would let pass (`KeysAlwaysInStepIff`).
* `OverlapLimits.SevenSecondWindow`: the per-id limit of three is read and charged under separate locks. A
  record is charged at most three times in 7 s, and three times more for every charge that was overtaken
  by another. `AnyNumberOk` is a run with any number of OK answers at one instant.
* `HeartbeatAfterOk`: an OK registration is followed by a refused heartbeat from its own ip exactly if it
  came without WebSocket, said nothing new and found a loopback address stored. `LoopbackBeatSticks` is a
  run that gets there.
* `WsMapOutlivesConnection`: unlike `tcp_punch`, `ws_map` keeps sinks of closed connections, exactly until
  a punch-hole request is delivered to the key or another WebSocket registers under it.
* `CrossingLookUpsMiss`: two relay connections that look up before either parks never meet. `SameUuidMeets`
  says exactly which do.
* `StaleCheckRevivesOldList`: a health check begun before a reconfiguration can undo it.
  `ReconfigurationLastsIff` says exactly when one lasts, on the main loop and for everyone.
* `TaskHandsOutItsSnapshot`: neither a reconfiguration nor a health check reaches a connection that is open
  already; it goes on handing out the servers that were active when it was accepted. `CanHandOutIff`
  says exactly which servers can still be handed out.
* `AlwaysFairIff`: all tasks turn one counter, so the rotation is fair exactly while all lists in use are
  equally long. `OldListStarves` is a run in which one of two servers never comes up for new callers,
  and `PruneSplitsLists` how it is reached.
* The environment tables of the repository's own README files give the unit of DOWNGRADE_THRESHOLD as
  bit/ms; the code uses it as a fraction of the single bandwidth (`src/relay_server.rs:481-482`), and
  so does the model.

## Model

| member | source | states |
|---|---|---|
| IpBlocker.Blocker.Check | src/rendezvous_server.rs:1085-1113 | one check in place: table and verdict are those of the specification, on all four paths |
| IpBlocker.Blocker.PruneOrDelete | src/rendezvous_server.rs:1158-1182 | the `ib` command in place: prune, then forget the named address |
| IpBlocker.VerdictIff | src/rendezvous_server.rs:1085-1113 | the answer with its exact condition: the first check passes; a later one unless 31 hits came without 61 s of quiet, or the id is new while 301 are held that are not 86401 s old |
| IpBlocker.EntryAfter | src/rendezvous_server.rs:1085-1113 | what a check leaves: which hit count, which ids and which stamps, in every case, and every other address as it was |
| IpBlocker.PruneIff | src/rendezvous_server.rs:1158-1182 | the `ib` command drops exactly the entries whose minute and day are both over, and the named one |
| IpBlocker.PruningIsUnseen | src/rendezvous_server.rs:1158-1163 | pruning changes no later answer |
| IpBlocker.HeldAreAccepted | src/rendezvous_server.rs:1098-1111 | while a set is neither opened afresh nor dropped it holds exactly what it held and the ids accepted since |
| IpBlocker.HitsAreTheSpell | src/rendezvous_server.rs:1088-1096 | the hit counter is what the times of the checks say |
| IpBlocker.AcceptedIff | src/rendezvous_server.rs:1085-1113 | over such a run: an id held or accepted is accepted again by every check that does not find 31 hits without 61 s of quiet, a new one exactly while fewer than 301 are held or the set is stale |
| IpBlocker.HitBudgetStep | src/rendezvous_server.rs:1088-1096 | no event inside a window shorter than 61 s gives an address more than it takes from its remaining allowance |
| IpBlocker.MinuteWindow | src/rendezvous_server.rs:1085-1113 | from any table, a window shorter than 61 s accepts at most 32 checks of an address, plus 32 per hand deletion |
| IpBlocker.BurstIsCutAt32 | src/rendezvous_server.rs:1088-1111 | the bound is reached: a burst from an unknown address gets exactly its first 32 accepted |
| IpBlocker.AlwaysBounded | src/rendezvous_server.rs:1090-1107 | in every reachable table counters are at most 31 and id sets at most 301 |
| IpBlocker.OneSetAcceptsAtMost302 | src/rendezvous_server.rs:1098-1111 | from one creation or clearing of an id set to the next, at most 302 distinct ids are accepted |
| IpBlocker.DayWindow | src/rendezvous_server.rs:1098-1111 | any window shorter than 86401 s accepts at most 603 distinct ids from an address, plus 302 per hand deletion |
| Database.Table.GetPeer | src/database.rs:96-104 | finds the row of an id exactly if the read succeeds and there is one |
| Database.Table.InsertPeer | src/database.rs:106-125 | inserts, or fails without effect on a failed write, a taken guid or a taken id; ids stay unique |
| Database.Table.UpdatePk | src/database.rs:127-145 | updates id, pk and info of the guid's row, never its uuid; ids stay unique |
| Database.InsertKeeps | src/database.rs:114-123 | an insert keeps every row and both uniqueness constraints, and adds exactly its own id |
| Database.UpdateKeeps | src/database.rs:134-143 | an update under the row's own id cannot violate a constraint, adds no id and keeps every uuid |
| Database.WriteIff | src/database.rs:106-145 | each write with its exact condition and effect, taken ids, taken guids and missing rows included |
| Server.PeerMap.Get | src/peer.rs:136-155 | without pause: memory first, then the table; a loaded row stays in memory under a record of its own |
| Server.PeerMap.ReadRow | src/peer.rs:140 | the query alone: the row of the id if the read succeeds and there is one, whatever memory holds by then |
| Server.PeerMap.InsertLoaded | src/peer.rs:141-152 | what follows it, possibly later: a new record replaces whatever memory holds for the id by then |
| Server.PeerMap.Enter | src/peer.rs:162-168 | the second look under the write lock: a record that has appeared is used, else a blank one is entered |
| Server.PeerMap.GetOr | src/peer.rs:158-169 | as Get, then Enter: the id is in memory in any case |
| Server.PeerMap.SetPeer | src/peer.rs:104-109 | writing through a shared handle changes the record of that id and of no other |
| Server.PeerMap.UpdatePk | src/peer.rs:93-133 | memory is written first, then the row; the answer is whether the row was written |
| Server.PeerMap.WriteBack | src/peer.rs:115-131 | for the guid found in the record: none means an insert, whose guid is noted if it succeeds, another an update of that row; the answer is whether the table took it |
| Server.RendezvousServer.HandleRegisterPk | src/rendezvous_server.rs:680-776 | the whole handler in place is one registry step with the same answer |
| Server.RendezvousServer.RegisterFound | src/rendezvous_server.rs:699-769 | identity check, per-id limit and update in place are the specified step |
| Server.RendezvousServer.UpdateAddr | src/rendezvous_server.rs:779-810 | the heartbeat handler in place is the specified step |
| Server.RendezvousServer.GetPk | src/rendezvous_server.rs:1410-1432 | key lookup in place; what is signed is the specified pair |
| Server.RendezvousServer.HandlePunchHole | src/rendezvous_server.rs:885-998 | decision and destination of a punch-hole request are the specified ones |
| Server.RendezvousServer.StartLoad | src/rendezvous_server.rs:438-443 | a spawned load up to its query's answer, which may come after the id has entered memory, is the specified step |
| Server.RendezvousServer.EndLoad | src/peer.rs:141-152 | its end, after any number of other handlers, is the specified step |
| Server.RendezvousServer.PeersOnlineState | src/rendezvous_server.rs:664-678 | the loop packs exactly the online bits of the ids asked for: ceil(n/8) bytes, left to right, zero padding |
| Answers.PunchHoleAnswers | src/rendezvous_server.rs:893-945 | LICENSE_MISMATCH, the two login failures, ID_NOT_EXIST, OFFLINE and forwarding, each exactly when, for every request in every state, and what is left in memory |
| Answers.HeartbeatAnswers | src/rendezvous_server.rs:779-810 | a heartbeat is accepted exactly from a peer in memory with a key, where it was last heard or is recorded, or over loopback; it then notes address and time, and nothing else ever |
| Answers.LoopbackIff | src/rendezvous_server.rs:787 | which addresses are loopback |
| Answers.KeyAnswers | src/rendezvous_server.rs:1410-1432 | a key is signed exactly if the asker can check it and the id can be found: the key in memory, else the row's |
| Answers.LookupShows | src/peer.rs:136-169 | a lookup shows memory, else the row, else a blank peer, both unheard for an hour; it changes that one record |
| Answers.RegisterAnswers | src/rendezvous_server.rs:680-745 | INVALID_ID_FORMAT, UUID_MISMATCH, TOO_FREQUENT and OK, each exactly when, whatever the table does |
| Answers.RegisterAnswersByLedger | src/rendezvous_server.rs:680-745 | the same where memory and table agree: the identity verdict is the ledger's |
| Answers.RegisterAnswersByHistory | src/rendezvous_server.rs:680-745 | the same over runs from the start, by the last OK registration and the times of the OK answers alone |
| Answers.RegisterChanges | src/rendezvous_server.rs:694-769 | what a registration leaves in gate, memory and table, whatever its answer, and that it touches no other id |
| Answers.OtherEvents | src/peer.rs:137-151 | what a load, its end, a restart and the `ib` command change, and that they change nothing else |
| OnlineBitmap.SetOne | src/rendezvous_server.rs:669-673 | or-ing the shifted bit in sets the bit of one peer and touches no other |
| OnlineBitmap.ByteSpelledOut | src/rendezvous_server.rs:669-673 | the value of each byte: its first peer is worth 0x80, its last 0x01, offline and missing ones nothing |
| OnlineBitmap.WidthIsLeast | src/rendezvous_server.rs:665 | as few bytes as will do |
| OnlineBitmap.DecodePacked | src/rendezvous_server.rs:664-678 | a client that decodes the answer gets back the status list, for any number of peers |
| OnlineBitmap.PackingIsUnique | src/rendezvous_server.rs:664-678 | no other byte string carries the same statuses with zero padding |
| RegisterLimits.SevenSecondWindow | src/rendezvous_server.rs:736-745 | any window shorter than 7 s holds at most 3 OK answers for an id, from any addresses and uuids, plus 3 per restart or late load over its record |
| RegisterLimits.FirstThreeAreOk | src/rendezvous_server.rs:736-745 | the bound is reached: of equal registrations at one instant exactly the first three are answered OK |
| RegisterLimits.CounterIsHistory | src/rendezvous_server.rs:736-745 | the per-id counter is the number of OK answers in a row without 7 s between them, its stamp the last of them |
| RegisterLimits.MinuteOfRegistrations | src/rendezvous_server.rs:694-697 | any window shorter than 61 s holds at most 32 OK answers to an address, plus 32 per restart or hand deletion |
| Binding.StepSound | src/rendezvous_server.rs:698-767 | with failing writes and late loads, memory, loads and rows never disagree about a uuid, a guid never points at another id's row, and no row is lost or renamed |
| Binding.LoadSound | src/peer.rs:137-151 | however late a row reaches memory, it has the guid and uuid of the record it replaces, and binding and guids stay sound |
| Binding.MemoryKeepsUuid | src/rendezvous_server.rs:704-728 | a uuid in memory is never replaced while the server runs: not by a handler, whatever the table does, and not by a late load in a sound state |
| Binding.BindingIsPermanent | src/rendezvous_server.rs:698-767 | an id once bound to a uuid stays bound to it over every run, through failing writes, late loads, and restarts after its row was written |
| Binding.TableKeepsRows | src/database.rs:106-145 | whatever the table answers, failing reads included: over every run no row is lost, renamed or given another uuid, and ids stay unique |
| Binding.OkBinds | src/rendezvous_server.rs:701-728 | an OK answer binds the id to its uuid; an id bound to another uuid gets no OK |
| Binding.RestartKeepsBindingIff | src/peer.rs:115-131 | a restart keeps a binding exactly if the id has a row |
| Binding.SoundIffReadFindsTheRow | src/peer.rs:140-167 | a registration keeps memory and table in step exactly if its read does not miss an existing row |
| Binding.MissedRowTakesOver | src/peer.rs:140-167 | a missed row is answered OK under any uuid and stays as it was |
| Binding.InterleavedSoundIff | src/rendezvous_server.rs:699-767 | two registrations of a new id, both checked while it was blank and recorded one whole after the other, keep memory and table in step exactly if they name the same uuid |
| Binding.InterleavedRegistrationsSplit | src/rendezvous_server.rs:699-767 | the failing half of that in full: with two uuids both calls pass their checks, memory ends with the second and the row with the first |
| Overlap.AloneIsRegisterKnown | src/rendezvous_server.rs:698-769 | the pieces of a call that nothing comes between amount to the registry's step, with the same answer, whatever other calls are halfway |
| Overlap.AloneIsGet | src/peer.rs:136-155 | the pieces of a lookup that nothing comes between are the registry's `get` |
| Overlap.RowsSurviveOverlap | src/database.rs:106-145 | in every interleaving, whatever the table answers, no row is lost, renamed or given another uuid |
| OverlapBinding.KnownIdStaysBound | src/rendezvous_server.rs:698-769 | however calls for an id that has a row overlap, with late loads and whatever the table answers, row and memory agree on its uuid at every moment exactly if no registration enters a blank record |
| OverlapBinding.StepKnownIff | src/peer.rs:136-169 | one piece of one call breaks that agreement exactly if it enters a blank record for the id |
| OverlapBinding.KnownAnswers | src/rendezvous_server.rs:701-728 | as long as they agree, no other uuid has been answered OK |
| OverlapBinding.NewIdInStepIff | src/peer.rs:93-133 | after any number of overlapping calls for a new id, whatever the table answers, memory and row are in step exactly if the last writer of the record in the map named the inserter's uuid, or that record is as loaded, or nothing was inserted |
| OverlapKeys.KeyInStepIff | src/peer.rs:93-155 | at any moment of any run, whatever the table answers, memory has key and address of the last call to write the record in the map or else of the row it was loaded from, the row those of the last call to write it or else what it had, and they agree exactly if these do |
| OverlapKeys.KeysAlwaysInStepIff | src/rendezvous_server.rs:701-728 | key and address of a known id stay in step in every interleaving, blank records apart, exactly if no registration under its uuid says anything new that the identity check would let pass |
| OverlapKeys.NothingMoves | src/rendezvous_server.rs:701-728 | the safe half at every moment, calls under way or not: memory and row go on saying what the row said |
| OverlapKeys.LateLookUp | src/peer.rs:137-151 | the unsafe half as a run from the start: a lookup reads the row, a registration changes it, the lookup's load puts the old row into memory |
| OverlapRuns.InsertOrderDecides | src/peer.rs:103-116 | after the same two memory writes one order of the inserts ends in step whatever the uuids, the other only if they are equal; the one new row says what the first to insert said; both are reached from the start |
| OverlapRuns.AlwaysInStepIff | src/rendezvous_server.rs:699-767 | overlapping registrations of a new id are safe in every interleaving, whatever the table answers, exactly if they all name the same uuid |
| OverlapRuns.TwoRecordsDisagree | src/peer.rs:137-151 | two calls that load a known id at once are both answered OK and leave one key in memory and the other in the row |
| OverlapLimits.AllPassTogether | src/rendezvous_server.rs:736-745 | any number of calls that read the counter before one of them charges it pass the per-id limit, and all write the same count |
| OverlapLimits.SevenSecondWindow | src/rendezvous_server.rs:736-745 | in every interleaving a window shorter than 7 s holds at most 3 charges of a record, plus 3 per charge whose count another call had reached or passed meanwhile |
| OverlapLimits.GrantedByCharge | src/rendezvous_server.rs:743-769 | a call is past its charge exactly from charging a record on, and from then on its answer is OK: every OK answer has its charge |
| OverlapLimits.AnyNumberOk | src/rendezvous_server.rs:736-745 | a run from the start, without any failure, in which any number of equal registrations are answered OK at one instant and the counter ends at one |
| Overlap.BeatIsUpdateAddr | src/rendezvous_server.rs:779-810 | a heartbeat on the record in the map is the registry's step |
| OverlapForwarding.RunAddrs | src/rendezvous_server.rs:779-802 | however registrations, loads and heartbeats interleave, the address in every record is blank, or has the ip recorded with it, or is loopback |
| OverlapForwarding.ForwardToInfo | src/rendezvous_server.rs:930-935 | so a request that finds any record online goes to the ip recorded in it, or to loopback |
| Ledger.LookupShowsEntry | src/peer.rs:136-169 | a looked-up peer shows the row of its id, or is blank if there is none |
| Ledger.IdentityVerdict | src/rendezvous_server.rs:701-728 | UUID_MISMATCH is decided by the table row alone: another uuid, or a new key from a new address; a new id is always accepted |
| Ledger.RegisterRefines | src/rendezvous_server.rs:698-769 | a registration changes the row of its own id if answered OK, to what it said, and nothing else |
| Ledger.LedgerIsLastOk | src/peer.rs:93-169 | after any run with successful table calls, restarts and current late loads included, memory agrees with the one row per id, which holds the last registration answered OK |
| Ledger.SignedKey | src/rendezvous_server.rs:1414-1429 | the signed key is the one of the row, in memory or not |
| Ledger.RestartIsTransparent | src/peer.rs:84-91 | a restart changes no identity verdict, no signed key and no recorded row; only a frequency refusal can be lifted |
| Ledger.LateLoadSyncedIff | src/peer.rs:137-151 | a row put into memory late keeps memory and table in step exactly if it is unchanged since it was read |
| Ledger.LateLoadSigns | src/peer.rs:137-151 | from then on the key that was read is signed, the right one exactly if the row still has it |
| Ledger.LateLoadRevivesOldKey | src/peer.rs:137-151 | a run from the start in which a registration with a new key is answered OK, a late load ends, and the old key is signed while the row has the new one |
| Ledger.MemoryHoldsLastOk | src/peer.rs:104-109 | whatever table reads and writes do, until a restart memory holds for every id its last registration answered OK, unless an outdated row is put over it |
| Forwarding.OnlineExactly | src/rendezvous_server.rs:668-672 | which silences count as online under the 32-bit cast, and that below 2^31 ms it is those under 30 s |
| Forwarding.SilentForWeeksIsOnline | src/rendezvous_server.rs:933-935 | twenty-five days of silence count as online |
| Forwarding.BitAgreesWithPunchHole | src/rendezvous_server.rs:930-941 | in every state a request that passes the checks is forwarded exactly if the online bit is set; otherwise OFFLINE or ID_NOT_EXIST, by whether the id is known |
| Forwarding.RunAddrs | src/rendezvous_server.rs:779-802 | in every reachable state a stored address is blank, or has the recorded ip, or is loopback |
| Forwarding.ForwardToInfo | src/rendezvous_server.rs:930-935 | a request is forwarded to the recorded ip or to loopback |
| Forwarding.ForwardGoesToLastRegistration | src/rendezvous_server.rs:779-802 | whatever the table does, until a restart that ip is the one of the id's last registration answered OK, unless an outdated row is put over it |
| Forwarding.ForwardAfterRestarts | src/rendezvous_server.rs:779-802 | the same over runs with restarts and successful table calls; with no registration in the run, the ip is the table's |
| Forwarding.LateLoadTakesOffline | src/peer.rs:137-151 | after a late load requests for the id are answered OFFLINE and its bit is clear until it is heard from |
| Forwarding.HeartbeatMakesReachable | src/rendezvous_server.rs:789-792 | for 30 s after an accepted heartbeat, requests are forwarded to the address it came from |
| Forwarding.RegistrationMakesReachable | src/rendezvous_server.rs:765-769 | for 30 s after an OK registration, the address chosen for requests is where it came from if it was over a WebSocket or said something new; otherwise presence is what it was |
| Forwarding.HeartbeatAfterOk | src/rendezvous_server.rs:783-788 | after an OK registration a heartbeat from its ip is refused exactly if the registration came without WebSocket, said nothing new, and found a loopback address stored |
| Forwarding.LoopbackBeatSticks | src/rendezvous_server.rs:783-788 | that case is reached: register, beat over loopback, register again, both OK, and the next heartbeat is asked for the key |
| RelayPool.Pool.GetRelayServer | src/rendezvous_server.rs:1121-1129 | the element under the shared counter, which advances, and wraps, only on lists of two or more |
| RelayPool.Pool.OnData | src/rendezvous_server.rs:317-323 | a reconfiguration replaces both lists of this object, a health report the active one |
| RelayPool.Pool.Clone | src/rendezvous_server.rs:120-130 | a clone has the lists of this moment and the same counter |
| RelayPool.CheckRelayServers | src/rendezvous_server.rs:1506-1531 | the list of answers, in order of arrival, is a sub-bag of the checked list |
| RelayPool.Hbbs.CheckTimer | src/rendezvous_server.rs:308-316 | a check of the configured list is started if that has two servers or more |
| RelayPool.Hbbs.FinishCheck | src/rendezvous_server.rs:1525-1530 | a finished check reports its answers, if any |
| RelayPool.Hbbs.SendConfiguration | src/rendezvous_server.rs:1149-1151 | the operator's list is queued for the main loop |
| RelayPool.Hbbs.TakeMessage | src/rendezvous_server.rs:317-323 | a message changes the main loop's object and no task's |
| RelayPool.Hbbs.SpawnTask | src/rendezvous_server.rs:1329-1336 | a connection's task starts with the list active now |
| RelayPool.Hbbs.EndTask | src/rendezvous_server.rs:1333-1336 | a task that ends takes its list with it |
| RelayPool.Hbbs.GetRelayServer | src/rendezvous_server.rs:1121-1129 | each caller hands out from its own list and turns the counter of all |
| RelayLists.HealthChecksOnlyPrune | src/rendezvous_server.rs:308-322 | without operator commands every list in use, of the main loop or a task, is always a non-empty part of the configured one, however checks overlap |
| RelayLists.ActiveWasOnceConfigured | src/rendezvous_server.rs:308-322 | with operator commands every list in use is part of some list once configured, and empty only if one of those is |
| RelayLists.EventChanges | src/rendezvous_server.rs:308-323 | what each event does to lists, checks, messages and tasks, and that it does nothing else |
| RelayLists.TaskKeepsItsList | src/rendezvous_server.rs:1329-1336 | a task holds the list that was active when it was spawned, exactly until it ends |
| RelayLists.TaskHandsOutItsSnapshot | src/rendezvous_server.rs:1329-1336 | a server handed out by a task is in the list that was active when the task was spawned |
| RelayLists.StaleCheckRevivesOldList | src/rendezvous_server.rs:308-321 | a run in which a check begun before a reconfiguration brings the old list back |
| RelayLists.CheckCanLeaveIff | src/rendezvous_server.rs:1506-1531 | a running check can report servers outside the configured list exactly if its own list is not inside it |
| RelayLists.MainStaysInsideIff | src/rendezvous_server.rs:308-322 | with no reconfiguration pending, the main loop's list stays inside the configured one on every further run exactly if it, all running checks and all queued reports are inside now |
| RelayLists.StaysInsideIff | src/rendezvous_server.rs:308-322 | every list in use does exactly if the lists held by tasks are inside as well |
| RelayLists.ReconfigurationLastsIff | src/rendezvous_server.rs:317-321 | a reconfiguration takes effect on the main loop at once; it lasts there exactly if no running check and no queued report names servers beyond the new list, and for everyone exactly if no task's list does either |
| RelayLists.CanHandOutIff | src/rendezvous_server.rs:1121-1129 | with no reconfiguration pending, a server can still be handed out exactly if it is in a list in use, under check, queued, or about to be checked |
| Rotation.RotationIsFair | src/rendezvous_server.rs:1127-1128 | m turns without wrap on lists of length n come to each position floor(m/n) or ceil(m/n) times |
| Rotation.FairAcrossTheWrap | src/rendezvous_server.rs:1127-1128 | over the wrap the turns before and after it are fair separately |
| RelayFairness.CounterCountsTurns | src/rendezvous_server.rs:1127-1128 | whoever calls, with lists of whatever lengths, the counter counts all turns together, modulo 2^64 |
| RelayFairness.PicksAreHits | src/rendezvous_server.rs:1121-1129 | while all lists turns are taken on have one length, the positions handed out are those of the counter's rotation, whoever calls and whatever happens between calls |
| RelayFairness.CallsAreFair | src/rendezvous_server.rs:1121-1129 | so in such a run the m turns hand out each position floor(m/n) or ceil(m/n) times |
| RelayFairness.AlwaysFairIff | src/rendezvous_server.rs:1121-1129 | until the main loop takes its next message, every run is fair for lists of every length exactly if all lists in use with two servers or more are equally long, wraps of the counter apart |
| RelayFairness.OldListStarves | src/rendezvous_server.rs:1127-1128 | a task with an old list of three, in turn with callers with a list of two, keeps the second server of these from ever coming up |
| RelayFairness.PruneSplitsLists | src/rendezvous_server.rs:308-321 | a health check that prunes one of three servers while a connection is open leads to that state |
| Sinks.SinkMaps.ParkSink | src/rendezvous_server.rs:523-535 | the local sink moves into `tcp_punch`, replacing what is there |
| Sinks.SinkMaps.ParkWsSink | src/rendezvous_server.rs:605-609 | the local sink of a WebSocket moves into `ws_map`, replacing what is there |
| Sinks.SinkMaps.TakeTcpSink | src/rendezvous_server.rs:1020-1043 | the sink under a key is taken out for its last message |
| Sinks.SinkMaps.TakeWsSink | src/rendezvous_server.rs:1055-1060 | the same for `ws_map` |
| Sinks.SinkMaps.OpenTask | src/rendezvous_server.rs:1339-1380 | a new connection holds its own sink |
| Sinks.SinkMaps.HandleTcp | src/rendezvous_server.rs:490-662 | every message branch, up to its first await, is the specified step: which sink moves and whether reading goes on |
| Sinks.SinkMaps.AnswerPunchHole | src/rendezvous_server.rs:1046-1064 | the answer takes the target's sink from `ws_map`, or the asker's own from `tcp_punch` |
| Sinks.SinkMaps.StopReading | src/rendezvous_server.rs:1367-1401 | the reading loop is left on a timeout or the end of the stream, with the sink where it is |
| Sinks.SinkMaps.SendAndDrop | src/rendezvous_server.rs:1020-1033 | a sink in a sender's hand transmits once and is gone |
| Sinks.SinkMaps.CloseTask | src/rendezvous_server.rs:1402-1406 | a closing connection without sink clears its key in `tcp_punch` |
| Sinks.SinkIsOwnedOnce | src/rendezvous_server.rs:490-662 | over all interleavings a sink is in at most one place, and once parked transmits at most one message, then is nowhere |
| Sinks.PunchMapHoldsOpenConnections | src/rendezvous_server.rs:1339-1407 | every `tcp_punch` entry belongs to an open connection and lies under its key; all closed, the map is empty |
| Sinks.SinkIsKeptUnlessLost | src/rendezvous_server.rs:1339-1407 | a sink vanishes exactly by its last message, its own closing, or another connection with the same key |
| Sinks.ClosedSinkIsInWsMapOrLeaving | src/rendezvous_server.rs:1402-1404 | after closing, a sink can be left only in `ws_map` or on its way out |
| Sinks.WsMapOutlivesConnection | src/rendezvous_server.rs:605-609 | a sink parked by a registration is in `ws_map` exactly until a punch-hole request is delivered to its key or another WebSocket sink is parked there; closing plays no part |
| Sinks.ClosedWebSocketLeavesSink | src/rendezvous_server.rs:1402-1404 | so a WebSocket that registers and closes leaves its sink behind |
| SinkLaws.LeavingIff | src/rendezvous_server.rs:1020-1060 | a sink is taken for a message exactly by a reply to its key, the answer to an asker with that key, or a request for the WebSocket there, and is in hand until that is sent |
| SinkLaws.PunchMapIff | src/rendezvous_server.rs:523-535 | an entry of `tcp_punch` is there exactly from its parking until a reply, an answer, another parking or a closing clears its key |
| SinkLaws.WsMapIff | src/rendezvous_server.rs:605-609 | the same for `ws_map` |
| SinkLaws.OwnedIff | src/rendezvous_server.rs:1339-1407 | a task has its sink exactly until it parks it or closes |
| SinkLaws.PhaseAfter | src/rendezvous_server.rs:490-662 | which messages a connection survives, and that it waits while a punch-hole request is answered |
| SinkLaws.ToldAfter | src/rendezvous_server.rs:1028-1033 | what a sink has transmitted since it was first parked |
| SinkLaws.PunchMapUntilCleared | src/rendezvous_server.rs:1018-1064 | over runs: a parked sink stays in `tcp_punch` exactly until its key is cleared |
| SinkLaws.ClearedIsDeliveredIff | src/rendezvous_server.rs:1018-1064 | over runs: the event that clears it delivers it exactly if it is a reply or an answer; otherwise the sink is nowhere |
| Pairing.Hbbr.LookUpPeer | src/relay_server.rs:434-435 | look-up and removal are one atomic step, and decide between pairing and parking |
| Pairing.Hbbr.ParkStream | src/relay_server.rs:453-454 | the stream is parked under its uuid, replacing what is there, for 30 s |
| Pairing.Hbbr.UnparkStream | src/relay_server.rs:455 | the uuid is removed, whoever is parked under it by then |
| Pairing.Hbbr.InsertUsage | src/relay_server.rs:437-438 | a relay enters its id into USAGE |
| Pairing.Hbbr.RemoveUsage | src/relay_server.rs:450 | a finished relay removes its id |
| Pairing.Hbbr.AcceptConn | src/relay_server.rs:425-427 | a new connection waits for its first message with its stream in hand |
| Pairing.Hbbr.RejectConn | src/relay_server.rs:427-433 | a timeout, another message, a wrong key or an empty uuid ends the task and drops its stream |
| Pairing.Hbbr.SampleUsage | src/relay_server.rs:545-548 | a running relay writes its id into USAGE again |
| Pairing.Hbbr.FinishRelay | src/relay_server.rs:444-449 | a relay that is over still has its USAGE entry |
| Pairing.StreamIsInOnePlace | src/relay_server.rs:425-461 | over all interleavings a stream is with its own connection, or parked under its uuid, or with one other, or gone |
| Pairing.NoStreamIsRelayedTwice | src/relay_server.rs:433-457 | no stream takes part in two relays, and both ends of a relay asked for the same uuid |
| Pairing.EntriesExpire | src/relay_server.rs:453-455 | every PEERS entry is at most 30 s old and its own sleeper will remove that uuid 30 s after parking |
| Pairing.UsageHasARelay | src/relay_server.rs:437-450 | every USAGE key is the id of a relay that still runs or is about to remove it, even if ids collide |
| Pairing.UsageIsExact | src/relay_server.rs:437-450 | with distinct ids USAGE lists exactly the active relays |
| Pairing.NoLeaks | src/relay_server.rs:425-461 | when all connections are done both maps are empty |
| Pairing.StreamIsKeptUnlessDropped | src/relay_server.rs:433-457 | a stream vanishes exactly by rejection, the end of its relay, or another action on its uuid while parked |
| Pairing.ParkedUntilTouched | src/relay_server.rs:453-455 | a parked stream stays parked exactly until a look-up, parking or waking acts on its uuid, and is never parked again |
| Pairing.SameUuidMeets | src/relay_server.rs:434-454 | a later look-up of the uuid is relayed to the parked stream exactly if no other look-up, parking or waking for that uuid came between |
| Pairing.CrossingLookUpsMiss | src/relay_server.rs:434-453 | look-ups before either parking always miss, and drop the first stream |
| PairingLaws.PeersIff | src/relay_server.rs:434-455 | an entry of PEERS is there exactly from its parking until a look-up, parking or waking with its uuid |
| PairingLaws.UsageIff | src/relay_server.rs:438-450 | an id is in USAGE exactly from when a relay enters or samples under it until one with that id is over |
| PairingLaws.PhaseAfter | src/relay_server.rs:425-457 | what each task does next, with whom, and for how long it sleeps |
| PairingLaws.StartsAndTime | src/relay_server.rs:434-444 | a relay starts exactly when a look-up finds a stream, and with that stream |
| RelaySession.Relay.constructor | src/relay_server.rs:471-484 | counters start at zero, the threshold is the floor of the configured fraction in bits per ms |
| RelaySession.Relay.Arm | src/relay_server.rs:486-530 | each arm of the select in place is the specified one |
| RelaySession.Relay.Sample | src/relay_server.rs:533-562 | the sample in place is the specified one |
| RelaySession.Relay.Loop | src/relay_server.rs:485-564 | the loop over any sequence of turns ends in the specified state, and stops where that does |
| RelayProofs.EveryBitIsCharged | src/relay_server.rs:490-517 | at every loop head and exit the two own limiters were charged what the shared one was, which is `total`, eight times the octets from both sides |
| RelayProofs.NormalLimiterTakesTheUnlimited | src/relay_server.rs:491-495 | the normal limiter is charged exactly the traffic received while neither downgraded nor black-listed at the last report |
| RelayProofs.ReportsSummarise | src/relay_server.rs:532-549 | each report is the sum of the sampled windows, the bits in them, the greatest window speed and the last |
| RelayProofs.AverageNeverExceedsPeak | src/relay_server.rs:305-318 | the printed average and current speeds never exceed the printed peak |
| RelayProofs.DowngradeIff | src/relay_server.rs:550-554 | a relay is downgraded exactly if at some report it was older than the start check and had received more bits than the threshold allows for the reported time, both summed over its windows |
| RelayProofs.LoopClocks | src/relay_server.rs:485-544 | whether the loop goes on, when its window was opened and when the last frame came, read off the turns alone |
| RelayProofs.EndsIff | src/relay_server.rs:485-536 | a relay ends by the end of a stream, a failed send, a tick after 31 s without a frame or a sample that finds it blocked, each exactly when, and no other way |
| RelayProofs.EndIsFinal | src/relay_server.rs:485-566 | after the end nothing changes |
| RelayProofs.ThresholdIsTheFloor | src/relay_server.rs:481-482 | the threshold is the greatest number of bits per ms within the percentage of the bandwidth |
| RelayProofs.DowngradeIsJustified | src/relay_server.rs:540-554 | a downgraded relay has a window that ran at the threshold or faster |
| RelayProofs.DowngradeIsSticky | src/relay_server.rs:491-495 | after a downgrade not one bit is charged to the normal limiter |
| RelayProofs.ForwardingIsFaithful | src/relay_server.rs:486-524 | each side is sent, in order and unmixed, the non-empty frames of the other, less the last one if sending it failed |
| RelayProofs.ElapsedIsRealTime | src/relay_server.rs:532-544 | reported time never runs ahead of the clock |
| RelayProofs.TimeoutIffSilence | src/relay_server.rs:525-529 | a turn times the relay out exactly if it is a tick after 31 s without a frame from either side |

## Left out

- IP_CHANGES: an operator statistic that no handler reads back.
- Message bodies of forwarded punch-hole requests (nat type, chosen relay server, local-address variant): no state depends on them; the choice of relay server is modelled by itself in `RelayPool`.
- UDP answers, configuration and software updates, NAT tests: stateless replies.
- Signing, key exchange, encryption and token verification: a token's validity is an input, a signature is the signed pair.
- Server.RendezvousServer.PeersOnlineState: one clock reading stands for the readings of the whole loop.
- Server.RendezvousServer.HandleRegisterPk: is one atomic step; `Overlap` models the handler with other calls running at its awaits, on values.
- RegisterLimits.SevenSecondWindow: bounds runs of whole handlers; the bound for calls that overlap is `OverlapLimits.SevenSecondWindow`, and counts per record.
- Ledger.LedgerIsLastOk: holds of runs of whole handlers; for overlapping calls `OverlapBinding.KnownIdStaysBound`, `NewIdInStepIff` and `OverlapKeys.KeyInStepIff` say what is left of it.
- Forwarding.RegistrationMakesReachable: gives the address chosen only; whether the message then finds a WebSocket sink, which serves one message, is in `Sinks.WsMapOutlivesConnection`.
- Binding.BindingIsPermanent: does not model rows written by other programs, or rows with an empty uuid.
- Pairing.UsageHasARelay: does not model the values under USAGE keys, which `RelayProofs.ReportsSummarise` describes.
- RelaySession.Relay.Loop: does not model the delay the limiters cause, only what they are charged; the limiter library is not part of this model.
- The bandwidth, list and threshold commands of the relay's console: plain setters and printouts.
- The console commands of the id server other than `ib` and `rs`: `always-use-relay` also sends its argument as a relay list (`src/rendezvous_server.rs:1251`), which is the `Operator` event of `RelayPool`, and `test-geo` takes a relay server and advances the rotation (`src/rendezvous_server.rs:1265-1268`), which is its `GetRelay` event; the others are setters and printouts.
- A key of the wrong length in a KeyExchange message panics its task (`src/rendezvous_server.rs:623-624`), as does a seal that does not open (`src/rendezvous_server.rs:1619`). The release build aborts on a panic (`Cargo.toml:74`); in a build that unwinds, a sink parked before would stay in `tcp_punch`, and `Sinks.PunchMapHoldsOpenConnections` would not hold.
- The single bandwidth and threshold settings are read once at the start of a relay and are constants of it here too; the start check is read afresh at every sample.
- Name resolution in `get_servers`: a configured list is an input.
- `try_into_v4` and address mangling: their library is not part of this model; sink keys are arbitrary.
- Sockets, listeners, handshakes, the user interface and packaging.
