# Zecurity client daemon: a verified model

The client daemon turns access-control snapshots into a tunnel that captures TCP flows to
resources and relays them through connectors. This project models the parts of the Rust
client (`client/src`) where state, concurrency and failure meet, and proves what they promise:

- **Fake addresses and DNS** — `Probe`, `Names`, `Texts`, `NameMap`, `NameOrder`, `Dns`, `NameService`:
  the probing allocator, the name rule, the byte-level DNS answerer, and the way from a DNS
  query to the destination a tunnel request names.
- **Relay connection retirement** — `RelayRetire`: flow counts and the retired flag, one atomic
  operation per step.
- **Restart coordinator** — `Restart`: callers, workers and passes as interleaved steps over an
  unbounded set of requests.
- **Tunnel reconciler** — `Ordering`, `Config`, `Canonical`, `Classify`, `TransportMap`,
  `SlotOrder`, `Dials`, `Snapshots`, `Tunnel`, `Lifetime`, `Clashes`, `Alone`: from two snapshots to a canonical
  configuration, to a classified change, to an ordered change of four stores that may fail at every
  step; and the tunnel's handle, slot and net stacks while passes, the user's Up and Down and any
  number of device directives interleave.
- **User-space TCP front end** — `Tcp`, `SynGate`, `Admission`, `RelayTask`, `Drive`, `Flows`, `Seats`,
  `Removal`, `Effects`, `FlowTable`, `Listening`: the SYN gate, one flow's relay with its task running
  concurrently, the socket table turn by turn, and removals that are acknowledged only when their
  sockets are gone.
- **Connector revocation** — `Revoke`: blocked connectors, close passes and flows still
  selecting.

`Common` and `Sequences` hold shared types and facts about sequences.

Code that changes state in place is a class or a method with loops, proved against functions on
values; protocols are state machines whose invariants hold over every run. In `Drive` the relay
task interferes before every access to shared state, following an arbitrary script, so what is
proved holds in every interleaving. smoltcp, the kernel and the network are environments: what
they may do is a stated relation (`Drive.PollMay`, `Flows.PollMay`, `Tunnel.Env`).

Every lemma carries `{:induction false}`, so no proof rests on automatic induction.

## What the code does not promise

Where a property fails for the code as written, the project keeps the code, shows a failing
input or run, and proves exactly when the property holds.

- Dropping a relay guard decrements and then tests `retired`. A guard taken between the two,
  followed by a retirement, gets its connection closed under an open flow (`RelayRetire.EvictCuts`,
  `RelayRetire.GuardInWindowHappens`). Without such a guard retirement never cuts a flow
  (`RelayRetire.AtomicDropNeverCuts`).
- A port that is a multiple of 65536 truncates to 0: its key is captured and routed but nothing can
  listen on it. Captured and served keys agree exactly when no applied entry has such a port
  (`Tunnel.CapturedIsServedIff`).
- The transport map keeps the last entry per (address, port), the snapshot order of connectors and
  the coordinates a connector is first met with, while the effective configuration ignores all three.
  A reordering that is classified NoChange can therefore change a slot.
  - Equal configurations give every slot the same connectors exactly when no two entries for one
    slot resolve to different ones (`TransportMap.UnambiguousDetermines`,
    `TransportMap.AmbiguousCanDiffer`, `TransportMap.AmbiguousInput`).
  - They give the same order exactly when besides no entry has two different connectors after its
    preferred one (`SlotOrder.DeterminedBuildsOneMap`, `SlotOrder.UndeterminedDiffers`,
    `SlotOrder.UndeterminedInput`).
  - The order of the entries does not matter for the coordinates dialled exactly when all entries
    that use a connector agree on them (`Dials.AgreedDialsAreFixed`, `Dials.DisagreedDialsDiffer`,
    `Dials.DisagreedInput`).
- Passes, the user's Up and Down and the Downs of device directives take and set the handle and the
  slot one after the other. The tunnel is in step at rest as long as no Up passes its check while
  another is on its way or a Down still has to clean up, and no Down takes the slot of a tunnel that
  came up after it looked for the handle (`Lifetime.ClashFreeInSync`). Every such clash can go on to
  a rest out of step, and, but for two kinds that `Clashes.Grave` names, without any further clash
  (`Clashes.ClashBreaks`, `Clashes.ClashHappens`, `Clashes.RestBreaks`,
  `Clashes.CleanupDeletesRules`).
- A relay that ends normally should close its flow with a FIN. The back-stop runs in the same pass and counts
  the time since something last moved, so after a minute of silence it turns the FIN into a reset
  (`Drive.IdleEndIsReset`). The client gets the FIN exactly if something moved within the last minute
  (`Drive.Flow.PassFinishes`).
- An Up that fails while it sets up rules and routes does not clear them. A tunnel that is down
  leaves none exactly if the last step that set or cleared any was not such a failure
  (`Lifetime.DownLeavesNothingIff`, `Lifetime.FailedUpLeavesRules`).
- A Down does not always last: once it has taken everything, the tunnel comes up again without the
  user asking, in some run, exactly if the pass was deciding, restarting or coming up at that moment
  (`Clashes.DownUndoneIff`). A Down during a mutation stops the net stack, so the mutation fails and
  restarts the tunnel (`Clashes.DownDuringMutation`, `Clashes.DownUndoneByMutation`); a Down during
  `handle_up` finds nothing to take (`Clashes.DownDuringUp`, `Clashes.DownUndoneByRestart`).
- Output that waits while the transmit half is not open is dropped, also in SYN-RECEIVED, before the
  client could take any (`Drive.OutputBeforeHandshakeIsLost`). `Drive.Flow.DriveRelay` states what
  each pass gives up.
- Two removals of one key in flight: the second can be acknowledged while a socket of the first is
  still there. If no relay on the keys was closed by an earlier removal and still waits for its reset
  when the removal is applied, its acknowledgement means that no socket is left
  (`FlowTable.FlowTable.Turn`); from every state with such a relay two turns acknowledge it too early
  (`FlowTable.FlowTable.ContestedAcksEarly`, `Removal.EarlyAck`). The daemon awaits each
  acknowledgement (client/src/daemon.rs:1392-1418), which rules the case out
  (`Removal.SpacedAreSole`).
- A pooled listener whose connection is set up and reset within one poll is closed, not active, so
  it is not replaced (`FlowTable.ListenerDies`). A service pass leaves every slot of a pool listening
  exactly when none of its connections was over (`FlowTable.FlowTable.Service`); a dead slot stays dead until
  its key is removed (`FlowTable.FlowTable.Run`), and a key whose slots are all dead gets no SYN in
  (`Listening.DeadKeyIsMute`).
- If re-checking the blocked set and recording the connector were interleaved with a close
  pass, a revoked connector could carry a flow (`Revoke.RaceHappens`); in any run the promise can
  be broken exactly if a pass meets a flow in that window (`Revoke.QuietRunsAreSafe`,
  `Revoke.RacyRunsBreak`).

## Model

| member | source | states |
|---|---|---|
| `Probe.FirstFree` | client/src/name_map.rs:109-111 | the slot found is free and every slot between the home slot and it is taken; none exactly when all slots are taken |
| `Probe.FirstFreeUnique` | client/src/name_map.rs:109-111 | the first free slot from a home is unique, so a linear scan finds it |
| `Probe.PlaceCommutes` | client/src/name_map.rs:108-121 | placing two names in either order occupies the same slots, even when they collide, wrap around or fill the pool |
| `Probe.PlaceAllPermutation` | client/src/name_map.rs:108-121 | any permutation of arrivals occupies the same slots |
| `Names.JoinSplit` | client/src/name_map.rs:49 | splitting at dots loses nothing and leaves no dot in a label |
| `Names.PrintIpv4Parses` | client/src/name_map.rs:175-190 | a printed IPv4 address parses back to itself and is never a resource name |
| `Texts.NameIff` | client/src/name_map.rs:45-67 | which texts are resource names, octet by octet and without splitting: allowed octets, no empty part or part that starts or ends in a hyphen, no part over 63, a dot, and a letter after the last one |
| `Texts.LiteralIff` | client/src/name_map.rs:175-184 | a text is read as an IPv4 address exactly if it is how that address is printed |
| `NameMapModel.ComputeHomeSlot` | client/src/name_map.rs:76-83 | the hashing loop computes FNV-1a 64 modulo the pool size |
| `NameMapModel.NameMap.FakeIpFor` | client/src/name_map.rs:101-122 | the new maps and the answer are those of the assignment: invalid or conflicting refused, known name unchanged, otherwise first free slot from the home |
| `NameMapModel.NameMap.FindFree` | client/src/name_map.rs:109-111 | the probing loop finds the first free slot from the home slot |
| `NameMapModel.NameMap.AnswerQuery` | client/src/name_map.rs:135-141 | answers only active names, and none while a conflict is recorded |
| `NameMapModel.NameMap.SetActive` | client/src/name_map.rs:130-132 | replaces the names that resolve, keeping every address assigned |
| `NameMapModel.NameMap.ClearConflicts` | client/src/name_map.rs:157-159 | forgets the conflicts and nothing else |
| `NameMapModel.NameMap.NoteLiteralAddress` | client/src/name_map.rs:143-147 | records a conflict exactly for literals in the reserved range, leaving the maps alone |
| `NameMapModel.RunKeeps` | client/src/name_map.rs:86-160 | over every run of calls the two maps stay mutual inverses inside the pool and only grow |
| `NameMapModel.AnswerMapsBack` | client/src/name_map.rs:101-190 | an address ever answered for a name maps back to that name in every later state, through inactivity, conflicts and clears |
| `NameMapModel.AddressesDistinct` | client/src/name_map.rs:101-122 | two names never share an address |
| `NameMapModel.DestinationRoundTrip` | client/src/name_map.rs:175-190 | the destination sent for a captured address is the resource it was captured for, name or literal, at any later time |
| `NameMapModel.RefusedIffFull` | client/src/name_map.rs:101-122 | an unmapped valid name without conflicts is refused exactly when every pool address is taken |
| `NameMapModel.RunKnows` | client/src/name_map.rs:130-159 | over every run of calls the active names are the last ones set, and a conflict is recorded exactly while some literal since the last clear lies in 198.18.0.0/15 |
| `NameMapModel.AnsweredIff` | client/src/name_map.rs:135-141 | a name is answered exactly if it is among those last activated, has an address, and there is no such literal |
| `NameMapModel.ClashStopsNames` | client/src/name_map.rs:101-122 | with such a literal no name is given an address; without one a known name keeps its own |
| `NameMapModel.AddressIsPinned` | client/src/name_map.rs:267-279 | the home slot of "a.example" is 198.18.201.129 |
| `NameMapModel.FirstGetsHome` | client/src/name_map.rs:101-122 | on an empty map every valid name gets its home slot |
| `NameOrder.OccupiedOrderIndependent` | client/src/name_map.rs:76-122 | the same set of names, in any order and with repeats, occupies the same addresses |
| `NameOrder.HomeSlotsInAnyOrder` | client/src/name_map.rs:76-122 | names with distinct home slots each get their home slot in any order |
| `NameOrder.CollisionDependsOnOrder` | client/src/name_map.rs:116-118 | two names with one home slot get different addresses depending on order, out of the same set |
| `Dns.ReadName` | client/src/dns.rs:39-53 | the cursor loop stays in bounds for every byte string and reads the name the recursive grammar reads |
| `Dns.Answer` | client/src/dns.rs:26-88 | for every byte string: in bounds, terminating, and equal to the reply specified below |
| `Dns.ReplyShape` | client/src/dns.rs:59-87 | a reply echoes ID, opcode, RD and question, sets QR and AA, clears TC, has 16 bytes per record after the question, and is itself never answered (sections 4.1.1 and 4.1.2 of RFC 1035) |
| `Dns.ParseComplete` | client/src/dns.rs:39-53 | encoded labels parse back, lower-cased, ending right after the encoding |
| `Dns.ParseSound` | client/src/dns.rs:39-53 | whatever parses is the encoding of its labels |
| `Dns.QueryParses` | client/src/dns.rs:27-57 | every well-formed query parses to its own name, type and class |
| `Dns.ParsedIsQuery` | client/src/dns.rs:27-57 | whatever parses as a query is the encoding of one |
| `Dns.AnsweredIffQuery` | client/src/dns.rs:26-57 | a datagram is answered if and only if it is a well-formed single-question query |
| `Dns.AddressReply` | client/src/dns.rs:63-86 | an A/IN query for a known name ends in exactly one A record with its address |
| `Dns.ReplyExact` | client/src/dns.rs:59-87 | the reply to every query, octet by octet: NOTIMP for another opcode, NXDOMAIN for an unknown name, NOERROR without a record for another type or class, one A record of 30 seconds otherwise |
| `Dns.NameRoundTrip` | client/src/dns.rs:39-57 | a resource name in any letter case, put on the wire, parses back to the name |
| `NameService.QueryToDestination` | client/src/name_map.rs:125-190 | an address answered over DNS for a name, in any letter case, is turned back into that name for the connector at any later time |
| `NameService.CasingsReachName` | client/src/dns.rs:39-57 | the queries looked up as a resource name are exactly its casings |
| `NameService.EveryNameCanBeQueried` | client/src/name_map.rs:45-67 | every resource name is a valid DNS question |
| `RelayRetire.StepKeepsInv` | client/src/relay_pool.rs:77-120 | every atomic step keeps count, flag, cache and pending closes consistent |
| `RelayRetire.RunKeepsInv` | client/src/relay_pool.rs:77-120 | the invariant holds in every reachable state, for any number of connections and flows |
| `RelayRetire.RetiredIdleIsClosed` | client/src/relay_pool.rs:95-120 | in every interleaving a retired connection whose flows have ended is closed once pending steps finish; only retired ones are closed by retirement; one that left the cache is retired, being retired, or closed |
| `RelayRetire.AtomicDropNeverCuts` | client/src/relay_pool.rs:88-120 | if no guard is taken inside a drop's decrement-and-test, retirement never closes a connection with an open flow |
| `RelayRetire.GuardInWindowCanCut` | client/src/relay_pool.rs:109-120 | from any state, a guard taken in that window can be cut |
| `RelayRetire.EvictCuts` | client/src/relay_pool.rs:307-309 | with a flow opened in the window, evicting the stale connection cuts it |
| `RelayRetire.GuardInWindowHappens` | client/src/relay_pool.rs:300-306 | such a state is reachable |
| `Restart.StepKeepsInv` | client/src/daemon.rs:1748-1867 | every lock section, pass start and end, and publication keeps the coordinator's invariant |
| `Restart.RunKeepsInv` | client/src/daemon.rs:1748-1867 | it holds in every reachable state |
| `Restart.ExactlyOnePlace` | client/src/daemon.rs:1748-1867 | every registered request is in exactly one of the queue, one worker's hands, or answered |
| `Restart.AnswersAreFinal` | client/src/daemon.rs:1764-1806 | an answer, once given, never changes and is never given again |
| `Restart.AnsweredByThisOrNextPass` | client/src/daemon.rs:1753-1807 | Ok comes only from the first pass started after registration; an error from that pass or the one running at registration |
| `Restart.AnswersAreTrue` | client/src/daemon.rs:1764-1806 | over every run an answer tells how the pass it names ended: some step ended that pass with that result, so Ok means it ran for this request and succeeded, and an error that it failed |
| `Restart.OnePassAtATime` | client/src/daemon.rs:1753-1788 | while a pass executes no other worker owns the queue, even if failed workers still publish errors |
| `Restart.NoLostWakeUp` | client/src/daemon.rs:1829-1861 | a non-empty queue means a running worker that will take it |
| `Restart.FreshPassAfterError` | client/src/daemon.rs:1771-1861 | a request made after an error was seen is answered by a later pass than the failed one |
| `Restart.EntryIsFixed` | client/src/daemon.rs:1829-1839 | what was recorded at registration never changes, only the request's place |
| `Restart.WorkerStepsProgress` | client/src/daemon.rs:1753-1807 | every worker step strictly decreases the outstanding work |
| `Restart.RestMeansAnswered` | client/src/daemon.rs:1753-1867 | when no worker step is possible every request is answered and no worker is marked running |
| `Ordering.SortSorts` | client/src/daemon.rs:5909-5924 | sorting yields a sorted permutation |
| `Ordering.SortedUnique` | client/src/daemon.rs:5909-5924 | when equal keys mean equal elements there is only one sorted arrangement |
| `Ordering.SortCanonical` | client/src/daemon.rs:5909-5924 | sorting permutations of one another then gives the same sequence |
| `Ordering.SortMoves` | client/src/daemon.rs:5909-5924 | sorting is stable: an element may be moved past others that do not compare equal to it |
| `Config.ComputeEffectiveConfig` | client/src/daemon.rs:5844-5934 | the loop over allowed entries, with its sorts, computes the configuration specified on values |
| `Config.IndexById` | client/src/daemon.rs:5855-5864 | of networks with one id the last wins |
| `Canonical.CoordsForm` | client/src/daemon.rs:5714-5736 | connectors come as preferred first, then the rest sorted, revoked ones gone |
| `Canonical.CoordsCanonical` | client/src/daemon.rs:5802-5897 | reordering connectors with distinct ids does not change the list |
| `Canonical.CoordsContents` | client/src/daemon.rs:5802-5897 | the list holds exactly the network's connectors that are not revoked (one without an id only if some connector is preferred), preferred first |
| `Canonical.ConfigCanonical` | client/src/daemon.rs:5844-5934 | the configuration depends only on the identity, the networks' contents and the multiset of allowed entries |
| `Canonical.ReorderingInvariant` | client/src/daemon.rs:5844-5934 | permuting entries, networks or connectors, or changing only metadata, gives an equal configuration |
| `Canonical.NoRevokedConnector` | client/src/daemon.rs:5808-5822 | no applied entry carries a connector whose id the ACL lists as revoked, in either plane |
| `Snapshots.EntriesExact` | client/src/daemon.rs:5844-5934 | the applied entries are those of the ACL that list this device, one for one and sorted, with the identity of the device |
| `Snapshots.ConnectorsExact` | client/src/daemon.rs:5802-5842 | how often each connector is in an entry, for any snapshots: those of the last network with its id, of the transport plane if that lists it and else of the ACL; none that is revoked, the preferred one once, every other as listed |
| `Snapshots.NothingElseDropped` | client/src/daemon.rs:5808-5822 | a connector of the entry's network with an id of its own that nothing in the revoked list has is in the entry |
| `Snapshots.ConnectorsOrdered` | client/src/daemon.rs:5875-5897 | the preferred connector leads, the others follow in the order of their ids |
| `Snapshots.NoRevokedTransport` | client/src/daemon.rs:5986-6010 | no slot of the transport map offers a connector the ACL lists as revoked |
| `Classify.RemoteNetworksByKey` | client/src/daemon.rs:1110-1129 | groups exactly the networks of each (address, port, protocol) |
| `Classify.ResourceDeltaAllowed` | client/src/daemon.rs:1079-1106 | the two-map comparison decides the delta rule |
| `Classify.DeltaAllowedIff` | client/src/daemon.rs:1070-1106 | allowed exactly when the identity is equal and no shared key moved between networks |
| `Classify.ViewsAgreeIff` | client/src/daemon.rs:1038-1055 | structural views are equal exactly when identity and the multiset of entries without connector fields are |
| `Classify.ClassificationExact` | client/src/daemon.rs:1058-1068 | NoChange is equality; a restart exactly if the identity differs or some address, port and protocol in both has other remote networks; transport-only exactly if nothing but connectors and preference differs |
| `Classify.ClassificationSymmetric` | client/src/daemon.rs:1058-1068 | swapping the two configurations does not change the class |
| `Classify.ReorderingIsNoChange` | client/src/daemon.rs:1058-1068 | reordered snapshots are classified NoChange |
| `Classify.CapturedIff` | client/src/net_stack.rs:1084-1089 | which keys are captured: those of entries without a protocol or with "tcp" in any letter case, at the entry's port, modulo 65536 if it is larger |
| `Classify.PlanReachesTarget` | client/src/daemon.rs:1351-1380 | removing then adding turns the old keys and routes into exactly the new ones; no route in use is deleted |
| `Classify.TransportOnlyPlanIsEmpty` | client/src/daemon.rs:1351-1380 | a transport-only change removes, adds and reroutes nothing |
| `TransportMap.BuildTransports` | client/src/daemon.rs:5985-6019 | the two loops build the slot map of the last entry per key, and cache each connector with the coordinates it is first met with |
| `TransportMap.RoutableHasSlot` | client/src/net_stack.rs:1084-1089 | every routable key has a slot |
| `TransportMap.SlotsFollowConfig` | client/src/daemon.rs:5964-6020 | the map has exactly the configuration's slots, each with the connectors of one of the entries for it |
| `TransportMap.UnambiguousDetermines` | client/src/daemon.rs:5985-6019 | equal configurations without conflicting entries give the same slots with the same connectors |
| `TransportMap.LastEntryWins` | client/src/daemon.rs:6017 | any entry for a key can be made to fill its slot by reordering |
| `TransportMap.AmbiguousCanDiffer` | client/src/daemon.rs:5985-6019 | with conflicting entries, some reordering gives an equal configuration and other connectors for some slot |
| `TransportMap.AmbiguousInput` | client/src/daemon.rs:6017 | such an input: two entries for one address and port in networks with different connectors |
| `SlotOrder.DeterminedSlot` | client/src/daemon.rs:5985-6019 | in a configuration whose orders are fixed and agree, every slot lists the connectors exactly as the configuration does |
| `SlotOrder.DeterminedBuildsOneMap` | client/src/daemon.rs:5985-6019 | equal configurations of that kind build the same map, order of connectors included |
| `SlotOrder.MoveIsHidden` | client/src/daemon.rs:5802-5897 | moving the first connector with its id to the front never shows in the configuration, whatever else the network lists |
| `SlotOrder.UndeterminedDiffers` | client/src/daemon.rs:5844-6020 | for every other configuration some reordering of entries or connectors is classified NoChange and changes a slot |
| `SlotOrder.UndeterminedInput` | client/src/daemon.rs:5714-5736 | such an input: one entry in a network with two connectors, none preferred |
| `Dials.DialIsFirst` | client/src/daemon.rs:5997-6010 | a connector is dialled with the coordinates of the first entry that uses it |
| `Dials.AgreedDialsAreFixed` | client/src/daemon.rs:5986-6010 | when the entries agree on coordinates, the order of the ACL does not change any |
| `Dials.DisagreedDialsDiffer` | client/src/daemon.rs:5986-6010 | when they do not, some order of the ACL is classified NoChange and changes the coordinates of a connector |
| `Dials.DisagreedInput` | client/src/daemon.rs:5986-6010 | such an input: a connector that two networks list with different addresses |
| `Dials.CachedTogether` | client/src/daemon.rs:5997-6008 | connectors with an id share a transport exactly if the ids are equal; those without, exactly within a network and for one address, if network ids have no colon |
| `Tunnel.RemoveStagesSafe` | client/src/daemon.rs:1518-1533 | every stage of the remove side keeps kept keys fully served and captured addresses routed |
| `Tunnel.AddStagesSafe` | client/src/daemon.rs:1534-1555 | every stage of the add side captures a key only once slot, listener and route exist |
| `Tunnel.Reconciler.SendRemove` | client/src/daemon.rs:1392-1418 | acknowledged means removed; unacknowledged it happened if the command took effect all the same; succeeds exactly if the command does |
| `Tunnel.Reconciler.SendAdd` | client/src/daemon.rs:1392-1418 | the same for additions; port 0 never listens |
| `Tunnel.Reconciler.ApplyNft` | client/src/tun.rs:132-138 | the rules are replaced as a whole or not at all |
| `Tunnel.Reconciler.DelRoutes` | client/src/tun.rs:159-170 | deletes only the given routes, one by one, and may stop after any of them |
| `Tunnel.Reconciler.AddRoutes` | client/src/tun.rs:139-157 | adds routes one by one, never losing one |
| `Tunnel.Reconciler.Mutate` | client/src/daemon.rs:1516-1561 | at every prefix, so at every failure point: kept keys served in all four stores, captured addresses routed, added keys captured last, removed keys without a listener from the acknowledgement on; it succeeds exactly if every command it issued did |
| `Tunnel.Reconciler.HotApplyResources` | client/src/daemon.rs:1448-1590 | exactly when each outcome occurs; a failure before mutation changes nothing and a failure after it means a command failed; `applied` advances only on success, which leaves the stores of a fresh tunnel; the prefix guarantees of the mutation |
| `Tunnel.Reconciler.HotApplyTransportMap` | client/src/daemon.rs:1190-1271 | exactly when each outcome occurs: applied only for a map built for the configuration still current at publication, and then only `applied` and the map change |
| `Tunnel.Reconciler.Down` | client/src/daemon.rs:954-975 | an up tunnel loses its listeners, rules and routes |
| `Tunnel.Reconciler.BringUp` | client/src/daemon.rs:615-790 | up exactly if the inputs are complete, the map could be built and the command succeeds, and then with the stores of the configuration read |
| `Tunnel.Reconciler.RunPass` | client/src/daemon.rs:1596-1703 | a pass keeps an up tunnel in sync with `applied`, and unchanged inputs change nothing. A dead task or a structural change restarts it, and it is up again exactly if it can be; any other change restarts it only if a command failed or the inputs moved. On steady complete inputs with every command succeeding it succeeds and applies them; a failure that leaves the tunnel up left it untouched |
| `Tunnel.Reconciler.SecondPassIsNoOp` | client/src/daemon.rs:1596-1689 | after a successful pass on fixed snapshots the next pass succeeds and changes nothing |
| `Tunnel.Reconciler.Run` | client/src/daemon.rs:1596-1739 | over every run of passes, downs and ups, an up tunnel has exactly the listeners, rules, routes and map of `applied` |
| `Tunnel.CapturedIsServedIff` | client/src/net_stack.rs:1439-1448 | captured keys are the served ones exactly when no routable entry's port is a multiple of 65536 |
| `Tunnel.PortZeroIsCapturedUnserved` | client/src/net_stack.rs:1088 | one entry with port 65536 is captured and not served |
| `Lifetime.StepKeeps` | client/src/daemon.rs:1190-1739 | every step of a pass, a user request or any number of directives that is no clash keeps the invariant |
| `Lifetime.WritesOnlyWhatItRead` | client/src/daemon.rs:1234-1263 | publishing, mutating and committing touch only the net stack of the handle the pass read, and only while it still is the handle or a Down that stopped it waits for the slot |
| `Lifetime.ClashFreeInSync` | client/src/daemon.rs:596-611 | however the threads interleave and net stacks crash, without a clash every rest is up with handle, slot, kernel and the one running net stack in step, or has neither handle nor slot nor a running net stack |
| `Lifetime.DownLeavesNothingIff` | client/src/daemon.rs:721-728 | in every clash-free run, a rest that is down has no rules and routes if and only if the last step that set or cleared any was not an Up failing midway |
| `Lifetime.FailedUpLeavesRules` | client/src/daemon.rs:721-728 | a run in which such an Up leaves some |
| `Lifetime.ClassifyOk` | client/src/daemon.rs:1058-1068 | the classification meets what the interleaving theorems ask of it: a transport-only change keeps the routable keys |
| `Alone.PassApplies` | client/src/daemon.rs:1596-1689 | from every up rest, a pass that nothing interrupts ends in step with whatever configuration it reads, and keeps the net stack exactly if it still ran and the change is not structural |
| `Alone.MovedOnRestarts` | client/src/daemon.rs:1234-1252 | if the configuration moves on or the net stack stops while a map is built, the pass restarts the tunnel with what it reads then |
| `Alone.ClassifyIsExact` | client/src/daemon.rs:1058-1068 | the classification meets what the two ask of it |
| `Clashes.ClashBreaks` | client/src/daemon.rs:615-790 | from every state reached without an earlier clash, every clash can go on to a rest out of step, and every grave one without any further clash |
| `Clashes.ClashingRunsBreak` | client/src/daemon.rs:954-962 | so every run with a clash has a continuation, from its first clash on, that ends out of step |
| `Clashes.ClashHappens` | client/src/daemon.rs:1716-1737 | such a run from the start: the user asks for the tunnel while a restart is between its Down and its Up |
| `Clashes.RestBreaks` | client/src/daemon.rs:4158 | and from every rest that is down: a directive takes the slot of the tunnel the user asks for just before its handle is set |
| `Clashes.CleanupDeletesRules` | client/src/daemon.rs:960-962 | from every state with an Up past its check, something to capture and a cleanup pending, that Up can end with its rules and routes deleted |
| `Clashes.DownTakesAll` | client/src/daemon.rs:954-962 | a Down that finds no handle when it takes the slot leaves neither |
| `Clashes.DownLasts` | client/src/daemon.rs:1172-1175 | unless the pass is on its way up, the tunnel then stays down until the user asks, whatever directives do |
| `Clashes.DownUndoneIff` | client/src/daemon.rs:1696-1739 | the tunnel can come back without the user asking if and only if the pass was deciding, restarting or coming up |
| `Clashes.DownDuringMutation` | client/src/daemon.rs:1516-1563 | from every state in which the pass mutates, a Down can end with the tunnel up |
| `Clashes.DownDuringUp` | client/src/daemon.rs:615-778 | the same while the pass brings the tunnel up |
| `Clashes.DownUndoneByRestart` | client/src/daemon.rs:1630-1633 | a run from the start: a pass restarts a crashed tunnel and a Down comes in between |
| `Clashes.DownUndoneByMutation` | client/src/daemon.rs:1667-1689 | a run from the start for any resource change: a pass applies it and a Down comes while it mutates |
| `Clashes.FirstResourceIsDelta` | client/src/daemon.rs:1058-1068 | the first resource assigned to a device is such a change |
| `SynGate.SynExactly` | client/src/net_stack.rs:139-163 | of all IPv4 TCP segments, whatever their header contents and options, exactly the unfragmented ones with SYN and neither RST nor ACK are recognised, with their resource and connection |
| `SynGate.SynOnly` | client/src/net_stack.rs:139-163 | any octets that are recognised are such a segment |
| `SynGate.GateDevice.Prepare` | client/src/net_stack.rs:200-239 | counts each resource's listening sockets, collects the connections half-open and established relays own, and queues held packets first |
| `SynGate.GateDevice.Admit` | client/src/net_stack.rs:244-276 | one packet as the judgement says, with the gate's counters; what the judgement amounts to over a poll is `Admission.PollFollows` |
| `SynGate.GateDevice.Receive` | client/src/net_stack.rs:311-338 | repeated calls deliver exactly the packets of one poll, in order |
| `Admission.PollFollows` | client/src/net_stack.rs:244-338 | a poll delivers, in order, exactly what a rule over the packets lets in: everything but SYNs, SYNs for no resource, and per resource the first SYN of each new connection while listeners last; what it holds, what it counts, and that no packet is lost uncounted |
| `Admission.RunPollFollows` | client/src/net_stack.rs:200-281 | the same for a poll of the loop, which offers all held packets first and is repeated at once exactly if some connection got in and a SYN waits |
| `Admission.BystandersPass` | client/src/net_stack.rs:250-259 | packets that are no SYN, and SYNs for no resource of connections nobody owns, all reach smoltcp, in order and as often as they come |
| `Admission.ListenersAreUsed` | client/src/net_stack.rs:261-266 | per resource as many SYNs get in as there are listeners or connections asking, whichever is fewer |
| `SynGate.HeldNeverDroppedForRoom` | client/src/net_stack.rs:244-276 | a packet once held is never dropped for capacity, only when held too long or already owned |
| `SynGate.NeverHoldsMore` | client/src/net_stack.rs:200-276 | over every run of polls at most SYN_DEFER_CAP packets are held |
| `SynGate.WithinListeners` | client/src/net_stack.rs:244-276 | per resource, SYNs let in plus listeners left equals listeners at the start |
| `SynGate.PollIsSafe` | client/src/net_stack.rs:843-857 | no poll lets in more SYNs than a resource has listening sockets, none for an owned connection, and at most one per connection |
| `SynGate.OfferCore` | client/src/net_stack.rs:244-276 | packets that are no SYN for a served key, or retransmissions for an owned connection, change nothing but counters: the same SYNs get in without them |
| `SynGate.BurstRepolls` | client/src/net_stack.rs:279-281 | while a served burst leaves SYNs waiting the loop polls again at once |
| `SynGate.BurstServed` | client/src/net_stack.rs:50-54 | SYNs of different connections, m held and n new ones that come first among those that matter, any other packets between them, all get in within m + n polls when m + n <= SYN_DEFER_CAP, listeners are refilled and none is held longer than SYN_DEFER_LIMIT |
| `RelayTask.DoAllRelies` | client/src/net_stack.rs:1281-1310 | whatever the relay task does: it takes from one channel, sends on the other, ends once, and stores its outcome before the last sender is gone |
| `RelayTask.DisconnectIsFinal` | client/src/net_stack.rs:1298-1310 | once the channel is seen disconnected the outcome is final and says how the relay task ended, a panic counting as failure |
| `Drive.Flow.constructor` | client/src/net_stack.rs:512-528 | a new flow starts with both channels open and no output given up |
| `Drive.Flow.Uplink` | client/src/net_stack.rs:627-647 | reads stop only when nothing is unread, the channel is full or the relay task is gone; nothing read is lost |
| `Drive.Flow.EndUplink` | client/src/net_stack.rs:649-653 | the uplink ends exactly when the client is done and everything was handed over |
| `Drive.Flow.DropFailed` | client/src/net_stack.rs:674-688 | output is dropped only for a failed relay, and then all that was kept or queued |
| `Drive.Flow.Flush` | client/src/net_stack.rs:692-709 | kept bytes are sent in order until none is left or the buffer is full |
| `Drive.Flow.Pump` | client/src/net_stack.rs:710-739 | chunks are sent in order until the buffer is full or the channel is empty; the end of the relay task is noticed |
| `Drive.Flow.Lifecycle` | client/src/net_stack.rs:758-774 | after a normal end FIN once everything is queued, after a failure or panic reset, never before the end was seen |
| `Drive.Flow.Backstop` | client/src/net_stack.rs:776-790 | a socket idle in a closing state for the limit is reset, any other is left alone |
| `Drive.Flow.DriveRelay` | client/src/net_stack.rs:606-797 | one pass: which output is given up, that the uplink is handed over and ended once the client is done, that the socket's state changes only by the FIN or reset counted, and that the back-stop resets exactly a socket that is closing, or closed by this pass, after CLOSING_IDLE_LIMIT without movement; when the socket can go |
| `Drive.Flow.Run` | client/src/net_stack.rs:606-797 | the flow's invariant survives every sequence of polls, passes, cuts and task steps |
| `Drive.UplinkInOrder` | client/src/net_stack.rs:627-647 | what the relay task has read is a prefix of what the client sent |
| `Drive.EofAfterEverything` | client/src/net_stack.rs:649-653 | a running task sees end of stream only after reading every byte of a client that is done, unless the flow was cut |
| `Drive.DownlinkExact` | client/src/net_stack.rs:692-739 | in every flow, since output was last given up: bytes sent, then kept, then queued are exactly the relay task's output, in order |
| `Drive.Flow.PassDiscards` | client/src/net_stack.rs:740-755 | a pass over any flow whose transmit half is not open gives up everything that waits |
| `Drive.OutputBeforeHandshakeIsLost` | client/src/net_stack.rs:740-755 | a run in which output queued before the handshake is complete is lost |
| `Drive.Flow.PassFinishes` | client/src/net_stack.rs:758-790 | a relay that ended normally, with nothing left to send: the client gets a FIN exactly if something moved within CLOSING_IDLE_LIMIT, else a reset |
| `Drive.IdleEndIsReset` | client/src/net_stack.rs:758-790 | a flow accepted a minute ago whose relay ends normally is reset |
| `Drive.LifecycleTells` | client/src/net_stack.rs:758-774 | at most one lifecycle FIN or reset; FIN only after a normal end with all output sent since some was last given up, reset only after a failure or panic |
| `Drive.CapNeverReached` | client/src/net_stack.rs:698-727 | what is kept is less than a chunk, so the 1 MiB cap branch is unreachable |
| `FlowTable.FlowTable.NewListenSocket` | client/src/net_stack.rs:1439-1448 | a fresh slot listens for the key; port 0 gets none |
| `FlowTable.FlowTable.AddListeners` | client/src/net_stack.rs:959-971 | only keys not served yet get listeners, nothing else changes, repeating it does nothing, port 0 gets no entry |
| `FlowTable.FlowTable.RemoveListenersAndClose` | client/src/net_stack.rs:869-918 | exactly the sockets of the keys are closed or reset under a new tag, all others are untouched |
| `FlowTable.FlowTable.CloseConnectorFlows` | client/src/net_stack.rs:924-949 | resets exactly the live flows carried by the connectors, ends them and counts them; every other socket and flow is as before |
| `Effects.RemovedStops` | client/src/net_stack.rs:869-918 | after a removal: no listener of the keys, every socket of theirs with a peer reset and ended under a tag, idle listeners gone, all other sockets as before |
| `Effects.PromotedFailsClosed` | client/src/net_stack.rs:1005-1061 | promotion fails closed, told by socket states and relays alone |
| `Effects.TurnEntitles` | client/src/net_stack.rs:1316-1327 | whatever a turn's commands are, only flows entitled to it are live after it |
| `FlowTable.FlowTable.PromoteAll` | client/src/net_stack.rs:988-1061 | an accepted connection with a connector online is left as it is and gets a live relay; any other is reset with its relay ended, and counted; no other flow becomes live and nothing else changes; slot by slot, a fresh listener replaces exactly the active ones |
| `FlowTable.FlowTable.DriveAll` | client/src/net_stack.rs:1063-1072 | every relay is driven once: at most a FIN or a reset, never revived, keeping its tag and connector; sockets without a peer leave table and socket set together, counted |
| `FlowTable.FlowTable.Service` | client/src/net_stack.rs:975-1073 | promotion, then driving: a connection for a resource without a connector is gone or reset, never live, and no flow becomes live but those accepted with one online; a slot listens afterwards exactly when its connection was not over and a dead listener stays in it, so a pool listens in every slot if and only if none of its connections was over |
| `FlowTable.FlowTable.Apply` | client/src/net_stack.rs:1124-1151 | what each command does to every socket, pool, tag and promise; earlier removals keep their promises, except for keys added again |
| `FlowTable.FlowTable.ApplyAll` | client/src/net_stack.rs:1321-1323 | the commands of a turn do to every socket what they do to it alone, and which removals are promised follows from the table before them |
| `FlowTable.FlowTable.Turn` | client/src/net_stack.rs:1316-1327 | in every turn: the fate of every socket and pool from the table after the poll; a flow live afterwards was live or accepted with a connector online, its key not removed and its connector not revoked; no removal is lost or acknowledged twice, those still waited for are exactly those with a socket left; an acknowledged uncontested removal has no socket left for the keys not added again since, a contested one only sockets closed by an earlier removal |
| `FlowTable.FlowTable.Run` | client/src/net_stack.rs:1316-1327 | over every run of turns a dead slot keeps its dead listener until its key is removed |
| `FlowTable.FlowTable.ContestedAcksEarly` | client/src/net_stack.rs:895-898 | from every state in which an earlier removal still holds a socket of the keys, removing them can be acknowledged with that socket left |
| `FlowTable.ListenerDies` | client/src/net_stack.rs:990-1003 | a run from the empty table to a key whose slots are all dead |
| `Seats.SocketsPartition` | client/src/net_stack.rs:817-826 | the socket set is the disjoint union of the pools, the relays and the DNS socket, each listener in one slot |
| `Listening.FreeAfterService` | client/src/net_stack.rs:200-239 | the gate then counts exactly the slots whose connection was not over as free listeners |
| `Listening.DeadKeyIsMute` | client/src/net_stack.rs:843-857 | while all slots of a key are dead no poll lets a SYN for it in |
| `Removal.CompletePendingCloses` | client/src/net_stack.rs:1155-1165 | the swap-remove loop acknowledges exactly the removals without a socket, keeps the others, loses none |
| `Removal.RemoveCommand` | client/src/net_stack.rs:869-918 | after a removal every socket for its keys is closed under its tag, or an older one if it was contested, or about to be reaped |
| `Removal.ServicePromises` | client/src/net_stack.rs:975-1073 | a service pass turns that into: closed under its tag, or an older one if it was contested |
| `Removal.OthersUntouched` | client/src/net_stack.rs:869-949 | whatever a turn removes and closes, a socket on another key that no closed connector carries is served as if it had not |
| `Removal.SpacedAreSole` | client/src/daemon.rs:1392-1418 | a removal of keys that no unacknowledged removal shares is uncontested |
| `Removal.EarlyAck` | client/src/net_stack.rs:895-898 | a run in which the second of two removals is acknowledged too early |
| `Revoke.StepKeeps` | client/src/net_stack.rs:1528-1626 | every step without the race keeps: covered connectors are blocked, carry no live flow, and none is about to be recorded |
| `Revoke.CoveredCarriesNothing` | client/src/daemon.rs:5275-5315 | in every run, once a close pass covered a connector and as long as it stays blocked, no live flow is carried by it |
| `Revoke.QuietRunsAreSafe` | client/src/net_stack.rs:1610-1619 | with re-check and recording as two steps the same holds if no pass meets a flow between them |
| `Revoke.RacyRunsBreak` | client/src/net_stack.rs:1610-1619 | and every run in which one does can be continued to break it |
| `Revoke.RaceHappens` | client/src/net_stack.rs:1610-1619 | a shortest such run |
| `Revoke.UnblockedCarries` | client/src/net_stack.rs:1528-1626 | from any state a flow is carried by the first of its connectors that is not blocked and works, and ends exactly if there is none |
| `Revoke.FailedGoesOn` | client/src/net_stack.rs:1555-1619 | a connector that fails, or is blocked once its stream is open, leaves the flow to the connectors after it |
| `Revoke.ClosingAgainResetsNothing` | client/src/net_stack.rs:924-949 | closing what is covered again resets nothing |
| `Revoke.CloseIsIdempotent` | client/src/net_stack.rs:924-949 | a repeated close resets nothing and changes nothing |

## Left out

- TLS, QUIC, gRPC, certificates, revocation lists, TPM keys, encrypted state files and login: thin over libraries; a transport is its connector id.
- systemd, nft, ip and resolvectl calls: only the sets they change are modelled; nft replaces all rules or none, routes change one by one.
- Posture checks, backoff loops, hint streams, renewal timers and stream polling adapters: shallow branching or timing.
- smoltcp internals: a poll is any change allowed by the stated relation; sequence numbers and retransmission are not modelled.
- The device's transmit side always yields a token (client/src/net_stack.rs:122-124); the branch that puts an admitted packet back is not modelled.
- The address of a resource is one fixed partial function during a reconcile; its allocation is modelled in `NameMap`.
- Literals in the reserved range that coincide with an address already given to a name: the destination claim for literals excludes them.
- `is_resource_name` also rejects IPv6 literals; none of them satisfies the label rule, so the model's rule needs no IPv6 parser.
- Protocol comparison lower-cases ASCII letters only.
- The branch "nothing to apply" of a resource apply is unreachable after the classification and is not modelled.
- Tunnel.Reconciler.RunPass: runs alone; how passes, Up and Down interleave is in `Lifetime` and `Clashes`.
- Tunnel.Reconciler.Run: the same; its downs and ups happen between passes.
- Tunnel.Reconciler.HotApplyResources: the same; the handle re-checks and what they guard are steps of `Lifetime`.
- Tunnel.Reconciler.HotApplyTransportMap: the same.
- Tunnel.Reconciler.Down: the same; the cleanup commands, whose errors the code ignores, are taken to remove what is there.
- Lifetime.StepKeeps: the link device is not modelled; that a directive also wipes credentials shows only in an Up that fails.
- Tunnel.Reconciler.BringUp: runs alone as well; clearing stale policy, creating the device, rules and routes is one step that succeeds, fails without effect, or fails leaving rules and routes behind.
- Restart.RunKeepsInv: a pass that panics is a pass that ends with an error; the outer supervisor for a panic of the coordinator itself (client/src/daemon.rs:1847-1859) is not modelled.
- Drive.Flow.DriveRelay: counters are per flow rather than shared.
- NameMapModel.AddressIsPinned: the source pins two more addresses, "db.internal" and "192-168-1-164.nip.io"; their hashes are not worked out.
- Drive.Flow.Uplink: that one read takes at most 4096 octets is not stated; only their order and completeness are.
- RelayTask.DoAllRelies: a panic happens in the data loop, not between its return and the store of the outcome.
- FlowTable.FlowTable.Turn: what `drive_relay` does to a socket is any state it may leave (`Tcp.DriveMay`, which `Drive.Flow.DriveRelay` guarantees), and the connector a flow selects is any.
- FlowTable.FlowTable.PromoteAll: a promoted socket that is reset and accepts another connection within one poll keeps its relay.
- SynGate.BurstServed: sockets owning only connections that were let in is a condition on the polls; that listeners are refilled is one too, and holds after a service pass as `Listening.FreeAfterService` says.
- Revoke.CoveredCarriesNothing: re-check and recording are one step; what the two halves would allow is `Revoke.RacyRunsBreak`.
- TransportMap.BuildTransports: a slot lists connector ids, so connectors without one look alike in it; the cached coordinates tell them apart.
- TransportMap.UnambiguousDetermines: compares the connectors of a slot as a multiset; their order is in `SlotOrder.DeterminedBuildsOneMap`.
- TransportMap.SlotsFollowConfig: the same; their order is in `SlotOrder.DeterminedSlot`.
- Integers are unbounded where the source counts (statistics, tags, flow counts): 64-bit counters are taken not to overflow.
- Web consoles, connector and controller services, build scripts and generated code.
