# Rivora in Dafny

A verification model of Rivora, an L4 load balancer: a Go control plane that programs flat BPF maps, and two BPF programs that forward packets by reading them. The hard questions are where the two sides must agree, and what holds in the middle of an update, across a restart, and over whole runs. Four components are modelled; the first three share one state.

**The dataplane state machine.** `DataplaneControl.Dataplane` holds the VIPs and backends in memory, the two ID allocators, the extent allocator and the six maps packets read. A ghost `log` records the maps after every single write. `Agree` says what the maps must hold at rest, `AgreeBut` what they hold half-way through an operation or after failed ones, and `Confined` what that means for a packet. `ControlRuns.Run` puts arbitrary sequences of operations together, and `Adoption.Restart` a whole restart. Maglev's `BuildTable` is proved equal to a turn-by-turn reference, with its exact fairness, down to the slots a configured weight comes to in a VIP's extent.

**The packet path.** `PacketPath` gives what one packet does as functions of the state it finds; `PacketPrograms.Balancer` is the code, lookups, rewrites and map updates in order; `NewFlows` says what becomes of a flow the balancer does not know; `PacketRuns` is about runs of packets, map writes by the control plane, and evictions. Checksums, the token bucket and the IPv6 header walk are real arithmetic and real bytes.

**Port ranges as prefix blocks.** `PortRange` and `VipLookup`: the greedy tiling, its inverse, and the trie lookup against plain range membership.

**The BGP speaker.** `BgpRoutes` computes the desired routes; `BgpSpeaker.Speaker` is the code of a resync pass and of SetPeers with every gobgp call liable to fail; `BgpSteps` makes the two into steps, and `BgpSpeaker` proves that its code takes them; `BgpProtocol` interleaves them under the two locks, and says who must not get a route and does; `BgpReach` who may and does not. A step is one gobgp call or one turn of a loop; the update of all deny sets, which holds the lock on the peers, is one step, and so are creating and dropping the limits of a peer without a session.

## Reading guide

| file | what it holds |
|---|---|
| Common, Types, Primes | shared types; prime-modulus walks |
| Maglev, MaglevFairness, TableShares | the lookup table and who gets how much of it |
| IdAllocator, ExtentAllocator | the allocators, with adoption's reserve |
| PortRange, VipLookup | prefix blocks, range lookup, the configuration check |
| BpfMaps | the maps, and how a new flow is given a backend |
| DataplaneState, MapAgreement | memory invariants; agreement of memory and maps, and each single write |
| Watching | what every snapshot during one operation keeps to |
| UpsertConditions, UpsertSteps | when an upsert succeeds and why not; what its parts do to the memory |
| Reload, ReloadSteps | the reload plan, and what each operation of a reload does |
| Dataplane, Runs | the control plane, runs of it |
| AdoptScan, Adopt | reading pinned maps, adopting them, restarting |
| Scenarios, FailedUpserts, MovedDrain | executions in which a promise fails |
| Checksum, TokenBucket, V6Walk | the arithmetic of the packet programs |
| PacketPath, Balancer, NewFlows, PacketRuns | one packet, the programs, flows without an entry, runs |
| BgpRoutes, AddressBits | the routes wanted; prefixes bit by bit |
| BgpState, BgpSteps, BgpSpeaker, BgpProtocol, BgpReach, BgpScenarios | deny sets, the steps, the speaker, the interleaving and both its halves, three runs that go wrong |

## Modelling decisions

- Addresses, VIP keys, backend names and peers are values; the source compares their canonical text. An IPv4 and an IPv6 map holding the same kind of entry are one map.
- One packet's lookups are one step between two map writes.
- Hash functions are arbitrary functions, and so is the order of names (`Hash.rank`). Iteration over a Go map is in any order.
- Every map update whose error the source checks may be refused: `answers` says which. Deletions and zeroings whose error the source discards are taken to take effect, and so are the health writes of adoption.
- What is amiss is tracked: `loose` holds the VIPs whose last upsert failed, or succeeded without mending their table, with the backends their packets may reach meanwhile; `stale` the backend IDs whose entries the kernel did not take; `lost` the references counted for nobody. Every operation, failed or not, keeps maps and memory in agreement but for these, IDs and extents consistent, and reference counts right up to `lost`.
- A guard (`Watching.Guard`) is what every snapshot during an operation keeps to: which backends packets may reach through which VIP, which VIPs are found, which IDs keep their meaning, which states of health a backend may be in, and which slots do not change.
- Of a hardware address only whether it parses matters.
- LRU eviction is a step of its own in `PacketRuns`, and every claim there is conditioned on its entry surviving.
- `bpf_csum_diff` is a function known only by its contract: for 4 and 16 bytes a value in [0, 2^32) congruent to sum(new) - sum(old) mod 65535.
- Words are 16 bits in one byte order throughout; `Checksum.ByteOrderIsIrrelevant` says why that is enough.
- gobgp is a route table, the peers it runs, and for each peer a deny set and a rule that may be in force; each call takes effect or fails as a whole.

## Where a plausible property is false

- **rangeBlocks uses the fewest blocks.** False for 0..65535 only: `PortRange.FewestBlocksIff`.
- **A UDP checksum stays non-zero under NAT.** False: `PacketPrograms.Redirect` and `PacketPrograms.Resource` say exactly when the result is zero, `PacketPrograms.LosesChecksumIff` and `PacketPrograms.ReplyLosesChecksumIff` what that means for a valid datagram, and `PacketPrograms.DatagramLosesChecksum` gives one.
- **A failed deny-set edit is repaired by the next pass.** False when the IPv6 half fails after the IPv4 half deleted something (`BgpState.FailedEditIff`): the entry stays lost exactly as long as the peer runs and the entry is recorded (`BgpProtocol.LostIff`).
- **No limited route ever reaches another peer.** When a route is handed over, and between error-free passes, it holds if and only if no entry that keeps the route from a running peer is lost: `BgpProtocol.HandedOverSafely`, `BgpProtocol.RestLeaksIff`; `BgpScenarios.LostEntryLeaks` is a run in which one is. Inside a pass it is false even if no call fails, since deny sets follow the new routes before the old ones are withdrawn: `BgpProtocol.GapIff`, `BgpScenarios.GapExists`.
- **Every peer gets the routes it may have.** Between error-free passes, if and only if no entry that blocks one is stray, that is, left behind by a step that failed: `BgpReach.ReachesIff`, `BgpReach.WithheldIff`; `BgpScenarios.StrayEntryWithholds` is a run in which one is. Without such failures it always holds: `BgpReach.EveryoneServed`.
- **Drains survive a restart.** False: backends that stay listed have the flags they had if and only if none was drained or down (`Adoption.Restart`), and `Scenarios.ForgetDrain` is a run in which a drained backend gets every new flow afterwards.
- **Drains survive a reload.** True of a backend some VIP keeps listing. In general, if and only if some VIP lists it after every step of the reload: `ReloadSteps.DrainKeptIff`; moving a backend between VIPs can lose it, depending on their order in the configuration: `MovedDrain.MoveDrained`.
- **Reference counts are right after a failed upsert.** False if it failed after counting a new backend, true otherwise (`DataplaneControl.Dataplane.Upsert`, and from before the call `UpsertSteps.LosesIff`); `Scenarios.LoseReference` and `Scenarios.LostForGood` show it for a malformed hardware address, which the configuration check lets through outside direct server return.
- **Retrying a failed upsert mends the VIP.** True if and only if the retry rebuilds the table or finds it right (`DataplaneControl.Dataplane.Upsert`). False when the failed one only dropped backends: the retry finds neither the set nor a weight changed, reports success, and leaves a table that names a freed ID. `FailedUpserts.StrayAfterCorrection` goes on from there until packets of one VIP reach another's backend.

## Model

| member | source | states |
|---|---|---|
| `Primes.EverySkipPermutesIffPrime` | internal/maglev/maglev.go:84-91 | a probe sequence visits every slot whatever its skip in 1..m-1 if and only if the table size is prime |
| `Primes.PrimeWalkReaches` | internal/maglev/maglev.go:84-91 | with a prime table size every slot is at some position below m of every preference list, so the inner loop meets a free one |
| `DataplaneState.ClassesArePrime` | internal/dataplane/maglevalloc.go:23 | all four size classes are prime |
| `DataplaneState.ClassFor` | internal/dataplane/maglevalloc.go:27-38 | the class is one of the four, and holds a hundred slots a backend unless it is already the largest |
| `Maglev.PopulateFills` | internal/maglev/maglev.go:80-99 | the turn-by-turn reference algorithm fills exactly one slot a turn and leaves none empty after m turns |
| `Maglev.BuildVirtuals` | internal/maglev/maglev.go:59-73 | one virtual entry per unit of normalised weight, in order, each with an offset below m and a skip in 1..m-1 |
| `Maglev.NextFree` | internal/maglev/maglev.go:86-91 | the inner probe loop ends, at the first free position of the entry's preference list, without having skipped one |
| `Maglev.TakeTurn` | internal/maglev/maglev.go:84-96 | resuming each entry where it stopped gives the slot the reference gives, which searches from the start |
| `Maglev.BuildTable` | internal/maglev/maglev.go:49-101 | fails exactly when there is no backend or the total weight does not fit; otherwise terminates with the reference table |
| `Maglev.Preference` | internal/maglev/maglev.go:63-72 | the i-th slot an entry prefers: one hash of its name modulo m, then steps of another modulo m-1, plus one |
| `MaglevFairness.EntryWins` | internal/maglev/maglev.go:80-99 | virtual entry v of T wins exactly floor(m/T) slots, plus one if v < m mod T |
| `MaglevFairness.BackendShare` | internal/maglev/maglev.go:59-99 | the exact number of slots a backend gets: the sum of its entries' quotas |
| `MaglevFairness.BackendShareBounds` | internal/maglev/maglev.go:59-99 | a backend of weight w has between w*floor(m/T) and w*ceil(m/T) slots, and at least w |
| `MaglevFairness.ConfiguredShare` | internal/maglev/maglev.go:28-99 | in the weights as configured: with T their plain sum, (m / T) slots per unit of weight, and the m mod T left over one by one to the units in the order of the list |
| `MaglevFairness.ConfiguredBounds` | internal/maglev/maglev.go:28-99 | so a share is between weight*floor(m/T) and weight*ceil(m/T) |
| `MaglevFairness.UnweightedIsOne` | internal/maglev/maglev.go:28-33 | a backend of weight 0 gives the table that one of weight 1 gives |
| `TableShares.TenToOne` | internal/maglev/maglev.go:28-99 | weights 10 and 1 share 1031 slots as 938 and 93 |
| `TableShares.WeightIsLast` | internal/dataplane/dataplane.go:697-716 | of several entries for one backend the last gives its weight, 0 counting as 1 |
| `TableShares.MacIsLast` | internal/dataplane/dataplane.go:444-451 | and its hardware address |
| `TableShares.SlotsFollowWeights` | internal/dataplane/dataplane.go:697-756 | at rest, the slots of a VIP's extent that name a backend are between w*floor(size/T) and w*ceil(size/T), w and T being the weights in the VIP's configuration |
| `UpsertSteps.SortedNames` | internal/dataplane/dataplane.go:708-712 | a VIP's backends, each once, in the order of their names |
| `TableShares.SameTableAgain` | internal/dataplane/dataplane.go:708-717 | whatever happened in between, a VIP that again has the backends, IDs, weights and table size it had has the same table, slot by slot |
| `MaglevFairness.TableCoversBackends` | internal/maglev/maglev.go:75-99 | every slot holds a valid backend index and every backend is in some slot |
| `IdAllocation.PoolCount` | internal/dataplane/idalloc.go:26-60 | used and free IDs partition [0, next) in every valid state, by count |
| `IdAllocation.IdAllocator.Alloc` | internal/dataplane/idalloc.go:26-44 | a key keeps its ID; a new key gets an ID nobody holds, a released one if there is one, and the pool grows only as far as the IDs in use require; fails exactly when every ID is in use |
| `IdAllocation.IdAllocator.Release` | internal/dataplane/idalloc.go:53-60 | the key is forgotten and its ID is free again; an unknown key changes nothing |
| `IdAllocation.IdAllocator.Reserve` | internal/dataplane/adopt.go:82-115 | claims exactly the given ID, growing the pool as needed; fails exactly when the ID is out of range, held by another key, or the key holds another |
| `ExtentAllocation.CoalescedIsUnique` | internal/dataplane/maglevalloc.go:70-87 | a set of free slots has only one sorted, coalesced free list, so equal slots mean equal lists |
| `ExtentAllocation.ExtentAllocator.Alloc` | internal/dataplane/maglevalloc.go:54-68 | first fit: takes the requested slots out of the free slots; fails exactly when no free extent is large enough |
| `ExtentAllocation.ExtentAllocator.Free` | internal/dataplane/maglevalloc.go:70-87 | gives the slots back and leaves the list sorted and fully coalesced |
| `ExtentAllocation.ExtentAllocator.Reserve` | internal/dataplane/adopt.go:120-139 | cuts exactly the given extent out of the free slots, or fails and changes nothing, in 32-bit arithmetic |
| `ExtentAllocation.SortedWith` | internal/dataplane/maglevalloc.go:74-75 | appending and sorting an extent apart from the free ones keeps the list ordered and adds exactly its slots |
| `ExtentAllocation.Merge` | internal/dataplane/maglevalloc.go:77-86 | merging neighbours keeps the slots and leaves no two extents touching |
| `ExtentAllocation.CarveOut` | internal/dataplane/adopt.go:120-139 | replacing a free extent by what is left of it removes exactly the carved slots and keeps the list coalesced |
| `ExtentAllocation.FreeRestores` | internal/dataplane/adopt.go:272-297 | freeing what was taken restores the very same list, entry by entry |
| `PortRange.RangeBlocks` | internal/dataplane/portrange.go:33-46 | returns the greedy tiling of lo..hi |
| `PortRange.BlockSizeAt` | internal/dataplane/portrange.go:36-41 | the inner loop finds the largest aligned block that starts at cur and does not pass hi |
| `PortRange.TilingTiles` | internal/dataplane/portrange.go:33-46 | the tiling consists of aligned blocks in port order, covers every port of lo..hi and no other, and each once |
| `PortRange.TilingIsMinimal` | internal/dataplane/portrange.go:33-46 | unless it is the whole port space, no aligned cover of lo..hi has fewer blocks |
| `PortRange.FewestBlocksIff` | internal/dataplane/portrange.go:33-46 | the tiling is minimal if and only if the range is not 0..65535 |
| `PortRange.WholeSpaceIsNotMinimal` | internal/dataplane/portrange.go:33-46 | 0..65535 gets two blocks where one would do, since a block stops growing at half the ports |
| `PortRange.AtMostThirtyBlocks` | internal/dataplane/portrange.go:33-46 | every range, from port 0 too, needs at most thirty blocks |
| `PortRange.BlocksSpan` | internal/dataplane/adopt.go:486-519 | recovers lo..hi from its blocks in any order, and accepts a block list if and only if it is the tiling of some range |
| `VipLookup.LookupAgrees` | bpf/xdp_ingress.c:352-378 | the exact-port-then-trie lookup finds the exact VIP, else the one range VIP that contains the port, else nothing |
| `VipLookup.CheckRanges` | internal/config/config.go:938-962 | accepts a configuration exactly when no two ranges on one address and protocol overlap |
| `VipLookup.CheckedIsCompatible` | internal/config/config.go:938-962 | every configuration it accepts is one the lookup is right for |
| `BpfMaps.PickFrom` | bpf/xdp_ingress.c:318-337 | what eight probes find is a healthy backend named by a slot of the service's own extent |
| `BpfMaps.ConfinedPacket` | bpf/xdp_ingress.c:928-983 | in a confined snapshot a new flow is dropped, passed, or sent to a healthy backend of the VIP it is matched to: the exact VIP of its port if that is in the map, else a range that contains the port |
| `BpfMaps.UnhealthyNotPicked` | bpf/xdp_ingress.c:318-337 | a backend not marked healthy is never chosen for a new flow, whatever else the maps hold |
| `MapAgreement.AgreeConfined` | internal/dataplane/dataplane.go:422-530 | maps that agree with the memory are confined to each VIP's own backends |
| `MapAgreement.ButConfined` | internal/dataplane/dataplane.go:428-530 | whatever is amiss, half-way through an operation or after failed ones, packets of every VIP that agrees are confined to its own backends, and those of the others to what is recorded for them |
| `Watching.UnderSafe` | internal/dataplane/dataplane.go:428-530 | half-way through an operation packets are confined as said, every VIP the operation keeps is found, IDs of listed backends mean what they meant, listed backends keep their health, and slots still in use are unchanged |
| `MapAgreement.UnhealthyNotChosen` | internal/dataplane/dataplane.go:846-859 | a backend that is drained, by either side, or fails its probes is never chosen for a new flow |
| `DataplaneState.AcquireKeeps` | internal/dataplane/dataplane.go:761-787 | a reference taken for a VIP that then lists the backend keeps counts equal to users, and names and IDs one to one |
| `DataplaneState.AcquireLoses` | internal/dataplane/dataplane.go:761-787 | a reference taken and not recorded is one more lost |
| `DataplaneState.AgreeIffNothingLost` | internal/dataplane/dataplane.go:761-844 | counts equal users if and only if no reference has been lost |
| `DataplaneState.ReleaseKeeps` | internal/dataplane/dataplane.go:826-844 | dropping a reference keeps them so, and the last one frees the ID and the state |
| `DataplaneState.MoveKeeps` | internal/dataplane/dataplane.go:719-755 | moving a VIP to another extent keeps live extents and free list a partition of the table |
| `DataplaneState.DropKeeps` | internal/dataplane/dataplane.go:873-896 | so does removing a VIP |
| `DataplaneControl.Dataplane.AcquireBackend` | internal/dataplane/dataplane.go:761-824 | ID, reference count, backend_map entry and health after each write; succeeds exactly when there is an ID, the hardware address parses and both writes are accepted; one that fails after counting loses the reference |
| `DataplaneControl.Dataplane.ReleaseBackend` | internal/dataplane/dataplane.go:826-844 | the count goes down, and with the last reference the state, the maps' entries and the ID go |
| `DataplaneControl.Dataplane.DropBackends` | internal/dataplane/dataplane.go:452-460 | the unwanted backends lose one reference each, and every snapshot on the way is confined |
| `DataplaneControl.Dataplane.AddBackends` | internal/dataplane/dataplane.go:461-474 | succeeds exactly when all hardware addresses parse, there are IDs for all together and every write is accepted; then the wanted backends are listed; says why it failed; every snapshot keeps to the guard, failed or not |
| `DataplaneControl.Dataplane.WriteTable` | internal/dataplane/dataplane.go:738-748 | writes the table slot by slot until a write is refused, touching only the target extent, in every snapshot |
| `DataplaneControl.Dataplane.PlaceTable` | internal/dataplane/dataplane.go:697-736 | finds an extent of the right class and builds the table for it, exactly when that is possible; otherwise the free list is what it was |
| `DataplaneControl.Dataplane.Rebuild` | internal/dataplane/dataplane.go:697-756 | succeeds exactly when the table can be built and every slot write is accepted; the new table is complete in an extent of the right class before it is published; a table that moves never touches a slot of the extent it leaves; a failure gives back what it took |
| `DataplaneControl.Dataplane.Regroup` | internal/dataplane/dataplane.go:446-474 | succeeds exactly when hardware addresses parse, IDs suffice and writes are accepted; the VIP's backends are then exactly the wanted ones, those that stay with their IDs; touches no table, configuration or VIP entry |
| `DataplaneControl.Dataplane.RebuildIfChanged` | internal/dataplane/dataplane.go:478-494 | if it succeeds, the table is the one of the wanted weights if and only if backends or weights differ from the record, so that it is rebuilt, or it was right already; otherwise the slots are left alone |
| `DataplaneControl.Dataplane.PublishVip` | internal/dataplane/dataplane.go:496-530 | configuration, then VIP map entries; only if both are accepted does the specification count as programmed, and the VIP then agrees with the memory if and only if its table is right |
| `DataplaneControl.Dataplane.Finish` | internal/dataplane/dataplane.go:478-530 | the table, the configuration and the VIP entries together: exactly when they succeed and why not, and that nothing of another VIP changes |
| `DataplaneControl.Dataplane.InstallVip` | internal/dataplane/dataplane.go:1277-1298 | every entry of the VIP leads to its service, exactly if every write is accepted |
| `DataplaneControl.Dataplane.InstallRange` | internal/dataplane/portrange.go:73-96 | one block at a time; when one is refused the blocks before it are gone again, whether or not they were there before |
| `DataplaneControl.Dataplane.UninstallVip` | internal/dataplane/dataplane.go:1304-1319 | no entry of the VIP is left, and nobody else's is touched |
| `DataplaneControl.Dataplane.UpsertLocked` | internal/dataplane/dataplane.go:428-530 | succeeds exactly when the specification can be met from here (service ID, backend IDs, hardware addresses, extent, total weight, no empty list) and every write is accepted, and says why not; only its own VIP changes, in memory and in the maps; whatever was amiss before, every snapshot keeps to the guard, failed or not, and afterwards everything agrees but for what was amiss and, if it failed or did not mend the table, the VIP itself |
| `DataplaneControl.Dataplane.Upsert` | internal/dataplane/dataplane.go:422-426 | extents and IDs stay consistent on every path, and reference counts too, if and only if the failure is not one after counting a new backend; when nothing but the VIP was amiss, a success brings agreement if and only if it rebuilds the table or finds it right |
| `UpsertSteps.AgreeHeals` | internal/dataplane/dataplane.go:478-494 | from agreement every successful upsert does one or the other |
| `UpsertSteps.LosesIff` | internal/dataplane/dataplane.go:761-797 | with IDs for all, every write accepted and good addresses for the backends already listed, a reference is lost if and only if the hardware address of a newly listed backend does not parse |
| `UpsertSteps.OutgrownStays` | internal/dataplane/dataplane.go:697-756 | while a table moves, in every snapshot, the slots the published configuration points at are what they were |
| `UpsertSteps.TableMovesOnlyToGrow` | internal/dataplane/dataplane.go:709-729 | a table stays where it is as long as it has a hundred slots a backend, however many go, and moves only to a larger class |
| `UpsertConditions.RefitsIsAcceptable` | internal/dataplane/dataplane.go:428-494 | a VIP whose new table fits in the extent it has can always be upserted, if there are IDs for the new backends |
| `Scenarios.LoseReference` | internal/dataplane/dataplane.go:761-797 | a full-NAT VIP whose backend has a malformed hardware address: the upsert fails and the backend has an ID and a reference though no VIP lists it |
| `Scenarios.LostForGood` | internal/dataplane/dataplane.go:461-474 | correcting the address makes the count two for one VIP, and removing the VIP leaves the backend behind |
| `FailedUpserts.KeepOldTable` | internal/dataplane/dataplane.go:452-494 | a VIP drops a backend in an upsert that fails; the corrected one succeeds, and the table still names the dropped backend |
| `FailedUpserts.StrayAfterCorrection` | internal/dataplane/dataplane.go:452-494 | then another VIP is added, its backend gets the freed ID, and packets of the first VIP go to it, though no update was ever refused and the last upsert of each VIP succeeded |
| `DataplaneControl.Dataplane.Remove` | internal/dataplane/dataplane.go:873-896 | the VIP is gone from memory and maps, and with it whatever was amiss about it; nothing else changes, every snapshot keeps to the guard |
| `DataplaneControl.Dataplane.SetBackendHealth` | internal/dataplane/dataplane.go:902-914 | the probe's verdict changes only that flag; if the write is refused, only that backend's entry is behind |
| `DataplaneControl.Dataplane.SetBackendDraining` | internal/dataplane/dataplane.go:916-932 | the Kubernetes-side drain, likewise, and apart from the operator's |
| `DataplaneControl.Dataplane.SetBackendAdminDraining` | internal/dataplane/dataplane.go:958-967 | the operator's drain, likewise; fails exactly when no VIP lists the backend |
| `DataplaneControl.Dataplane.StoreFlags` | internal/dataplane/dataplane.go:846-859 | the flags are stored and the health map entry is what they amount to, as `NewFlows.HealthAtRest` spells out |
| `NewFlows.HealthAtRest` | internal/dataplane/dataplane.go:846-859 | at rest a backend takes new flows exactly if its probes succeed and nobody has drained it, and keeps its flows exactly if its probes succeed |
| `NewFlows.ServiceAtRest` | internal/dataplane/dataplane.go:496-513 | at rest a service entry holds the number of backends, the place of the table, mode, affinity and whether the VIP is a range, as configured |
| `ReloadPlanning.LastEntryCounts` | internal/dataplane/dataplane.go:619-651 | of several entries for one VIP the last counts |
| `ReloadPlanning.NothingPlannedIff` | internal/dataplane/dataplane.go:613-651 | a reload plans nothing exactly when the configuration is the one already running |
| `ReloadPlanning.PlanReload` | internal/dataplane/dataplane.go:619-651 | removes what is no longer wanted, upserts exactly what differs, in the order of the configuration, and counts the VIPs that are new, changed and neither |
| `DataplaneControl.Dataplane.Reload` | internal/dataplane/dataplane.go:664-695 | without error exactly the configured VIPs are left, as configured; VIPs and backends that stay keep their IDs, and backends that stay listed keep health and drains; in every snapshot VIPs of both configurations are found and packets keep to old or new backends; with errors too, everything agrees but for what is known to be amiss; it cannot fail if the kernel accepts everything, every table fits where the VIP has its table, and there are IDs for all backends, old and new |
| `ReloadSteps.DrainKeptIff` | internal/dataplane/dataplane.go:664-695 | a drained backend that is listed after a reload is still drained if and only if some VIP lists it after the removals and after each upsert |
| `ReloadSteps.MoveDependsOnOrder` | internal/dataplane/dataplane.go:664-695 | moving a backend from one VIP to another, some VIP lists it throughout if the VIP that gets it comes first in the configuration, and not otherwise |
| `MovedDrain.MoveDrained` | internal/dataplane/dataplane.go:664-695 | two executions: a drained backend is moved by a reload without error, and afterwards gets every new flow of its new VIP if the one that gives it up comes first in the configuration, and none if the one that gets it does |
| `ControlRuns.Apply` | internal/dataplane/dataplane.go:422-967 | one operation of any kind takes the configuration to the next, with every snapshot between the two, and failing adds only to what is amiss |
| `ControlRuns.Run` | internal/dataplane/dataplane.go:422-967 | any run of operations, whatever fails: maps and memory agree but for what is known to be amiss. Without error: maps agree with exactly what was configured; in every snapshot packets keep to their VIP's old or new backends and VIPs that stay are found; a backend some VIP goes on listing keeps its ID throughout, and its health in every snapshot is what the verdicts and drains reported so far say, with or without the one being reported; one the operator drained is healthy in no snapshot and gets no new flow, whatever probes, reloads and Kubernetes undrains do |
| `ControlRuns.ProbesDecide` | internal/dataplane/dataplane.go:846-914 | while no probe of it fails such a backend is down in no snapshot, whatever drains are set or lifted; once one fails it is down in every snapshot until one succeeds |
| `ControlRuns.OneOwner` | internal/config/config.go:935-962 | under a compatible configuration a packet has at most one VIP |
| `ControlRuns.BetweenRoutes` | bpf/xdp_ingress.c:352-378 | in every snapshot between two configurations a packet is matched to the exact VIP if both have it, and of ranges to the one both have |
| `ControlRuns.OwnerBeforeOrAfter` | bpf/xdp_ingress.c:352-378 | when the two differ in one VIP, that is the packet's VIP under the one or the other |
| `ControlRuns.KeptVipIsFound` | internal/dataplane/dataplane.go:422-530 | a packet of a VIP both have finds a service in every such snapshot |
| `AdoptScan.DistinctIds` | internal/dataplane/adopt.go:65-76 | the distinct IDs of the slots, ascending |
| `AdoptScan.ReadService` | internal/dataplane/adopt.go:239-270 | what the maps record about a service: exactly the backends its slots name, or nothing if any of it cannot be understood |
| `AdoptScan.ScanRanges` | internal/dataplane/adopt.go:403-482 | one record per service, address and protocol, holding all their blocks and nobody else's |
| `AdoptScan.RecordsIsUnique` | internal/dataplane/adopt.go:239-270 | agreeing maps record exactly the VIP's backends, since every backend has a slot |
| `AdoptScan.RawIsVip` | internal/dataplane/adopt.go:180-237 | every record of agreeing maps is one of the VIPs |
| `AdoptScan.VipHasRaw` | internal/dataplane/adopt.go:180-237 | every VIP of agreeing maps has its record |
| `Adoption.ReserveBackends` | internal/dataplane/adopt.go:272-297 | claims all backend IDs or, on a conflict, none |
| `Adoption.Claim` | internal/dataplane/adopt.go:272-297 | claims extent, service ID and backend IDs, or nothing: the allocated IDs and the free list are then what they were |
| `Adoption.TakeReferences` | internal/dataplane/adopt.go:299-320 | reference counts again equal the number of VIPs listing a backend |
| `Adoption.AdoptOne` | internal/dataplane/adopt.go:239-329 | recreates the entry exactly when everything it needs is free, and changes nothing otherwise |
| `Adoption.DropRaw` | internal/dataplane/adopt.go:355-375 | deletes exactly the entries of the record |
| `Adoption.AdoptAll` | internal/dataplane/adopt.go:180-237 | whatever the maps held, every entry left leads to an adopted VIP; maps left by successful operations are taken over in full and nothing is dropped |
| `Adoption.HealthStaysConfined` | internal/dataplane/adopt.go:299-329 | while adoption rewrites health, packets keep to the backends their VIP had |
| `Adoption.RestoredBackends` | internal/dataplane/adopt.go:239-329 | backend IDs and reference counts are the ones before the restart |
| `Adoption.Restart` | internal/dataplane/adopt.go:180-329 | stop, start, adopt, reload: exactly the configured VIPs are left, service IDs and the IDs of kept backends are unchanged, no snapshot on the way lets a packet stray; flags of backends that stay are what they were if and only if none of them was drained or down; with the configuration the old process ran it cannot fail |
| `Adoption.FreshIff` | internal/dataplane/adopt.go:299-320 | adoption gives fresh flags, which are the old ones exactly for backends that were healthy |
| `Adoption.RunningRefits` | internal/dataplane/dataplane.go:478-494 | what a process runs fits where it is |
| `Scenarios.ForgetDrain` | internal/dataplane/adopt.go:299-320 | a drained backend gets no new flow, and after a restart with the same configuration every one |
| `Checksum.AcceptedIff` | bpf/rivora_common.h:538-551 | a receiver accepts exactly the non-zero messages whose words sum to a multiple of 65535 |
| `Checksum.ByteOrderIsIrrelevant` | bpf/rivora_common.h:552-574 | reading the words in the other byte order does not change that |
| `Checksum.ReplaceWord` | bpf/rivora_common.h:554-560 | the 16-bit form: two folds suffice, the sum is kept mod 65535 (equation 3 in section 3 of RFC 1624), and exactly when the result is zero |
| `Checksum.ReplaceWords` | bpf/rivora_common.h:561-574 | the wide form: an error code leaves the checksum alone; otherwise four folds suffice for every signed 64-bit difference that does not overflow, and exactly when the result is zero |
| `Checksum.EditAll` | bpf/rivora_common.h:552-574 | any chain of field changes: only those fields and the checksum change, and the message is as valid as it was |
| `TokenBucket.Take` | bpf/rivora_common.h:470-495 | a token goes with every admitted SYN and no other, and there are never more than the burst |
| `TokenBucket.AnyWindow` | bpf/rivora_common.h:464-495 | in any window of any run with a surviving bucket at most burst + floor(rate*D/10^9) SYNs are admitted, even with wrap-around |
| `TokenBucket.NeverWrapsIff` | bpf/rivora_common.h:457-488 | no step wraps at 64 bits if and only if rate*10^10 and burst + 10*rate are below 2^64 |
| `TokenBucket.RefilledIs` | bpf/rivora_common.h:464-488 | without wrap-around the bucket holds what it held plus what ten seconds at most have earned, up to the burst |
| `TokenBucket.BurstIsAdmitted` | bpf/rivora_common.h:464-495 | a source's first SYNs are admitted up to the burst, however fast they come |
| `TokenBucket.PacedIsAdmitted` | bpf/rivora_common.h:464-495 | a source that leaves a token time between its SYNs has every one admitted |
| `V6Walk.Walk` | bpf/rivora_common.h:346-389 | succeeds exactly on the header chains of section 4 of RFC 8200 within four walked headers, 248 bytes and one Fragment header, and reports their offset, protocol and fragment fields |
| `V6Walk.ReadExt` | bpf/rivora_common.h:357-381 | reads in bounds, and the byte mask on the offset never changes it |
| `V6Walk.LaidOutIsRead` | bpf/rivora_common.h:346-389 | any chain of options and Fragment headers laid out as section 4 of RFC 8200 says, wherever it stands, is read back as it was written |
| `PacketPrograms.ReplaceL4Csum` | bpf/xdp_ingress.c:1013-1038 | the checksum is as right as before, and becomes zero exactly when the new address and port outweigh the old ones and the checksum |
| `PacketPrograms.Redirect` | bpf/xdp_ingress.c:1013-1038 | sent to the backend instead, with IP and L4 checksums as right as before, an absent one still absent, and zero exactly when the change cancels out |
| `PacketPrograms.LosesChecksumIff` | bpf/xdp_ingress.c:1013-1038 | a valid UDP datagram over IPv4 loses its checksum on the way in if and only if what the new one covers adds up to a multiple of 65535 |
| `PacketPrograms.ReplyLosesChecksumIff` | bpf/tc_nat.c:119-142 | and so does a reply on the way out |
| `PacketPrograms.DatagramLosesChecksum` | bpf/xdp_ingress.c:1013-1038 | a datagram, word by word, with valid IP and UDP checksums, that does |
| `PacketPrograms.Resource` | bpf/tc_nat.c:119-142 | sent from the VIP instead, likewise |
| `PacketPrograms.Retarget` | bpf/xdp_ingress.c:848-881 | an ICMP error rewritten for the backend: outer, quoted and ICMP checksums as right as before, in both families |
| `PacketPrograms.Balancer.PickBackend` | bpf/xdp_ingress.c:318-337 | the probe loop finds the first healthy backend of eight slots |
| `PacketPrograms.Balancer.RateLimitExceeded` | bpf/xdp_ingress.c:250-273 | charges exactly one bucket, the service's own or else the node's |
| `PacketPrograms.Balancer.HandleSegment` | bpf/xdp_ingress.c:928-1051 | from VIP lookup to verdict, with every map it writes |
| `PacketPrograms.Balancer.HandleServed` | bpf/xdp_ingress.c:944-1051 | affinity or Maglev, then fragment record, NAT rewrite and reverse entry |
| `PacketPrograms.Balancer.HandlePiece` | bpf/xdp_ingress.c:752-785 | a later fragment is sent where its first fragment was, or passed, or dropped if that backend is down |
| `PacketPrograms.Balancer.HandleIcmp` | bpf/xdp_ingress.c:795-882 | an error is sent to the backend of the flow it is about, or passed untouched |
| `PacketPrograms.Balancer.Ingress` | bpf/xdp_ingress.c:1340-1362 | the whole ingress program |
| `PacketPrograms.Balancer.Egress` | bpf/tc_nat.c:57-237 | the whole egress program |
| `NewFlows.NewFlowOutcome` | bpf/xdp_ingress.c:928-983 | without a usable entry, and let through by the limiter: sent to the backend SelectNew offers and the flow noted there; dropped if there is none; passed on if it is for no VIP or one that cannot serve it |
| `NewFlows.NotOfferedUntouched` | bpf/xdp_ingress.c:928-983 | a packet that is not offered a backend leaves as it came |
| `NewFlows.OwnerIsFound` | bpf/xdp_ingress.c:352-378 | at rest every packet finds the service of the VIP it belongs to |
| `NewFlows.PickFirst` | bpf/xdp_ingress.c:318-337 | the probes end at the first healthy slot of the eight |
| `NewFlows.NewFlowGoesTo` | bpf/xdp_ingress.c:950-983 | at rest a new flow goes to the first backend taking new flows of the eight its slots name, its slots being those its five-tuple, or with client-IP affinity its source, hashes to |
| `NewFlows.NewFlowIsSent` | bpf/xdp_ingress.c:950-983 | at rest a new flow of a VIP whose backends all take new flows and are of its family is always sent |
| `NewFlows.NewFlowIsDropped` | bpf/xdp_ingress.c:970-975 | and one none of whose eight backends takes new flows is always dropped |
| `NewFlows.SameSourceSameBackend` | bpf/xdp_ingress.c:966-968 | with client-IP affinity all new flows of one source are offered the same backend by the same maps |
| `NewFlows.NatReachesPort` | bpf/xdp_ingress.c:1013-1038 | a NAT VIP on one port reaches a backend on the backend's port, a range on the client's |
| `PacketRuns.NewFlowConfined` | bpf/xdp_ingress.c:950-983 | while the published maps are confined, a flow without a usable entry reaches only a healthy backend of the VIP it is matched to |
| `PacketRuns.NewFlowAtAnyMoment` | internal/dataplane/dataplane.go:428-530 | at every intermediate map write of every run of successful operations, a new flow is dropped, passed, or sent to a healthy backend in its VIP's old or new set; its VIP is the exact one if configured before and after, of ranges the one that is, and around an operation on one VIP its owner before or after |
| `PacketRuns.Sticky` | bpf/xdp_ingress.c:950-977 | over any run, while the entry survives and its backend is not down, no packet of the flow and no error about it goes to another backend, whatever is published meanwhile |
| `PacketRuns.StickyToBackend` | bpf/xdp_ingress.c:950-977 | while some VIP goes on listing the backend, every packet of the flow that is sent anywhere is sent to that endpoint, in every snapshot of the run |
| `PacketRuns.StaysUsable` | bpf/xdp_ingress.c:955-964 | over any run, while some VIP goes on listing the backend and no probe of it fails, a flow whose entry survives goes on using it in every state, whatever drains are set or lifted |
| `PacketRuns.DownGetsNothing` | bpf/xdp_ingress.c:955-964 | no packet, fragment or error goes to a backend that is down |
| `PacketRuns.FailedProbeEnds` | bpf/xdp_ingress.c:955-964 | once a probe has failed, and until one succeeds, no flow uses the backend and nothing is sent to it |
| `PacketRuns.StickyStep` | bpf/xdp_ingress.c:950-983 | and it goes to that backend whenever the service is served and the limiter lets it pass |
| `PacketRuns.NatRoundTrip` | bpf/xdp_ingress.c:1013-1046 | over any run in which the reverse entry survives, last written for that VIP, the reply leaves with exactly the address and port the client used |
| `PacketRuns.FragmentsFollow` | bpf/xdp_ingress.c:752-785 | later fragments go to the first fragment's backend, with the same destination, exactly as long as it is not down and has its entry, even if the flow's affinity has moved on; they are dropped once it is down, else passed on untouched |
| `PacketRuns.ReplyFragmentsFollow` | bpf/tc_nat.c:57-68 | later fragments of a reply get the VIP source its first fragment got |
| `PacketRuns.ErrorReachesSender` | bpf/xdp_ingress.c:787-882 | an error about a translated reply reaches the backend that sent it, quoting exactly what it sent |
| `PacketRuns.ErrorSentIff` | bpf/xdp_ingress.c:795-846 | an error is steered to a backend exactly if it was sent to the VIP whose reply it quotes and the flow has a usable entry for a backend of its family; any other passes untouched |
| `PacketRuns.SynsBounded` | bpf/xdp_ingress.c:250-273 | over any run, the SYNs let through for one source are bounded by burst and rate |
| `PacketRuns.PacedLetThrough` | bpf/xdp_ingress.c:250-273 | and every SYN of a source that keeps to the rate is let through |
| `BgpRoutes.Merge` | internal/bgp/bgp.go:545-557 | first-seen order, no repeats, nothing lost |
| `BgpRoutes.CollectVips` | internal/bgp/bgp.go:449-461 | for each healthy address, its communities in order and its peer scope: all peers as soon as one VIP names none |
| `BgpRoutes.AddAggregates` | internal/bgp/bgp.go:465-490 | the aggregates over a healthy address, and exactly the addresses they suppress |
| `BgpRoutes.DesiredRoutes` | internal/bgp/bgp.go:443-502 | fails exactly when something needed does not parse; otherwise exactly the routes that should be advertised, with their communities and peers |
| `BgpRoutes.RouteIff` | internal/bgp/bgp.go:443-502 | an address has a host route exactly when a VIP on it is healthy and no suppressing aggregate covers it (host-length aggregates aside); an aggregate exactly when it covers a healthy address |
| `BgpRoutes.HostCommunities` | internal/bgp/bgp.go:449-502 | a host route carries exactly the global communities and those of the healthy VIPs on its address, each once |
| `AddressBits.MaskKeepsFirstBits` | internal/bgp/bgp.go:470 | masking keeps the first bits of an address and clears the rest, in either family |
| `AddressBits.CoversIff` | internal/bgp/bgp.go:472-479 | a prefix covers an address exactly if they are of one family and share the first bits |
| `AddressBits.MaskedCovers` | internal/bgp/bgp.go:470-479 | the masked prefix covers the same addresses, and masking it again changes nothing |
| `AddressBits.HostCoversItself` | internal/bgp/bgp.go:491-502 | an address's own prefix covers it alone |
| `BgpState.EditWorksIff` | internal/bgp/peerselect.go:100-144 | a successful edit denies everything wanted if and only if gobgp still held what was wanted and believed held |
| `BgpState.EntryAfter` | internal/bgp/peerselect.go:118-144 | whether an entry is in the deny set after any number of the four calls of an edit |
| `BgpState.FailedEditIff` | internal/bgp/peerselect.go:134-144 | a failed edit leaves the record safe if and only if it failed before deleting or had no IPv4 entry to delete |
| `BgpSpeaker.Speaker.EditDeny` | internal/bgp/peerselect.go:120-144 | exactly which of the four calls took effect; succeeds exactly when no call fails |
| `BgpSpeaker.Speaker.SyncDenySets` | internal/bgp/peerselect.go:213-239 | every peer edited towards its deny list; a failure is reported, exactly when there is one, and does not stop the others |
| `BgpSpeaker.Speaker.CreatePeerLimits` | internal/bgp/peerselect.go:151-190 | which sets it deletes and which it defines, whatever fails: if it succeeds the peer is denied what it must not receive, by a rule in force, and nothing else but what an earlier drop left behind; if no call fails, exactly that; nobody else is touched |
| `BgpState.CreatedShields` | internal/bgp/peerselect.go:151-190 | limits created over an empty or a deleted deny set deny exactly the deny list |
| `BgpSpeaker.Speaker.DropPeerLimits` | internal/bgp/peerselect.go:194-208 | the rule is taken out of force and deleted before the sets it uses; exactly the sets whose deletion succeeds are gone, and the record; if no call fails nothing of the peer's is left |
| `BgpSpeaker.Speaker.AddPeer` | internal/bgp/bgp.go:156-176 | the session only starts with the limits in place; successful or not, it is steps of the protocol |
| `BgpSpeaker.Speaker.StopPeer` | internal/bgp/bgp.go:208-213 | the session ends before the limits go; successful or not, it is steps of the protocol |
| `BgpSpeaker.Speaker.StopPeers` | internal/bgp/bgp.go:203-219 | stops exactly the peers that are to go or to change |
| `BgpSpeaker.Speaker.StartPeers` | internal/bgp/bgp.go:220-233 | starts exactly the wanted peers that do not run |
| `BgpSpeaker.Speaker.SetPeers` | internal/bgp/bgp.go:189-235 | if no call fails exactly the wanted peers run, each one started denied exactly what it must not receive, and the counts are right; unchanged peers are left alone in any case; every run of it is steps of the protocol |
| `BgpSpeaker.Speaker.WithdrawStale` | internal/bgp/bgp.go:398-414 | withdraws exactly the stale routes, as far as calls succeed |
| `BgpSpeaker.Speaker.AdvertiseMissing` | internal/bgp/bgp.go:416-437 | adds exactly the missing routes, as far as calls succeed, and no limited one unless every deny set is up to date |
| `BgpSpeaker.Speaker.Resync` | internal/bgp/bgp.go:385-437 | clean exactly when no call fails, and then gobgp holds exactly the desired routes and the record says so; whatever fails, no limited route is added unless every deny set was updated; every run of it is a pass of the protocol from rest to rest |
| `BgpProtocol.AlwaysInv` | internal/bgp/bgp.go:373-437 | the invariant of every interleaving of a pass and SetPeers, whatever calls fail |
| `BgpProtocol.LostIff` | internal/bgp/peerselect.go:213-239 | in every interleaving, the speaker records an entry that a running peer is not denied if and only if an edit of that peer failed after its IPv4 calls while that IPv4 entry was recorded and no longer wanted, and in every state since then the peer has run and the entry has been recorded |
| `BgpProtocol.PassBlocksIff` | internal/bgp/peerselect.go:211-239 | throughout a pass with up-to-date deny sets a running peer is kept from a route it must not get if and only if that very entry is not lost, that is, unless the run has such a cause |
| `BgpProtocol.HandedOverSafely` | internal/bgp/bgp.go:385-437 | so it is for every limited route and every running peer outside its list, peers added mid-pass included, at the moment the route is handed to gobgp |
| `BgpProtocol.RestIsSafe` | internal/bgp/peerselect.go:211-239 | in every state from the end of an error-free pass to the next, no limited route reaches a peer outside its list if and only if no entry that keeps one from a running peer is lost |
| `BgpProtocol.RestLeaksIff` | internal/bgp/peerselect.go:211-239 | the same in terms of the run: there is a leak at rest if and only if an earlier edit failed as said and nothing has made up for it |
| `BgpProtocol.CleanPassIsComplete` | internal/bgp/bgp.go:385-437 | a pass that ends without an error has put exactly the wanted routes into gobgp, whatever SetPeers did meanwhile |
| `BgpProtocol.GapIff` | internal/bgp/bgp.go:385-413 | after an update of the deny sets, whatever failed in it and before the withdrawals, nothing leaks if and only if every limited route in the table goes on being kept from each running peer it must not reach, given which of its entries were held, recorded and wanted and how many calls took effect |
| `BgpReach.StrayIff` | internal/bgp/peerselect.go:151-239 | in every interleaving, gobgp holds an entry the speaker does not record if and only if a failed edit, creation, stop or start of the peer left it behind, and since then it has not been recorded, nor its set deleted |
| `BgpReach.ReachesIff` | internal/bgp/peerselect.go:211-239 | in every state at rest, whatever has failed: a route reaches a running peer it is for unless a stray entry blocks it, and one it is not for exactly if the entry that should block it is lost |
| `BgpReach.WithheldIff` | internal/bgp/peerselect.go:211-239 | the same in terms of the run: a running peer lacks a route it may have if and only if such a failed step left the entry behind |
| `BgpReach.EveryoneServed` | internal/bgp/bgp.go:373-437 | in every state at rest of a behaviour in which no edit, removal or start of a peer has failed, every route reaches exactly the running peers it is for |
| `BgpScenarios.GapExists` | internal/bgp/bgp.go:385-413 | a run from the start, no call failing, in which it does leak |
| `BgpScenarios.LostEntryLeaks` | internal/bgp/peerselect.go:213-239 | a run from the start in which one edit fails between the families, and a later pass without error hands over a limited route that nothing keeps from a running peer outside its list |
| `BgpScenarios.StrayEntryWithholds` | internal/bgp/peerselect.go:213-239 | a run from the start in which one edit fails after adding an entry, and a later pass without error advertises that route to everyone while one running peer does not get it |

## Left out

- Weight overrides, probe settings, the bytes of hardware addresses, per-service rate-limit configuration and its update, the tunnel readiness check and unclaimed VIPs: not part of the modelled control plane.
- A deletion or zeroing of a map entry that fails: the source discards the error, and the model takes the deletion to have happened.
- DataplaneControl.Dataplane.UpsertLocked: a VIP that is amiss is not claimed to be found, and its packets may reach whatever has been added since; and when the VIP map itself refuses the last write of a range already installed, its earlier blocks are deleted, so that VIP alone is not claimed to stay found.
- DataplaneControl.Dataplane.Reload: what every snapshot keeps to is claimed for a reload that reports no error; for one that does, it is claimed of each upsert on its own.
- Adoption.Restart: assumes the old process had maps and memory in agreement and had lost no reference; a backend that nobody lists any more would be left over in backend_map.
- ControlRuns.Run: the claims about one backend are for one that some VIP goes on listing through every operation; what a reload does to any other is `ReloadSteps.DrainKeptIff`.
- L3 DSR encapsulation, ICMP too-big replies, FIB lookup and redirect: a packet of those modes leaves as `Forward`, and what the tunnel code does then is not modelled.
- Parsing of Ethernet, VLAN, IPv4 and transport headers from bytes: packets are given by their header words; only the IPv6 extension-header walk is on bytes.
- PacketRuns.Sticky: says nothing once the entry is evicted or the backend goes down; and an affinity hit is not claimed to stay within the VIP, because the fast path checks only health.
- TokenBucket.AnyWindow: on one CPU's bucket; every call drops a fraction of a token, so a source faster than the rate may get less than this bound. What it must get is `TokenBucket.BurstIsAdmitted` and `TokenBucket.PacedIsAdmitted`.
- PacketRuns.ErrorReachesSender: assumes service, backend entry and affinity are still what they were when the request was translated.
- Packet, byte and drop counters.
- route.sig as text: two routes are taken to have the same signature exactly when they have the same communities and peers.
- BgpProtocol.HandedOverSafely: takes normalised peers to be distinct.
- BgpSteps.Step: the deny-set edits of one pass are one step, since nothing else that looks at them runs meanwhile but gobgp itself; a route exported between two of those edits is not modelled.
- gobgp sessions, BFD, MD5, graceful restart and the naming of its policy objects.
- YAML loading and validation other than the range check, health checking, IPAM, the Kubernetes controllers, the HTTP API, metrics and the installer.
