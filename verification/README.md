# Verified model of the WAO load balancer and scheduler cores

This project models, in Dafny, the parts of the repository that carry its hard guarantees, and proves
those guarantees for all inputs and all runs.

**The nftables load balancer.** Service and EndpointSlice events are coalesced by change trackers
(`ServiceTracker`, `EndpointSlices`, `EndpointTracker`), endpoints are sorted into policy lists
(`Topology`), and `syncProxyRules` turns the result into one atomic nftables transaction, rewriting
only what changed (`RuleWriter`, `ServiceWriter`, `SyncWriter`, `Proxier`). The kernel is a table of
chains of rules, verdict containers and sets that refuses dangling references (`Nftables`). What a
service port should have in it is stated once, as a `Plan` (`RuleCompiler`), and the writing code is
proved to reach it. `ProxierRuns` is the resulting state machine and its invariant; class
`Proxier.Proxier` is proved to take its steps. `Packets` interprets the table on packets;
`PacketMeaning` shows that this equals what services promise, stated without rules in
`Packets.Meaning`; `PacketOutput` does so for packets the node sends itself. `PacketShares` counts the
random numbers, `Promises` says it all by the Service and EndpointSlice objects and the score map
alone, and `Histories` ties those objects to the events of a run.

**WAO weights.** `Weights` covers the way from watts to scores and from scores to the arms of the
`numgen` rule.

**Around it.** `Conntrack` and `FlowRuns` (stale UDP flows), `Names` (chain names), `Cascade` (the iptables
probability cascade), `Health` (the proxier health server).

**The scheduler plugins.** `PodSpread`, `SpreadAllocation`, `SpreadRuns` with `Balance`;
`MinimizePower`.

**The metrics clients.** `CacheProtocol` is the lock-per-entry TTL cache as interleaved steps.

Where code and comments differ, the model follows the code: partial syncs keep old scores of skipped
service ports (the comment on scoring suggests otherwise), the total weight may be below 100, deleted
UDP endpoints are decided by address text alone, PodSpread takes its minimum over areas it then
excludes, and a waiting cache caller may be given the empty entry of a failed fill.

Where a promise is false of the code the project gives failing inputs and the exact condition:

- the short-circuit of the node's own traffic to external addresses is not reached on the output path,
  where the filter chain runs before translation: under a Local policy such packets are delivered
  exactly if an endpoint here can serve them (`PacketOutput.ShortCircuitOnOutputIff`,
  `HostTrafficLost`);
- scores follow the watts unless MaxInt64 stands beside a smaller watt value (`Weights.ScoreBounds`);
- PodSpread lists a node in area mode exactly if a least-loaded area is open to the pod
  (`SpreadAllocation.AreaProgress`, `AreaStuck`, `SpreadRuns.ControlPlaneAreaBlocks`);
- the dearest node gets the base score exactly up to a spread of MaxInt64/80
  (`MinimizePower.DearestGetsBaseIff`, `SpreadTooLarge`);
- a failed cache entry can outlive its filler exactly for keys of a value type the predictor client
  does not know (`CacheProtocol.FailureOutlivesIff`, `PredictorServesFailure`); no exported method asks
  for such a type (`ExportedCallsDropFailures`);
- flows to a vanished endpoint outlive the next committed sync exactly if the sync that took the
  endpoint off its list failed (`FlowRuns.CleanedOnlyByCommit`).

Methods carry the transaction built so far and, as ghost state, the kernel it leads to, so that every
emitted operation is shown acceptable where it is emitted. Verify with `dafny verify dfyconfig.toml`.

## Model

| member | source | states |
|---|---|---|
| `ProxierRuns.PartialSyncRefinesFullSync` | wao-loadbalancer/pkg/proxy/nftables/proxier.go:1158-1844 | over every run of service, slice and node events, traffic, and syncs whose transactions succeed or fail: after each successful sync the chains, verdict elements and affinity sets packets can reach are those a full sync over an empty table would install for the latest objects, each service port with the scores of the sync that last wrote it; the maps are the union of the latest services and the grouping of the live slices |
| `AnyOrder.PartialSyncRefinesAnyFullSync` | wao-loadbalancer/pkg/proxy/nftables/proxier.go:1158-1844 | the same whatever order either sync visits the service ports in, when frontends are distinct |
| `AnyOrder.ElementsAnyOrder` | wao-loadbalancer/pkg/proxy/nftables/proxier.go:1390-1546 | with distinct frontends the verdict elements do not depend on the visiting order |
| `ProxierRuns.SyncEqualsScratch` | wao-loadbalancer/pkg/proxy/nftables/proxier.go:1158-1844 | one sync step, partial or full, from any state satisfying the invariant equals a full sync from scratch |
| `ProxierRuns.ScratchExists` | wao-loadbalancer/pkg/proxy/nftables/proxier.go:1158-1844 | for every successful sync there is a full sync from scratch to compare with, so the refinement result is never vacuous |
| `ProxierRuns.RunInv` | wao-loadbalancer/pkg/proxy/nftables/proxier.go:1158-1844 | the invariant tying trackers, maps, record, stale chains and kernel together holds in every state of every run |
| `ProxierRuns.InvStep` | wao-loadbalancer/pkg/proxy/nftables/proxier.go:793-925 | every event and every sync keeps the invariant |
| `ProxierRuns.RunClosed` | wao-loadbalancer/pkg/proxy/nftables/proxier.go:1205-1231 | in every reachable kernel state every jump target, set and container a rule or element names exists, no stale chain is referenced, and while no full sync is pending the element record equals the kernel containers and all its keys are leftover candidates |
| `ProxierRuns.DeletionKeepsKernelInv` | wao-loadbalancer/pkg/proxy/nftables/proxier.go:1205-1231 | deleting stale chains leaves no dangling reference, whichever of them are old enough |
| `Nftables.RunKeepsClosed` | wao-loadbalancer/pkg/proxy/nftables/proxier.go:1833-1844 | no transaction the kernel accepts leaves a dangling reference |
| `PacketRuns.EveryRunServes` | wao-loadbalancer/pkg/proxy/nftables/proxier.go:1158-1844 | in every run, whenever no full sync is pending, every packet meets the fate its service promises |
| `PacketRuns.EveryRunDeliversToUsable` | wao-loadbalancer/pkg/proxy/nftables/proxier.go:1273-1776 | in every run, whenever no full sync is pending, running the rules on a packet for a service port drops it exactly if the source ranges bar it or it must stay on this node while endpoints can serve it but none here can, rejects it exactly if it is not barred and no endpoint of the port can serve it, and otherwise delivers it to an endpoint that policy, readiness and topology allow; all said by fields of the service port and its endpoints |
| `Promises.SyncKeepsPromises` | wao-loadbalancer/pkg/proxy/nftables/proxier.go:1158-1844 | after every committed sync of every run a packet for a port of a Service object meets what the latest objects say: rejected exactly if not shut out by the source ranges and no slice entry of the port is ready or draining; dropped exactly if shut out, or kept on this node by its policy while entries are usable but none of them here is; otherwise delivered to the address of an entry that is ready (of the node zone if traffic is kept there, of this node if the policy says so), or draining if none is ready |
| `Promises.EveryRunKeepsPromises` | wao-loadbalancer/pkg/proxy/nftables/proxier.go:1158-1844 | the same at any time no full sync is pending, by the objects as of the last sync |
| `Promises.SyncDividesByScores` | wao-loadbalancer/pkg/proxy/nftables/proxier.go:1233-1240 | from objects and fetched scores to packets: after a committed sync that wrote the port, an accepted packet no affinity decides about depends only on its random number modulo some total, and of the numbers below it exactly scores[key][ip] reach each address that may receive it, key being the printed port name; one each if none of those scores is positive |
| `Promises.ServersReceive` | wao-loadbalancer/pkg/proxy/topology.go:40-135 | the addresses a packet may be sent to are those of the slice entries that policy, readiness and zone hints allow |
| `PacketShares.SyncSharesByScores` | wao-loadbalancer/pkg/proxy/nftables/proxier.go:1901-2003 | the same shares over the endpoint lists |
| `PacketShares.SharedByScores` | wao-loadbalancer/pkg/proxy/nftables/proxier.go:1901-2003 | in every run, whenever no full sync is pending, the random numbers of an accepted packet are shared out exactly by the scores the port was written with |
| `PacketShares.GoesByLot` | wao-loadbalancer/pkg/proxy/nftables/proxier.go:1585-1775 | the whole fate of an accepted packet no affinity decides about: endpoint drawn, masqueraded exactly by policy, origin and hairpin, affinity learned |
| `PacketShares.ScoredByDecoding` | wao-loadbalancer/pkg/proxy/nftables/wao.go:489-501 | of scores kept under printed names a port is given those under the key that decodes to its namespace, name and port, and none if there is no such key |
| `ProxierRuns.CommittedUses` | wao-loadbalancer/pkg/proxy/nftables/proxier.go:1901-1903 | a committed sync gives every service port the scores just fetched for it, except that ports without a waiting change keep theirs in a partial sync |
| `Proxier.FetchedAre` | wao-loadbalancer/pkg/proxy/nftables/proxier.go:1236-1239 | scores are looked up under namespace, slash, name and, for named ports, colon and port name |
| `PacketOutput.OutputMeans` | wao-loadbalancer/pkg/proxy/nftables/proxier.go:411-451 | packets the node sends to an address of a service: refused before translation when the endpoints the policy asks for are missing, then the source ranges, then delivery as for incoming traffic |
| `PacketOutput.ShortCircuitOnOutputIff` | wao-loadbalancer/pkg/proxy/nftables/proxier.go:1629-1640 | false in general: a packet with a node address for an external address is short-circuited to cluster endpoints when it comes in, but when the node sends it, it is delivered exactly if the policy is not Local or an endpoint here can serve it, and dropped otherwise |
| `PacketOutput.HostTrafficLost` | wao-loadbalancer/pkg/proxy/nftables/proxier.go:1440-1456 | a concrete service and packet: delivered when it comes in, dropped when the node sends it |
| `Histories.ServicesAreLatest` | wao-loadbalancer/pkg/proxy/servicechangetracker.go:79-110 | a service is known exactly if the latest event about it did not delete it, and as that event says |
| `Histories.SlicesAreLatest` | wao-loadbalancer/pkg/proxy/endpointslicecache.go:102-126 | a slice is live exactly if the latest event about it did not remove it, and as that event says; slices without service name, namespace or name never are |
| `Histories.LabelsAreLatest` | wao-loadbalancer/pkg/proxy/nftables/proxier.go:862-925 | the labels used are those of the latest node event |
| `Histories.UntouchedUntilInformed` | wao-loadbalancer/pkg/proxy/nftables/proxier.go:1163-1166 | no sync touches the table before both caches have synced |
| `Histories.InformedSyncsWrite` | wao-loadbalancer/pkg/proxy/nftables/proxier.go:787-791 | after that every sync whose transaction goes through leaves no full sync pending |
| `ProxierRuns.StaleChainsGo` | wao-loadbalancer/pkg/proxy/nftables/proxier.go:1205-1231 | a sync takes a service chain away only if it was noted stale more than a second earlier, and every such chain unless it is in use again or the deletion fails; what it leaves unused is empty and noted stale as of now |
| `PacketRuns.SyncKeepsMembers` | wao-loadbalancer/pkg/proxy/nftables/proxier.go:1685-1719 | every sync, committed or failed, keeps the members of each affinity set that stays; new sets start empty |
| `PacketRuns.ClientsStick` | wao-loadbalancer/pkg/proxy/nftables/proxier.go:1877-1898 | a client that sticks to an endpoint is sent to it after any sync too, as long as the endpoint is listed and its set stays |
| `PacketMeaning.RulesPreserveMeaning` | wao-loadbalancer/pkg/proxy/nftables/proxier.go:1307-1775 | for every packet opening a connection through prerouting, every random number and affinity state: running the installed rules equals the meaning stated without rules: delivery to the chosen endpoint (affinity first, then by weight or evenly) with exact masquerading and learned affinity, reject without usable endpoints, drop under Local with none local or outside the source ranges, stray service-network traffic rejected or dropped, all else untouched; nothing gets stuck |
| `PacketMeaning.InternalMeans` | wao-loadbalancer/pkg/proxy/nftables/proxier.go:1390-1421 | cluster-IP traffic: reject, drop or delivery by the internal policy |
| `PacketMeaning.ExternalMeans` | wao-loadbalancer/pkg/proxy/nftables/proxier.go:1585-1652 | external traffic: pods and the node short-circuit to cluster endpoints under Local, others get local endpoints or a drop; Cluster policy always masquerades |
| `PacketMeaning.FirewallMeans` | wao-loadbalancer/pkg/proxy/nftables/proxier.go:1654-1683 | traffic to a load-balancer address is dropped before anything else exactly when no source range admits it |
| `PacketMeaning.UnclaimedMeans` | wao-loadbalancer/pkg/proxy/nftables/proxier.go:558-584 | packets no frontend claims pass untouched, except forwarded ones to cluster IPs (reject) or the service ranges (drop) |
| `PacketMeaning.AfterRoutingIs` | wao-loadbalancer/pkg/proxy/nftables/proxier.go:620-670 | after routing: refused exactly as the no-endpoint maps and the cluster-IP check say, otherwise accepted and masqueraded exactly if marked and leaving the node |
| `PacketChains.PolicyChainEval` | wao-loadbalancer/pkg/proxy/nftables/proxier.go:1721-1735 | a policy chain sends every packet to the chosen endpoint of its list with the right mark and learned affinity |
| `PacketChains.PolicyEval` | wao-loadbalancer/pkg/proxy/nftables/proxier.go:1877-2004 | affinity rules take precedence in list order, then the dispatch rule decides |
| `PacketChains.DispatchEval` | wao-loadbalancer/pkg/proxy/nftables/proxier.go:1927-2003 | the dispatch rule always matches and leads to the endpoint drawn by lot |
| `PacketChains.EndpointEval` | wao-loadbalancer/pkg/proxy/nftables/proxier.go:1737-1775 | an endpoint chain translates to that endpoint, marks hairpin traffic and updates only its own affinity set |
| `PacketChains.ExternalRulesEval` | wao-loadbalancer/pkg/proxy/nftables/proxier.go:1585-1652 | which list external traffic turns to and with what mark, or nowhere |
| `PacketChains.FirewallEval` | wao-loadbalancer/pkg/proxy/nftables/proxier.go:1654-1683 | the firewall chain drops exactly the sources no range admits |
| `PacketChains.MasqueradingEval` | wao-loadbalancer/pkg/proxy/nftables/proxier.go:532-556 | source translation happens exactly to marked packets |
| `PacketChains.ServicesEval` | wao-loadbalancer/pkg/proxy/nftables/proxier.go:688-725 | dispatch looks an address up first and a node port only if that fails and the address accepts node ports |
| `Frontends.AddressLookup` | wao-loadbalancer/pkg/proxy/nftables/proxier.go:1390-1513 | with distinct frontends each address container holds exactly what the owning service port should have there, or nothing |
| `Frontends.NodePortLookup` | wao-loadbalancer/pkg/proxy/nftables/proxier.go:1515-1546 | the same for node ports |
| `Frontends.ClusterIPLookup` | wao-loadbalancer/pkg/proxy/nftables/proxier.go:1390-1394 | the cluster-ips set holds exactly the cluster IPs of the service ports |
| `Frontends.ElementsAre` | wao-loadbalancer/pkg/proxy/nftables/proxier.go:1390-1546 | the elements written for a service port, independent of the order of the writing blocks |
| `Weights.WeightedDispatch` | wao-loadbalancer/pkg/proxy/nftables/proxier.go:1929-1975 | whenever the WAO branch is taken, for every watt map: the arms are non-empty, cover [0,total) without overlap, each endpoint owns exactly its score in slots, 1 <= total <= 100 n; and unless the shift wraps for some and not all, a cheaper scored endpoint never owns fewer slots |
| `Weights.ArmsEndToEnd` | wao-loadbalancer/pkg/proxy/nftables/proxier.go:1933-1964 | the emitted ranges lie end to end from 0 to total - 1 |
| `Weights.SlotsOwned` | wao-loadbalancer/pkg/proxy/nftables/proxier.go:1954-1963 | an endpoint owns exactly the interval between the prefix sums around it |
| `Weights.WaoDispatch` | wao-loadbalancer/pkg/proxy/nftables/proxier.go:1966-1975 | every number below the total selects exactly the arm of the slot owner |
| `Weights.EvenDispatch` | wao-loadbalancer/pkg/proxy/nftables/proxier.go:1977-2003 | in the fallback number i selects endpoint i |
| `Weights.NormalizeScores` | wao-loadbalancer/pkg/proxy/nftables/wao.go:458-483 | the result is the score map of the formula, with int64 wrap-around of the shift |
| `Weights.ScoreRange` | wao-loadbalancer/pkg/proxy/nftables/wao.go:453-483 | for every watt map the scored keys are those with non-negative watts and scores lie in [0,100] |
| `Weights.ScoreBounds` | wao-loadbalancer/pkg/proxy/nftables/wao.go:453-483 | each of these holds exactly when MaxInt64 does not stand beside a smaller non-negative watt: scores within one half of 100 min / w, 100 for every cheapest, 0 exactly when w exceeds 200 min, antitone in the watts |
| `Weights.AntitoneIff` | wao-loadbalancer/pkg/proxy/nftables/wao.go:458-483 | the order alone, also for watt maps that score nobody |
| `RuleCompiler.MakePlanConsistent` | wao-loadbalancer/pkg/proxy/topology.go:40-135 | the policy lists satisfy what rule writing relies on: lists non-empty exactly when they are used, unique addresses |
| `RuleCompiler.WantRulesStayWithin` | wao-loadbalancer/pkg/proxy/nftables/proxier.go:1550-1775 | rules of a service port name only its own chains and sets and the masquerade mark chain |
| `RuleCompiler.ElementsLeadWithin` | wao-loadbalancer/pkg/proxy/nftables/proxier.go:1390-1546 | every verdict element leads to a chain the service port owns, or to the reject chain, under a key that can be stored |
| `RuleCompiler.DispatchReaches` | wao-loadbalancer/pkg/proxy/nftables/proxier.go:1929-2003 | dispatch arms lead only to chains of endpoints in the list |
| `RuleWriter.EnsureChain` | wao-loadbalancer/pkg/proxy/nftables/proxier.go:453-472 | the chain exists and is empty unless skipped or already noted; nothing else changes and the transaction stays acceptable |
| `RuleWriter.WriteServiceToEndpointRules` | wao-loadbalancer/pkg/proxy/nftables/proxier.go:1877-2004 | the chain is extended by exactly the affinity rules and the dispatch rule |
| `RuleWriter.BuildWaoArms` | wao-loadbalancer/pkg/proxy/nftables/proxier.go:1933-1964 | the arms and the total of the positively scored endpoints |
| `RuleWriter.WriteExternalRules` | wao-loadbalancer/pkg/proxy/nftables/proxier.go:1585-1652 | the external chain gets exactly its rules |
| `RuleWriter.WriteFirewallRule` | wao-loadbalancer/pkg/proxy/nftables/proxier.go:1654-1683 | the firewall chain gets exactly its rule |
| `RuleWriter.WriteAffinitySets` | wao-loadbalancer/pkg/proxy/nftables/proxier.go:1685-1719 | exactly the affinity sets of the reachable endpoints exist besides those before |
| `RuleWriter.WriteEndpointChains` | wao-loadbalancer/pkg/proxy/nftables/proxier.go:1737-1775 | exactly the chains of reachable endpoints are filled |
| `RuleWriter.WriteServiceRules` | wao-loadbalancer/pkg/proxy/nftables/proxier.go:1550-1776 | after the rule-writing part every own chain holds what it should, no other chain changed |
| `ServiceWriter.WriteService` | wao-loadbalancer/pkg/proxy/nftables/proxier.go:1273-1776 | one iteration of the service loop: own chains and sets become active, elements are written last-write-wins, chains are rewritten unless skipped, and no operation is refused |
| `ElementStorage.NftElementStorage.EnsureElem` | wao-loadbalancer/pkg/proxy/nftables/proxier.go:1122-1138 | the slot holds the value afterwards, the record mirrors the kernel, any delete emitted hits a present key |
| `ElementStorage.NftElementStorage.CleanupLeftoverKeys` | wao-loadbalancer/pkg/proxy/nftables/proxier.go:1140-1154 | the containers become exactly the last-write-wins map of the writes of this round, and the record agrees |
| `ElementStorage.NftElementStorage.DeleteLeftovers` | wao-loadbalancer/pkg/proxy/nftables/proxier.go:1140-1154 | exactly the leftover keys are deleted, each present when deleted |
| `ElementStorage.NftElementStorage.Reset` | wao-loadbalancer/pkg/proxy/nftables/proxier.go:1098-1118 | record and containers are empty together |
| `ElementStorage.LastWriteWins` | wao-loadbalancer/pkg/proxy/nftables/proxier.go:1122-1154 | what remains after removing untouched keys is the last-write-wins map of the writes |
| `Strings.SplitJoin` | wao-loadbalancer/pkg/proxy/nftables/proxier.go:1076-1083 | splitting a joined key gives it back for every non-empty key with space-free parts |
| `SyncState.InstalledDetermines` | wao-loadbalancer/pkg/proxy/nftables/proxier.go:1158-1844 | two installed states agree on everything packets can reach |
| `SyncState.LoopStep` | wao-loadbalancer/pkg/proxy/nftables/proxier.go:1273-1776 | one iteration, skipped or not, advances the loop state |
| `SyncState.ChainsAfterLoop` | wao-loadbalancer/pkg/proxy/nftables/proxier.go:1778-1800 | after the loop and the flush every active chain is right and every other service chain empty |
| `SyncState.SetsAfterLoop` | wao-loadbalancer/pkg/proxy/nftables/proxier.go:1802-1814 | after deleting stale sets exactly the active affinity sets exist |
| `SyncState.InactiveUnreferenced` | wao-loadbalancer/pkg/proxy/nftables/proxier.go:1778-1800 | nothing refers to a service chain that is not active |
| `SyncState.InactiveSetUnreferenced` | wao-loadbalancer/pkg/proxy/nftables/proxier.go:1802-1814 | no rule names an affinity set that is not active, so deleting it at once is safe |
| `SyncState.InstalledIsReady` | wao-loadbalancer/pkg/proxy/nftables/proxier.go:1290-1294 | service ports whose plan and scores are unchanged may be skipped |
| `SyncWriter.SetupNFTables` | wao-loadbalancer/pkg/proxy/nftables/proxier.go:474-734 | set-up, with the one-off deletion of base chains when it has not been done, gives stock chains with their rules, the six empty containers and the node-port set, leaves service chains alone, and is never refused |
| `SyncWriter.DropBaseChains` | wao-loadbalancer/pkg/proxy/nftables/proxier.go:488-501 | the one-off part deletes exactly the base chains, which nothing refers to |
| `SyncWriter.FlushStaleChains` | wao-loadbalancer/pkg/proxy/nftables/proxier.go:1778-1800 | exactly the inactive service chains are flushed and noted with the time of this sync |
| `SyncWriter.DeleteStaleSets` | wao-loadbalancer/pkg/proxy/nftables/proxier.go:1802-1814 | exactly the inactive affinity sets are deleted |
| `SyncWriter.DeleteOldChains` | wao-loadbalancer/pkg/proxy/nftables/proxier.go:1205-1231 | exactly the chains stale for more than a second are deleted and forgotten |
| `Proxier.Proxier.SyncProxyRules` | wao-loadbalancer/pkg/proxy/nftables/proxier.go:1158-1873 | a sync is a step of the state machine: nothing happens before both caches are synced, the maps are updated in any case; a committed transaction installs the plans, every written port with exactly the scores kept under its key (none if there is no such key) and every resting one with those it had, tells the health server and clears exactly the flows hit by requests for what this sync reports; a failed one leaves the kernel, the flows and the health record alone and asks for a full sync |
| `Proxier.Proxier.WriteServices` | wao-loadbalancer/pkg/proxy/nftables/proxier.go:1273-1776 | the service loop reaches the state the plans ask for, writing anew exactly the service ports that are not skipped |
| `Proxier.Proxier.UpdateMaps` | wao-loadbalancer/pkg/proxy/nftables/proxier.go:1188-1189 | both maps are brought up to date, differ from before only for updated services, and the reports compare them exactly |
| `Proxier.Proxier.CommitRules` | wao-loadbalancer/pkg/proxy/nftables/proxier.go:1833-1844 | success clears the full-sync flag, failure sets it and forgets the stale chains |
| `Proxier.PartialReady` | wao-loadbalancer/pkg/proxy/nftables/proxier.go:1290-1294 | what a partial sync starts from is right for every service port it skips |
| `Proxier.Proxier.OnServiceUpdate` | wao-loadbalancer/pkg/proxy/nftables/proxier.go:793-811 | a service event is a step: recorded and coalesced |
| `Proxier.Proxier.OnEndpointSliceUpdate` | wao-loadbalancer/pkg/proxy/nftables/proxier.go:826-846 | a slice event is a step; reporting no change means the live slices are as before |
| `Proxier.Proxier.OnNodeUpdate` | wao-loadbalancer/pkg/proxy/nftables/proxier.go:862-908 | labels that are not deeply equal to the stored ones, nil told from empty, are taken over and ask for a full sync |
| `Proxier.Proxier.OnNodeDelete` | wao-loadbalancer/pkg/proxy/nftables/proxier.go:912-925 | labels are forgotten and a full sync is due |
| `Proxier.NamesFollow` | wao-loadbalancer/pkg/proxy/nftables/proxier.go:1784-1805 | the chain and set names a listing returns follow from the transactions that were committed |
| `ServiceTracker.ServiceChangeTracker.Update` | wao-loadbalancer/pkg/proxy/servicechangetracker.go:79-110 | each tracked change leads from the last-synced port map to a different latest one, untracked services have the two equal, and the result says whether any change is waiting |
| `ServiceTracker.ServiceChangeTracker.ApplyTo` | wao-loadbalancer/pkg/proxy/servicechangetracker.go:176-200 | the map holds a service port exactly for the ports of the latest services that are not skipped and have a cluster IP, each with all addresses and both policies of its service and the numbers of the last port of that name and protocol; only updated services change, and the deleted UDP cluster IPs are exactly those of UDP port names present before and absent after |
| `ServiceTracker.UnionMapsServices` | wao-loadbalancer/pkg/proxy/serviceport.go:181-255 | the union of the services is what the Service objects say, field by field |
| `ServiceTracker.TracksStep` | wao-loadbalancer/pkg/proxy/servicechangetracker.go:79-110 | coalescing keeps the tracking invariant for every event |
| `ServiceTracker.ApplyStep` | wao-loadbalancer/pkg/proxy/servicechangetracker.go:180-190 | applying one change brings exactly that service up to date |
| `ServiceTracker.DeletedStep` | wao-loadbalancer/pkg/proxy/servicechangetracker.go:231-244 | unmerging reports exactly the cluster IPs of the vanished UDP ports |
| `ServiceTracker.UnionUnique` | wao-loadbalancer/pkg/proxy/servicechangetracker.go:176-200 | the union of the services determines the map |
| `ServiceTracker.ServiceToServiceMap` | wao-loadbalancer/pkg/proxy/servicechangetracker.go:144-173 | nil exactly for services to be skipped or without a cluster IP of the family; otherwise exactly its ports by name and protocol, each carrying the fields of the service and of the last port of that name |
| `ServiceTracker.Merge` | wao-loadbalancer/pkg/proxy/servicechangetracker.go:207-216 | entries of the other map win |
| `ServiceTracker.Filter` | wao-loadbalancer/pkg/proxy/servicechangetracker.go:220-227 | entries the other map has are removed |
| `ServiceTracker.Unmerge` | wao-loadbalancer/pkg/proxy/servicechangetracker.go:231-244 | keys of the other map are removed and UDP cluster IPs of present ones reported |
| `EndpointTracker.EndpointSliceCache.EndpointSliceUpdate` | wao-loadbalancer/pkg/proxy/endpointschangetracker.go:78-120 | pending over applied is the live slices afterwards; false is returned only when the live slices did not change |
| `EndpointTracker.EndpointSliceCache.UpdatePending` | wao-loadbalancer/pkg/proxy/endpointslicecache.go:102-126 | the event is recorded exactly when it changes the pending-over-applied view |
| `EndpointTracker.ViewAfterEvent` | wao-loadbalancer/pkg/proxy/endpointslicecache.go:259-286 | recorded or not, the view becomes what the event says |
| `EndpointTracker.ChangedIff` | wao-loadbalancer/pkg/proxy/endpointslicecache.go:259-286 | an event counts as a change exactly if it changes the view, or repeats a pending removal with another last state |
| `EndpointTracker.EndpointSliceCache.CheckoutChanges` | wao-loadbalancer/pkg/proxy/endpointslicecache.go:129-160 | everything pending becomes applied and is reported service by service as groupings before and after |
| `EndpointTracker.ApplyPending` | wao-loadbalancer/pkg/proxy/endpointslicecache.go:144-152 | applied slices become pending laid over applied, in any order of application |
| `EndpointTracker.EndpointSliceCache.UpdateEndpointsMap` | wao-loadbalancer/pkg/proxy/endpointschangetracker.go:205-230 | the map equals the grouping of the latest live slices, only pending services change, and the reports are exact when slices agree |
| `EndpointTracker.DetectStaleConntrackEntries` | wao-loadbalancer/pkg/proxy/endpointschangetracker.go:290-350 | reported are exactly the UDP endpoints serving before whose address string is gone, and the UDP ports going from no serving endpoint to some |
| `EndpointTracker.ReportsAll` | wao-loadbalancer/pkg/proxy/endpointschangetracker.go:205-230 | the reports of a whole batch compare the lists before and after the batch |
| `EndpointTracker.FollowsStep` | wao-loadbalancer/pkg/proxy/endpointslicecache.go:102-126 | every slice event keeps pending over applied equal to the live slices |
| `EndpointSlices.GetEndpointsMap` | wao-loadbalancer/pkg/proxy/endpointslicecache.go:166-250 | said by the slices: every address a slice lists for this family under a valid port appears in the list of that port; every listed endpoint has the ready, serving and terminating conditions and the zone hints of an entry that lists it, and is local exactly if some such entry names this host; lists are strictly sorted |
| `EndpointSlices.GroupingIsAsSliced` | wao-loadbalancer/pkg/proxy/endpointslicecache.go:201-250 | every grouping of the offers is what the slices say |
| `EndpointSlices.EntriesAgreeOffers` | wao-loadbalancer/pkg/proxy/endpointslicecache.go:244-250 | entries that agree on an address leave no choice |
| `ProxyTypes.JoinHostPortInjective` | wao-loadbalancer/pkg/proxy/endpoint.go:61-88 | the printed form that decides about duplicates determines address and port |
| `EndpointSlices.GroupingUnique` | wao-loadbalancer/pkg/proxy/endpointslicecache.go:289-308 | when duplicates agree, the offers determine the lists |
| `EndpointSlices.AddEndpoints` | wao-loadbalancer/pkg/proxy/endpointslicecache.go:201-250 | one entry per address, a local one if any offer was local |
| `EndpointSlices.SortedEndpoints` | wao-loadbalancer/pkg/proxy/endpointslicecache.go:289-308 | the list is strictly sorted by address and has exactly the entries of the set |
| `Topology.CategorizeEndpoints` | wao-loadbalancer/pkg/proxy/topology.go:40-137 | said by the fields: the cluster list is exactly the ready endpoints, of the node zone if traffic is kept there, or the draining ones if none is ready; the local list exactly the ready ones of this node, or its draining ones if none is ready; empty if the policies do not use them; the flag says whether any endpoint is usable |
| `Topology.ClusterListIs` | wao-loadbalancer/pkg/proxy/topology.go:46-69 | the members of the cluster list, said by fields |
| `Topology.LocalListIs` | wao-loadbalancer/pkg/proxy/topology.go:71-106 | the members of the local list, said by fields |
| `Topology.LocalNonEmptyIffUsable` | wao-loadbalancer/pkg/proxy/topology.go:71-106 | when local endpoints are used, the local list is non-empty exactly if some endpoint of this node is ready or draining |
| `Topology.TopologyIs` | wao-loadbalancer/pkg/proxy/topology.go:148-193 | when traffic is kept in the zone, said by fields |
| `Topology.ClusterNonEmptyIffUsable` | wao-loadbalancer/pkg/proxy/topology.go:40-135 | when cluster endpoints are used, the cluster list is non-empty exactly when some endpoint is usable |
| `Topology.ListsAreSound` | wao-loadbalancer/pkg/proxy/topology.go:40-135 | listed endpoints are usable endpoints of the port, the local list only local ones |
| `Topology.ClusterCoversLocal` | wao-loadbalancer/pkg/proxy/topology.go:112-118 | the superset claim behind the shortcut: without topology and with only ready local endpoints, the cluster list covers the local list |
| `Topology.CanUseTopology` | wao-loadbalancer/pkg/proxy/topology.go:148-193 | topology is used exactly when enabled, the node has a zone, every ready endpoint has hints and one is for this zone |
| `Topology.MergeLists` | wao-loadbalancer/pkg/proxy/topology.go:118-135 | the reachable list is exactly the union of cluster and local lists, without repetition |
| `Topology.FilterEndpoints` | wao-loadbalancer/pkg/proxy/topology.go:203-213 | the endpoints satisfying the predicate, in order |
| `Conntrack.CleanStaleEntries` | wao-loadbalancer/pkg/proxy/conntrack/cleanup.go:32-36 | exactly the flows hit by an issued request that did not fail are gone |
| `Conntrack.ClearedIff` | wao-loadbalancer/pkg/proxy/conntrack/cleanup.go:42-115 | without failures a flow goes exactly if it is UDP and to a deleted cluster IP, to a frontend of a newly active port, or from a frontend of a port to one of its deleted endpoints |
| `Conntrack.EndpointHygiene` | wao-loadbalancer/pkg/proxy/conntrack/cleanup.go:85-115 | without failures no flow from any current frontend of a still present service port to a reported endpoint address remains |
| `Conntrack.GoneEndpointsHaveNoFlows` | wao-loadbalancer/pkg/proxy/conntrack/cleanup.go:85-115 | together with exact reports: whenever a serving UDP endpoint disappears, so do its flows through current frontends |
| `Conntrack.ServiceHygiene` | wao-loadbalancer/pkg/proxy/conntrack/cleanup.go:42-80 | no flow to a newly active UDP port or a deleted UDP cluster IP is left |
| `FlowRuns.VanishedFlowsGone` | wao-loadbalancer/pkg/proxy/conntrack/cleanup.go:85-115 | in every run: if the sync that takes a serving UDP endpoint off its list commits, no flow from a frontend of the port to its address is left |
| `FlowRuns.SyncClearsExactly` | wao-loadbalancer/pkg/proxy/nftables/proxier.go:1158-1873 | in every run a committed sync removes a flow exactly if it is UDP and to the cluster IP of a UDP port that vanished, to a frontend of a UDP port that went from no serving endpoint to some, or from a frontend to a serving endpoint whose address is no longer listed |
| `FlowRuns.VanishedFlowsStayGone` | wao-loadbalancer/pkg/proxy/nftables/proxier.go:1158-1873 | and none comes back while syncs commit and no endpoint of the port has that address |
| `FlowRuns.CleanedOnlyByCommit` | wao-loadbalancer/pkg/proxy/nftables/proxier.go:1833-1872 | such a flow is still there after the following committed sync exactly if the sync that took the endpoint off its list failed |
| `FlowRuns.RetryForgets` | wao-loadbalancer/pkg/proxy/nftables/proxier.go:1188-1203 | the reports of a failed sync are lost: its committed retry clears nothing |
| `Conntrack.IPPartOfEndpoint` | wao-loadbalancer/pkg/proxy/util/endpoints.go:29-47 | the address of an endpoint survives printing with its port |
| `Names.NamesIdentify` | wao-loadbalancer/pkg/proxy/nftables/proxier.go:976-1052 | distinct service ports and endpoints of one IP family have distinct untruncated chain names |
| `Names.OnlyHashCollisions` | wao-loadbalancer/pkg/proxy/nftables/proxier.go:970-987 | two different chains with one name are truncated endpoint chains whose hashes collide |
| `Names.ServiceNeverTruncated` | wao-loadbalancer/pkg/proxy/nftables/proxier.go:989-1013 | service chain names are never truncated |
| `Names.NamesFit` | wao-loadbalancer/pkg/proxy/nftables/proxier.go:948-987 | every chain and set name fits the length limit |
| `Names.Recognised` | wao-loadbalancer/pkg/proxy/nftables/proxier.go:1054-1060 | service chains are recognised by name, truncated or not, stock chains never |
| `Names.AffinityRecognised` | wao-loadbalancer/pkg/proxy/nftables/proxier.go:1062-1064 | affinity sets are recognised by name, the node-port set is not |
| `Names.DecodePrinted` | wao-loadbalancer/pkg/proxy/nftables/wao.go:489-501 | decoding a printed service port name gives back namespace, name and port |
| `Names.PrintedWithoutProtocol` | wao-loadbalancer/pkg/proxy/types.go:50-59 | printed names agree exactly when namespace, name and port do: ports differing only in protocol share scores |
| `Cascade.Uniform` | wao-loadbalancer/pkg/proxy/iptables/proxier.go:1625-1644 | each of n endpoints is selected with probability exactly 1/n |
| `Cascade.AlwaysTaken` | wao-loadbalancer/pkg/proxy/iptables/proxier.go:1625-1644 | no packet falls through the cascade |
| `Cascade.Probabilities.Probability` | wao-loadbalancer/pkg/proxy/iptables/proxier.go:507-523 | the growing cache agrees with direct computation |
| `Cascade.Probabilities.WriteServiceToEndpointRules` | wao-loadbalancer/pkg/proxy/iptables/proxier.go:1625-1644 | index zero of the cache is never used: every rule but the last has probability 1/(n-i) |
| `Health.ProxierHealthServer.IsHealthy` | wao-loadbalancer/pkg/proxy/healthcheck/proxier_health.go:110-136 | unhealthy exactly when a family updated at least once has had a change waiting, since its last update, for the timeout or longer |
| `Health.QueuedStep` | wao-loadbalancer/pkg/proxy/healthcheck/proxier_health.go:94-101 | the oldest waiting change is kept |
| `Health.UpdatedStep` | wao-loadbalancer/pkg/proxy/healthcheck/proxier_health.go:82-87 | an update clears what was waiting for its family only |
| `SpreadRuns.NodeBalance` | wao-scheduler/pkg/plugins/podspread/podspread.go:302-437 | no two nodes differ in region and no two in zone, starting empty with fixed nodes and only listed placements below the redundancy count: nodes open to the pods differ by at most one, and after r replicas each of the n holds floor(r/n) or ceil(r/n), counted by the pods |
| `SpreadRuns.AreaBalance` | wao-scheduler/pkg/plugins/podspread/podspread.go:350-407 | two nodes differ in region, or in zone with no two differing in region, and every such area has a node open to the pods: the same per area, areas and replicas counted by labels and pods |
| `SpreadRuns.NodeListIs` | wao-scheduler/pkg/plugins/podspread/podspread.go:409-436 | below redundancy in a cluster of one area: listed are exactly the candidates that hold the fewest replicas |
| `SpreadRuns.AreaListIs` | wao-scheduler/pkg/plugins/podspread/podspread.go:350-407 | below redundancy with several areas: listed are exactly the nodes open to the pods in areas that hold the fewest |
| `SpreadRuns.KeptOffControlPlanes` | wao-scheduler/pkg/plugins/podspread/podspread.go:302-437 | in every run pods that do not tolerate control planes are never placed on one |
| `SpreadRuns.ControlPlaneAreaBlocks` | wao-scheduler/pkg/plugins/podspread/podspread.go:374-387 | with an area of control planes only and a pod that does not tolerate them, a node is listed exactly while some area with a worker is empty |
| `SpreadAllocation.GetAllocatableNodes` | wao-scheduler/pkg/plugins/podspread/podspread.go:302-437 | the list holds exactly the allowed nodes |
| `SpreadAllocation.AreaProgress` | wao-scheduler/pkg/plugins/podspread/podspread.go:350-407 | in region and zone mode the list is non-empty exactly when a least-loaded area has a worker or the pod tolerates control planes |
| `SpreadAllocation.AreaProgressIfOpen` | wao-scheduler/pkg/plugins/podspread/podspread.go:350-407 | so never empty when every area has a worker or control planes are tolerated |
| `SpreadAllocation.NodeProgress` | wao-scheduler/pkg/plugins/podspread/podspread.go:409-436 | in node mode the list is non-empty exactly when some counted node is eligible |
| `SpreadAllocation.RedundantProgress` | wao-scheduler/pkg/plugins/podspread/podspread.go:318-325 | past the redundancy count every node is listed |
| `SpreadAllocation.AreaStuck` | wao-scheduler/pkg/plugins/podspread/podspread.go:374-387 | a concrete cluster where the list is empty although a worker is eligible |
| `PodSpread.CountsConserved` | wao-scheduler/pkg/plugins/podspread/podspread.go:281-297 | per-node counts sum to the number of counted placements |
| `PodSpread.CountsAre` | wao-scheduler/pkg/plugins/podspread/podspread.go:281-297 | total and per-node counts are the numbers of PodScheduled conditions of pods of the replica set |
| `PodSpread.SchedulingSession.SetDeployNodes` | wao-scheduler/pkg/plugins/podspread/podspread.go:281-297 | counts grow by exactly the placements of this replica set, the total counts them all |
| `PodSpread.SchedulingSession.Refresh` | wao-scheduler/pkg/plugins/podspread/podspread.go:257-276 | the session is recomputed from pods and nodes; counts sum to the total |
| `PodSpread.Plugin.UpdateSchedulingSession` | wao-scheduler/pkg/plugins/podspread/podspread.go:231-279 | replicas and redundancy are those of the first call, redundancy stays within [0, replicas], an unreadable rate fails only the first call, other sessions are untouched |
| `PodSpread.Redundancy` | wao-scheduler/pkg/plugins/podspread/podspread.go:245-245 | the whole part of replicas times rate, between 0 and the replicas |
| `PodSpread.AreaNodesAre` | wao-scheduler/pkg/plugins/podspread/podspread.go:178-214 | each area lists exactly its own nodes and marks the control planes |
| `PodSpread.GetSpreadMode` | wao-scheduler/pkg/plugins/podspread/podspread.go:178-214 | said by labels: region mode exactly if two nodes carry different region labels, else zone mode exactly if two carry different zone labels, else node mode |
| `MinimizePower.PowerConsumptions2Scores` | wao-scheduler/pkg/plugins/minimizepower/minimizepower.go:327-374 | in place: every entry becomes the one its name has in the table of replaced and normalised scores |
| `MinimizePower.ConvertedAt` | wao-scheduler/pkg/plugins/minimizepower/minimizepower.go:361-373 | with unique names, names and positions are kept and each node gets the score of its own watts |
| `MinimizePower.ScoresAreSound` | wao-scheduler/pkg/plugins/minimizepower/minimizepower.go:327-374 | spread at most MaxInt64/80: calculated scores in [20,100] and antitone in the watts, errors get 0 and overcommitted nodes 1 |
| `MinimizePower.ExtremeScores` | wao-scheduler/pkg/plugins/minimizepower/minimizepower.go:341-359 | with unequal watts the lowest gets exactly 100 and the highest exactly 20; with equal watts all get 20 |
| `MinimizePower.NoOverflowIff` | wao-scheduler/pkg/plugins/minimizepower/minimizepower.go:351-359 | no intermediate result leaves int64 exactly when the spread is at most MaxInt64/80 |
| `MinimizePower.DearestGetsBaseIff` | wao-scheduler/pkg/plugins/minimizepower/minimizepower.go:327-374 | for uniquely named nodes with non-negative watts the dearest gets the base score exactly when the spread is at most MaxInt64/80 |
| `MinimizePower.SpreadTooLarge` | wao-scheduler/pkg/plugins/minimizepower/minimizepower.go:327-374 | a concrete list beyond that spread whose dearest node comes out above 100 |
| `CacheProtocol.HitsAreSound` | wao-metrics-adapter/pkg/client/metrics.go:62-85 | in every interleaving a hit returns the value the origin gave for that key by a fill begun less than the TTL earlier, or the empty entry of a failed fill |
| `CacheProtocol.ServedIffFresh` | wao-metrics-adapter/pkg/client/metrics.go:67-82 | in every interleaving a caller that loaded an entry is served that entry exactly if it gets past the lock before the TTL from the beginning of the fill is over, and otherwise goes on to fetch |
| `CacheProtocol.LoadStep` | wao-metrics-adapter/pkg/client/metrics.go:67-82 | a caller considers the entry the map has for its key and misses only if there is none |
| `CacheProtocol.StaysCached` | wao-metrics-adapter/pkg/client/metrics.go:87-141 | an entry stays in the map until some caller replaces or drops it |
| `CacheProtocol.FillIsCached` | wao-metrics-adapter/pkg/client/metrics.go:84-138 | a fill puts its entry in the map before it asks the origin and again with the answer |
| `CacheProtocol.FillsAreSound` | wao-metrics-adapter/pkg/client/metrics.go:87-141 | a caller that filled the entry returns the answer the origin gave to that fill |
| `CacheProtocol.SettledForever` | wao-metrics-adapter/pkg/client/metrics.go:87-141 | an entry is never written after its filler unlocks it |
| `CacheProtocol.NoDeadlock` | wao-metrics-adapter/pkg/client/metrics.go:67-93 | a waiting caller can take the lock, or its holder waits for no lock and can step |
| `CacheProtocol.MetricsDropsFailures` | wao-metrics-adapter/pkg/client/metrics.go:95-136 | a failed entry is in the metrics cache only until its filler has dropped it |
| `CacheProtocol.FailureOutlivesIff` | wao-metrics-adapter/pkg/client/predictor.go:127-131 | a run can leave a failed entry in the map after its filler is done exactly for keys whose value type the predictor client does not know: there the entry is deleted by the wrong key |
| `CacheProtocol.FailuresAreDropped` | wao-metrics-adapter/pkg/client/predictor.go:66-138 | in every run a failed entry in the map is still with its filler, or its key is of such a type |
| `CacheProtocol.ExportedCallsDropFailures` | wao-metrics-adapter/pkg/client/predictor.go:140-154 | the exported methods of the predictor client ask for known types only, so nothing they fail to fetch stays |
| `CacheProtocol.PredictorServesFailure` | wao-metrics-adapter/pkg/client/predictor.go:127-131 | for every key of an unknown type there is a run in which a later caller is given the empty entry |
| `CacheProtocol.InvStep` | wao-metrics-adapter/pkg/client/predictor.go:66-138 | every step of every caller keeps mutual exclusion and what entries mean |

## Left out

- The six element storages of the nftables proxier are one object holding the slots of all six containers.
- SyncWriter.SetupNFTables: creates all stock chains and containers first and then adds rules chain by chain, where the code interleaves the two; the committed state is the same. Hook types and priorities, set timeouts, comments and the table itself are not modelled.
- Listing chains and sets always succeeds; listing errors, which only postpone clean-up, are not modelled.
- Service CIDRs and node addresses are fixed during a run: the code reads them only in full syncs, and changing them does not ask for one.
- Each service event carries the last object seen for its key, and a slice keeps its service label. Node events for other nodes are ignored before the modelled handlers.
- A table found at start-up is assumed to hold no rule that jumps to a base chain or, in a service chain, uses the node-port set, which is true of every table this proxier writes.
- ProxierRuns.PartialSyncRefinesFullSync: compares with a full sync in the same visiting order, which AnyOrder.PartialSyncRefinesAnyFullSync removes for distinct frontends; assumes that overlapping live slices agree on an endpoint's conditions, because the code lets map order decide otherwise; what a skipped service port keeps are its scores of the sync that last wrote it, although scores are recomputed in every sync.
- PacketMeaning.RulesPreserveMeaning: assumes distinct frontends, endpoints that are not themselves frontends, and node-port addresses that are the node's own; packets arrive without the masquerade mark.
- PacketOutput.OutputMeans: only for packets to an address of a service, and only up to source translation; node ports on output are left out, because such a packet comes back through the loopback device.
- Promises.SyncKeepsPromises: under the addressing assumptions of PacketMeaning.RulesPreserveMeaning; assumes that entries listing one address under one port agree; the code lets map order decide otherwise. That every allowed entry can be reached is stated by the shares of Promises.SyncDividesByScores.
- Weights.ScoreBounds: exact arithmetic; rounding of 64-bit floats is left out.
- The total weight can be below 100, since the endpoint scored 100 may be missing from the list being written; the lower bound proved is 1.
- CIDRs are finite sets of addresses; IP parsing is a parameter; SHA-256 and base32 are an arbitrary function with eight-character results.
- Conntrack.CleanStaleEntries: the conntrack command line and its error texts are not modelled. An endpoint that stops serving before it is removed is not reported by the code, so nothing is said about its flows.
- Proxier.Proxier.OnServiceUpdate: does not model that queueing a sync also tells the health server.
- PodSpread.Redundancy: the product of replicas and rate is taken over the reals, not in 64-bit floats; annotation parsing is a parameter.
- CacheProtocol: origin servers answer, refuse or time out at any moment; the two clients share one state machine. Data races on the time field and Go memory ordering are left out.
- MinimizePower.ScoresAreSound: holds for uniquely named nodes; with repeated names the last entry of a name decides for all of them.
- Cascade: probabilities are exact reals, not text with ten digits; the session-affinity lines and the rest of the iptables proxier are left out, as they repeat the nftables argument over text buffers.
- Health: the HTTP handlers, which only print the answer, and node eligibility, a flag copied from the node object, are left out.
- Computing watts and scores (WAOLB.Score, ScoreService, ScoreNode, MinimizePower.Score) is left out: chained client calls; scores and watts are inputs.
- The ipvs and winkernel proxiers, metrics, event recording, trigger times, service health checks, controllers, Redfish and other collectors, reconcilers and command lines are left out: input and output over libraries, with little to prove.
