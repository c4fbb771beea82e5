# The multi-cluster service registry of fab-dns

fab-dns lets clusters share services. Every cluster exports its services to one host. The host keeps one global service
per name, with a flat list of endpoints that are tagged with their cluster. Other clusters copy the global services, and
a DNS plugin answers queries from them. This project models that system and proves what it is for:

- the host's flat lists always say what each cluster last exported, whatever the order and interleaving of requests;
- clusters that stop reporting are cleaned out completely, and a revoke for a cluster starts only after its recorded
  lease has run out;
- replication reaches the host's state in any order of its concurrent jobs and, versions being unique, its version check
  skips nothing it needs;
- a DNS answer in one cluster is exactly what another cluster last exported.

Check everything with `dafny verify dfyconfig.toml`.

## How it is laid out

| file | part of the system |
|---|---|
| `Model.dfy`, `Endpoints.dfy`, `Registry.dfy` | services, endpoint sub-lists, the registry as a value and its two operations |
| `ObjectStore.dfy` | the object store behind the API client: current reads, fresh versions, calls that may fail and then change nothing |
| `Manager.dfy` | the global service manager with its in-place filter |
| `Locking.dfy` | the manager's protocol with any number of interleaved threads |
| `Runs.dfy` | whole runs of exports and revokes |
| `Leases.dfy`, `ApiServer.dfy` | cluster store, clock, request handlers |
| `Cleaner.dfy`, `Recovery.dfy` | expiry of clusters, rebuilding the cluster store after a restart |
| `Host.dfy`, `HostRuns.dfy` | the host as one state machine: tracking, and its services as a run of the registry |
| `HostPasses.dfy`, `HostLeases.dfy`, `HostRaces.dfy` | the cleaner's passes, leases, and the races that break tracking and leases |
| `ObjectKeySet.dfy`, `Sorting.dfy`, `HeadlessExport.dfy`, `Exporter.dfy` | exporter and revoker of lost services |
| `Importer.dfy` | replication into a client cluster |
| `Names.dfy`, `Dns.dfy` | query names and answers |
| `EndToEnd.dfy` | from an export to an answer elsewhere |

Classes carry the state that the source updates in place. Their methods are proved against functions on values
(`Apply`, `Stored`, `Touched`, `Imported`, ...), and the theorems are about those functions and about state machines built
from them.

## Conventions

- A time of 0 is the zero time. Versions are opaque texts that are only compared; every write gets a fresh one.
- *Well tagged* means that every endpoint of an export carries the exporting cluster's name. The exporter produces
  exactly that (`Exporter.ExportsAreTagged`); `Registry.ReexportIdempotentIffWellTagged` shows what it is needed for.
- Library sorting, map iteration, failing calls and the advance of the clock are nondeterministic. While the object store
  is `healthy`, calls fail only for reasons found in the store, except those for keys in `failing`; the contracts say
  which operations then succeed, so that a failure for one key stops no work on others.
- `parseIp` stands for the library's address parser: any function from texts to optional IPv4 or IPv6 addresses.

## Where the code does less than its comments or names suggest

- Restart recovery (`pkg/service-hub/options.go:361-369`) adds a key only when the cluster is first met. It tracks all
  keys if and only if every cluster known beforehand has its keys already and no other foreign cluster occurs in two
  services (`Recovery.RecoveryTracksAllIff`). It fails for a cluster with two services (`Recovery.SecondServiceIsMissed`)
  and, since it runs beside the API server, for a cluster whose heartbeat comes first (`Recovery.EarlyHeartbeatIsMissed`).
  Adding the key outside the guard would track everything (`Recovery.AddEveryKeyTracksAll`).
- Every foreign endpoint stays tracked if and only if no cluster's requests for one key overlap
  (`HostRaces.TrackedIffDisjointKeys`). The one losing step is the end of a delete whose service holds an endpoint of the
  cluster again, with no upload about to add the key (`Host.TrackingLostIff`). An endpoint that is not tracked is never
  removed by expiry (`Cleaner.ExpiryExactIffCovered`).
- The cleaner can start a revoke although the lease duration has not passed since the cluster's latest request. Renewals
  read the clock before they take the cluster's lock, so this happens in two ways: a renewal has read the clock and not
  yet recorded its deadline (`HostRaces.RenewalUnderWayIsTooLate`), or two overlapping renewals record theirs in the wrong
  order (`HostRaces.OverlappingRenewalsShortenLease`). For a cluster with a deadline and keys it can happen from a given
  state if and only if the recorded reading is not the latest one and the lease counted from the latest has not run out
  (`HostLeases.EarlyRevokeIff`). While no renewal is under way it never happens if and only if renewals of one cluster do
  not overlap (`HostRaces.LeasesLastIffDisjointRenewals`).
- Between the cleaner's check and the revoke that it allows, a cluster can renew its lease and upload the service again;
  the revoke then removes the fresh endpoints, whatever the clients do (`HostRaces.RevokeTakesFreshEndpoints`). A revoke
  takes effect on a live lease if and only if the clock has not passed the recorded reading by more than the lease
  duration, and that reading is then later than the one that allowed the revoke (`HostLeases.RevokesLiveLeaseIff`).
- The server's own exporter may export a headless service without endpoints (`pkg/service-hub/options.go:179`). Whether a
  service exists can then depend on the order of different clusters' operations
  (`Runs.EmptyExportsAreOrderDependent`). It does not if and only if a live export of the service has endpoints, or all
  clusters that have touched it agree on it, each having last exported it or each having last revoked it
  (`Runs.OrderFreeIff`). `Runs.RunIsDeclared` gives the outcome of each run.
- The parser never looks at the "svc" label of five- and six-label names, and its first length guard
  (`pkg/fabdns/parse.go:42`) never holds (`Names.AcceptedIsDocumentedIff`, `Names.RejectedIff`).
- When a revoke's read fails, the source goes on to delete an object without a name, which the API refuses; the model
  does the same (`pkg/service-hub/types/global_service_manager.go:92-102`).
- After a restart, this cluster's endpoints of a service that is no longer exported are cleared if and only if the service
  is gone or has lost its label (`Exporter.ClearedIff`). Those of a service that kept the label but changed its type stay
  (`Exporter.ChangedTypeStays`, `pkg/service-hub/exporter/lost_service_revoker.go:66-71`).
- A replication round skips a service by its version label alone. A fully successful round therefore reaches the
  snapshot if and only if no label names the present version over another specification
  (`Importer.RoundConvergesIff`). While versions are unique, labels written by rounds never do
  (`Importer.RoundKeepsSound`). When the hub issues a version text again, as after its store is rebuilt, a stale
  specification is kept (`Importer.ReusedVersionIsSkipped`).

## Model

| member | source | states |
|---|---|---|
| Manager.RemoveEndpoints | pkg/service-hub/types/global_service_manager.go:107-117 | the in-place shifting filter leaves, at the front of the array, exactly the other clusters' endpoints in order |
| Manager.GlobalServiceManager.CreateOrMergeGlobalService | pkg/service-hub/types/global_service_manager.go:46-82 | a success has the effect of one atomic export on the store (no write when nothing changes); a failure changes nothing |
| Manager.GlobalServiceManager.RevokeGlobalService | pkg/service-hub/types/global_service_manager.go:84-105 | a success has the effect of one atomic revoke, deleting a service left without endpoints; a failure, including a failed read, changes nothing |
| Manager.StoredRefinesApply | pkg/service-hub/types/global_service_manager.go:66-105 | the versioned object store follows the registry of plain values under both operations |
| Manager.StoredKeepsLabels | pkg/service-hub/types/global_service_manager.go:57-65 | a service keeps its labels, a created one says who created it, and no other service nor an unchanged one is written |
| Registry.ReexportIdempotentIffWellTagged | pkg/service-hub/types/global_service_manager.go:66-79 | repeating an export has no further effect on any registry if and only if the export is well tagged |
| Registry.RevokeIdempotent | pkg/service-hub/types/global_service_manager.go:84-105 | a second revoke does nothing, and none of the cluster's endpoints is left |
| Registry.OthersUntouched | pkg/service-hub/types/global_service_manager.go:66-104 | an operation leaves the endpoints of every other cluster and every other service alone, in order |
| Runs.RunEndpoints | pkg/service-hub/types/global_service_manager.go:66-104 | after any run, a service's list is the concatenation of each cluster's last un-revoked export, by the time of that export |
| Runs.RunIsDeclared | pkg/service-hub/types/global_service_manager.go:66-104 | a run leaves exactly what its history declares: which services exist (empty exports included), their endpoints, and ports and type of the last export |
| Runs.ExistsIffLive | pkg/service-hub/apiserver/apiserver.go:109 | when no export is empty, a service exists if and only if it has a live export with endpoints |
| Runs.SublistIsPublished | pkg/service-hub/types/global_service_manager.go:66-104 | each cluster's sub-list is its own last export, whatever the others did |
| Runs.OrderIndependence | pkg/service-hub/types/global_service_manager.go:66-104 | runs that agree on each cluster's own order give the same sub-lists, the same endpoint multiset and, with non-empty exports, the same services |
| Runs.OrderFreeIff | pkg/service-hub/types/global_service_manager.go:66-104 | whether a service exists is the same after all runs with the same operations of each cluster, if and only if a live export of it has endpoints, or every cluster that has touched it has last exported it, or every one has last revoked it |
| Runs.EmptyExportsAreOrderDependent | pkg/service-hub/options.go:179 | an input where the order matters: one cluster's empty export and another's revoke |
| Locking.Serialisable | pkg/service-hub/types/global_service_manager.go:46-105 | at every moment of every interleaving the store is what the operations that succeeded give one after the other in lock order |
| Locking.NoLostUpdate | pkg/service-hub/types/global_service_manager.go:46-105 | in every interleaving each cluster's endpoints are those of its own last successful operation in lock order |
| Locking.NoConflicts | pkg/service-hub/types/global_service_manager.go:66-102 | under the lock no write that a thread has settled on is refused because of what another thread has done |
| Locking.FailsIffCallFailed | pkg/service-hub/types/global_service_manager.go:46-105 | in every interleaving an operation that has ended has failed if and only if one of its own client calls failed; otherwise it is among the effects |
| Locking.NamespaceEnsuredFirst | pkg/service-hub/types/global_service_manager.go:50-54 | with namespace creation on, no export gets past the ensured namespace without it |
| Locking.NeverStuck | pkg/service-hub/types/global_service_manager.go:46-48 | there is no deadlock: while a call has not returned, some thread can take its next step |
| Locking.RealTimeOrder | pkg/service-hub/types/global_service_manager.go:46-48 | a call that returned before another was made precedes it in lock order |
| ClusterStores.ClusterStore.New | pkg/service-hub/types/cluster.go:80-92 | one entry per name: an existing cluster is returned unchanged, a new one has no keys and no deadline |
| ClusterStores.ClusterStore.GetExpiredClusters | pkg/service-hub/types/cluster.go:117-129 | returns every cluster expired before the call and none that is not expired by its end, in any order |
| ClusterStores.Cluster.IsExpired | pkg/service-hub/types/cluster.go:49-54 | true exactly when a deadline is set and the clock has passed it |
| ClusterStores.Cluster.GetAllServiceKeys | pkg/service-hub/types/cluster.go:56-66 | lists exactly the tracked keys, once each |
| ApiServers.Server.UpdateClusterExpireTime | pkg/service-hub/apiserver/apiserver.go:165-180 | every request with a cluster header renews that cluster's lease from a clock reading taken during the call; one without changes nothing |
| Leases.RenewalMeaning | pkg/service-hub/apiserver/apiserver.go:165-180 | a request without a header changes no entry; any other sets its own cluster's deadline and leaves all keys and other deadlines as they were |
| Leases.TrackingMeaning | pkg/service-hub/types/cluster.go:68-72 | adding a key changes its own cluster's keys only, and no deadline |
| Leases.UntrackingMeaning | pkg/service-hub/types/cluster.go:74-78 | dropping a key changes its own cluster's keys only, and no deadline; no cluster comes or goes |
| ApiServers.Server.UploadGlobalService | pkg/service-hub/apiserver/apiserver.go:96-131 | an acceptable upload is tracked under the header's cluster even when the merge fails; any other is rejected and changes only the lease |
| ApiServers.Server.DeleteEndpoints | pkg/service-hub/apiserver/apiserver.go:133-155 | the key stops being tracked exactly when the revoke succeeds |
| ApiServers.Server.GetAllGlobalServices | pkg/service-hub/apiserver/apiserver.go:64-94 | answers with every stored service exactly once, with its current version and specification and no other metadata |
| Host.TrackingAlways | pkg/service-hub/apiserver/apiserver.go:114-154 | in every state reachable from an empty host, over interleaved uploads (failed ones too), deletes, heartbeats, own exports and cleaner steps, every foreign endpoint is covered by its cluster's keys or by an upload about to add the key, if no cluster's requests for one key overlap |
| Host.TrackingLostIff | pkg/service-hub/apiserver/apiserver.go:133-155 | with no discipline: a step from a tracking state loses track if and only if it ends a foreign delete whose service holds an endpoint of the cluster again and no upload of that cluster and key is pending |
| HostRaces.TrackedIffDisjointKeys | pkg/service-hub/apiserver/apiserver.go:114-154 | every reachable state tracks every foreign endpoint if and only if no cluster's requests for one key overlap |
| HostRuns.ServicesAreTheRun | pkg/service-hub/types/global_service_manager.go:66-104 | whatever the interleaving of requests, own operations and the cleaner, the host's services are the registry's run of the operations performed, each cluster's endpoints being its last export not revoked since |
| HostRuns.EveryHistoryIsARun | pkg/service-hub/apiserver/apiserver.go:96-155 | conversely every history of own operations, deletes and acceptable uploads is performed by some run, under any discipline |
| HostRuns.StoredAreWhole | pkg/service-hub/apiserver/apiserver.go:109 | in every reachable state, if the server's own exports are whole, every stored service has a name, a namespace, ports and endpoints |
| Host.RequestProceeds | pkg/service-hub/apiserver/apiserver.go:96-180 | no request is stuck, save while another renewal of its cluster is under way and the clients keep renewals apart |
| Host.QuietHostIsCovered | pkg/service-hub/types/cluster.go:68-92 | while no upload is between its merge and its tracking, the cluster store alone covers every foreign endpoint |
| Host.ServeIsHandler | pkg/service-hub/apiserver/apiserver.go:96-155 | the steps of one undisturbed request compose to what its handler does to the cluster store and the services |
| HostPasses.CompletePassIsExact | pkg/service-hub/cleaner/cluster_cleaner.go:51-62 | the cleaner's own steps, taken in any order from a reachable quiet state to the end of a pass without failures, sweep every cluster expired at the start and none not expired by the end, remove exactly their endpoints from every service, and delete exactly the tracked services left empty |
| HostPasses.LiveClusterIsLeft | pkg/service-hub/cleaner/cluster_cleaner.go:55-57 | once a check finds a cluster's lease live, the cleaner revokes none of its keys until the next pass, whatever happens meanwhile |
| HostLeases.LeaseSafety | pkg/service-hub/cleaner/cluster_cleaner.go:52-60 | the cleaner starts a revoke only on reading a time more than the lease duration past the cluster's last recorded request or recovery, which is its latest unless a later one is not recorded; never for a zero deadline |
| HostLeases.SilentClusterExpires | pkg/service-hub/types/cluster.go:43-54 | in every reachable state a cluster that was ever renewed or recovered has the deadline of its recorded reading, and is expired exactly when the lease duration has passed since, whatever it has deleted |
| HostLeases.SilentClusterIsCleaned | pkg/service-hub/cleaner/cluster_cleaner.go:51-62 | so a complete pass over a host at rest leaves no endpoint of a foreign cluster whose lease has run out |
| HostLeases.EarlyRevokeIff | pkg/service-hub/types/cluster.go:43-54 | with no discipline: from a reachable state the clock and the cleaner alone can start a revoke too early for the latest request if and only if the cluster has a deadline and keys, its recorded reading is not its latest, and the lease counted from the latest has not run out |
| HostLeases.RevokesLiveLeaseIff | pkg/service-hub/cleaner/cluster_cleaner.go:55-59 | every revoke in progress was allowed by such a reading; when it takes effect the lease is live if and only if the clock has not passed the recorded reading by more than the lease duration, and that reading is then later than the one that allowed the revoke |
| HostRaces.RevokeTakesFreshEndpoints | pkg/service-hub/cleaner/cluster_cleaner.go:55-59 | whatever the disciplines, a revoke can remove all endpoints of an upload that the cluster made, with its lease renewed, after the check |
| HostLeases.EarlyOnlyWhileRenewing | pkg/service-hub/apiserver/apiserver.go:172-174 | if a cluster's renewals do not overlap, the cleaner starts a revoke too early only between a request's reading of the clock and the recording of its deadline |
| HostRaces.LeasesLastIffDisjointRenewals | pkg/service-hub/apiserver/apiserver.go:172-174 | in all reachable states a revoke that starts with no renewal of its cluster under way is past the latest request, if and only if no cluster's renewals overlap |
| HostRaces.OverlappingRequestsLoseTracking | pkg/service-hub/apiserver/apiserver.go:114-149 | an upload and a delete of one cluster and key that overlap can leave an untracked endpoint with no request in progress, even if their renewals do not overlap |
| HostRaces.OverlappingRenewalsShortenLease | pkg/service-hub/apiserver/apiserver.go:172-174 | two overlapping renewals can let a revoke start, with none under way any more, before the lease duration has passed since the later one |
| HostRaces.RenewalUnderWayIsTooLate | pkg/service-hub/apiserver/apiserver.go:172-174 | whatever the disciplines, a revoke can start between a single renewal's reading of the clock and the recording of its deadline |
| Cleaner.ClusterCleaner.CleanExpiredClusterEndpoints | pkg/service-hub/cleaner/cluster_cleaner.go:51-62 | one pass sweeps every cluster expired at its start and none not expired by its end; every revoke that cannot fail is made even when others fail; the services become what the successful revokes leave, in any order; keys stay tracked |
| Cleaner.PurgeStep | pkg/service-hub/cleaner/cluster_cleaner.go:64-72 | one more revoke just adds one cluster and key pair, so the order of revokes is immaterial |
| Cleaner.ExpiryExact | pkg/service-hub/cleaner/cluster_cleaner.go:51-62 | given coverage, a complete pass removes all endpoints of the swept clusters, keeps all others in order, and deletes exactly the tracked services left empty |
| Cleaner.ExpiryExactIffCovered | pkg/service-hub/cleaner/cluster_cleaner.go:54-59 | a complete pass removes exactly the swept clusters' endpoints if and only if each of them is covered by its cluster's keys |
| Recovery.RecordGlobalServicesByCluster | pkg/service-hub/options.go:341-372 | gives an entry, with a deadline, to precisely the unknown foreign clusters in some endpoint, each holding just the key of the first listed service that mentions it |
| Recovery.FirstKeyIsFirstService | pkg/service-hub/options.go:351-369 | the key that a new cluster gets is that of the first listed service with an endpoint of the cluster |
| Recovery.RecoveryTracksAllIff | pkg/service-hub/options.go:361-369 | as written, recovery on top of any cluster store tracks every key if and only if the clusters known beforehand have their keys and no other foreign cluster occurs in two services |
| Recovery.SecondServiceIsMissed | pkg/service-hub/options.go:361-369 | from an empty store, the second service of a cluster is not tracked |
| Recovery.EarlyHeartbeatIsMissed | pkg/service-hub/options.go:341-369 | a cluster whose heartbeat has come before the recovery has no key tracked, not even of its only service |
| Recovery.AddEveryKeyTracksAll | pkg/service-hub/options.go:341 | with the key added outside the guard, every key is tracked |
| Recovery.TracksAllCovers | pkg/service-hub/options.go:341 | tracking every listed endpoint's key is the coverage that the cleaner needs |
| Importer.GlobalServiceImporter.CreateOrUpdateGlobalService | pkg/service-hub/importer/global_service_importer.go:102-141 | a success changes its own service only, to the labels and specification that the version check asks for; a failure changes nothing |
| Importer.GlobalServiceImporter.DeleteService | pkg/service-hub/importer/global_service_importer.go:143-150 | a success removes its own service only; a failure changes nothing |
| Importer.GlobalServiceImporter.PlanRound | pkg/service-hub/importer/global_service_importer.go:83-99 | a round starts one job per downloaded service, even when the list fails, and deletes exactly the listed local services that the download does not have |
| Importer.RoundResult | pkg/service-hub/importer/global_service_importer.go:83-150 | every interleaving of a round's jobs, list and deletes gives the same local services for the same failures, and a failed job affects only its own key |
| Importer.FailuresStayLocal | pkg/service-hub/importer/global_service_importer.go:83-150 | a failed job leaves its own service as it was, every other job has its effect, and nothing is deleted without the list |
| Importer.NeverStuck | pkg/service-hub/importer/global_service_importer.go:83-99 | a round that is not complete can always go on |
| Importer.ImportedLabels | pkg/service-hub/importer/global_service_importer.go:120-136 | a job leaves the version label naming the downloaded version and keeps every other label; a service without labels gets the creator's |
| Importer.RoundKeepsSound | pkg/service-hub/importer/global_service_importer.go:120-136 | at every moment of a round, a non-empty origin label names the server version that the local specification came from |
| Importer.RoundConverges | pkg/service-hub/importer/global_service_importer.go:120-136 | after a fully successful round the local services are exactly the snapshot's, with its specifications even where the update was skipped |
| Importer.RoundConvergesIff | pkg/service-hub/importer/global_service_importer.go:120-136 | whatever the labels say: a fully successful round ends with the snapshot's keys, and with its specifications if and only if no service started with the label of its present version over another specification |
| Importer.ReusedVersionIsSkipped | pkg/service-hub/importer/global_service_importer.go:127-130 | an input where a successful round keeps a stale specification: a version text that the server has issued anew for another one |
| HeadlessExport.GetEndpointsOfHeadlessService | pkg/service-hub/exporter/service_exporter.go:180-224 | for slices sorted in some order, the result lists the endpoints grouped by pod, strictly sorted by pod name |
| Sorting.BeforeIff | pkg/service-hub/exporter/service_exporter.go:232 | names are ordered by the first position at which they differ |
| HeadlessExport.GroupingMeaning | pkg/service-hub/exporter/service_exporter.go:192-221 | one endpoint per pod of the non-FQDN slices, with the exporting cluster's name, zone and region and the hostname and target of one of the pod's slice endpoints; its addresses are the pod's, conserved as a multiset, those of IPv4 slices before those of IPv6 slices |
| HeadlessExport.OneGivesItsAddresses | pkg/service-hub/exporter/service_exporter.go:198-213 | a slice endpoint gives its own pod all of its addresses and no other pod any |
| HeadlessExport.CollectsUnique | pkg/service-hub/exporter/service_exporter.go:217-221 | the result does not depend on the order in which the map is walked |
| HeadlessExport.IPv4First | pkg/service-hub/exporter/service_exporter.go:193-215 | in slices sorted by address type, a pod's IPv4-slice addresses precede its IPv6-slice addresses |
| HeadlessExport.TypedPermuted | pkg/service-hub/exporter/service_exporter.go:193-215 | however the slices are ordered, each pod's addresses per address type are the same multiset |
| Exporter.ServiceExporter.Reconcile | pkg/service-hub/exporter/service_exporter.go:72-151 | exports a service that qualifies, revokes one that does not if this process exported it, otherwise does nothing; the key set holds a key if and only if the last successful call for it was an export |
| Exporter.ServiceExporter.RevokeGlobalService | pkg/service-hub/exporter/service_exporter.go:157-174 | revokes and forgets a key that this process exported; leaves any other alone, as after a restart |
| Exporter.ExportsAreTagged | pkg/service-hub/exporter/service_exporter.go:90-140 | every export carries the exporting cluster's name, zone and region on every endpoint, the service's ports, and its type; a service with a cluster address has one endpoint with all its addresses |
| Exporter.WantedOrLost | pkg/service-hub/exporter/service_exporter.go:153-178 | what is exported and what counts as lost, by the label's value and the service's type; a service that could not be read is neither |
| Exporter.LastIsExportIff | pkg/service-hub/exporter/service_exporter.go:149-171 | a key is in the exporter's set if and only if the last successful call for it was an export |
| Exporter.LostServiceRevoker.Reconcile | pkg/service-hub/exporter/lost_service_revoker.go:43-72 | for a service that is gone or lost its label, a reconcile without failures clears this cluster's endpoints with the effect of one revoke; any other service is left alone |
| Exporter.ClearedIff | pkg/service-hub/exporter/lost_service_revoker.go:57-71 | for a service that could be read and is not to be exported: exporter and revoker together, in either order, clear this cluster's endpoints of it if and only if this process exported it, or it is gone or lost its label, or there are none |
| Exporter.ChangedTypeStays | pkg/service-hub/exporter/service_exporter.go:153-155 | after a restart, the endpoints of a service that kept its label but is no longer of an exported type stay |
| Exporter.LostServiceRevoker.RevokeIfNecessary | pkg/service-hub/exporter/lost_service_revoker.go:74-86 | one revoke per own endpoint has together the effect of one revoke; without an own endpoint nothing changes |
| Names.RoundTrip | pkg/fabdns/parse.go:34-78 | under a single-label zone, rendering any of the four forms and parsing it gives the request back, except exactly a deprecated name of a cluster called "svc" |
| Names.AcceptedReadsItsLabels | pkg/fabdns/parse.go:46-71 | conversely the labels of an accepted name are the fields of its request in one of the documented places, and its form decides whether it is ad hoc |
| Names.RejectedIff | pkg/fabdns/parse.go:41-75 | a name is rejected if and only if its label count is none of 4, 5 and 6 |
| Names.AcceptedIsDocumentedIff | pkg/fabdns/parse.go:35-71 | an accepted name is of a documented form if and only if it has four labels or "svc" before its last label |
| Names.SpellingsAgree | pkg/fabdns/parse.go:36-39 | the deprecated and the preferred spelling are the same request |
| Names.ZoneMustBeOneLabel | pkg/fabdns/parse.go:60-65 | a plain service name reads back as itself if and only if the zone is one label |
| Dns.FabDNS.GenerateRecords | pkg/fabdns/fabdns.go:272-298 | one record for each address of the queried family, in order, with query name, class and configured TTL |
| Dns.FabDNS.GetGlobalRecords | pkg/fabdns/fabdns.go:123-216 | the one-pass switch returns the first non-empty of own cluster, own zone, own region and all records, with overlapping filters; pod names and errors as the naive definition says |
| Dns.FabDNS.Scan | pkg/fabdns/fabdns.go:172-192 | the mutually exclusive cases collect the overlapping filters' records wherever these decide the answer |
| Dns.FabDNS.GetAdHocRecords | pkg/fabdns/fabdns.go:218-245 | exactly the named cluster's records, in order |
| Dns.FabDNS.ServeDNS | pkg/fabdns/fabdns.go:65-111 | classifies every outcome: answer, written negative reply, unwritten error, or next plugin |
| Dns.NameDecidesKey | pkg/fabdns/fabdns.go:137-144 | in each of the forms, the object that is read is the service named, in the namespace named |
| Dns.RefusalCodes | pkg/fabdns/fabdns.go:71-95 | outside the zone, for another query type and for a name of no known form, each query gets its own code, and only the last never falls through |
| Dns.RefusalCodesOfReads | pkg/fabdns/fabdns.go:102-108 | a failed read is a server failure that never falls through; a missing service is a name error or left to the next plugin |
| Dns.IncompleteNames | pkg/fabdns/fabdns.go:126-134 | a name without service or namespace, or with a hostname and no cluster, is unknown without a read |
| Dns.PreferredEmptyIff | pkg/fabdns/fabdns.go:202-215 | a query without a cluster is answered with nothing if and only if no endpoint has an address of the family |
| Dns.OwnClusterFirst | pkg/fabdns/fabdns.go:202-204 | one usable address in the resolver's own cluster keeps every other cluster out of the answer |
| Dns.NearestFirst | pkg/fabdns/fabdns.go:202-215 | in terms of the endpoints' own fields: the answer is the own cluster's records if it has a usable address, else the own zone's, else the own region's, else all |
| Dns.HeadlessNameExists | pkg/fabdns/fabdns.go:90-111 | a six-label name is a name error if and only if the service is missing, not headless, or has no endpoint with that cluster and hostname; otherwise it is answered, whatever the resolver's place |
| Dns.ServiceNameExists | pkg/fabdns/fabdns.go:144-152 | a service name is a name error if and only if the service is missing, and is answered empty if and only if it has no address of the family |
| Dns.AnswerIsFamily | pkg/fabdns/fabdns.go:272-298 | the answer's data are the parseable addresses of the family in their order, under the query's name, class and the configured TTL |
| Dns.AnswerHoldsFamily | pkg/fabdns/fabdns.go:274-307 | an A record holds an IPv4 address and an AAAA record an IPv6 address that some endpoint lists, and every such address of the family has its record |
| Dns.OneAddress | pkg/fabdns/fabdns.go:274-296 | one address gives one record, with query name, class and configured TTL, exactly when it is of the queried family |
| Dns.AnswersPartition | pkg/fabdns/fabdns.go:272-307 | across the A and the AAAA answer each parseable address yields exactly one record and none is invented |
| Dns.SpellingsAnswerAlike | pkg/fabdns/fabdns.go:95-99 | the deprecated and the preferred spelling are answered with the same addresses |
| EndToEnd.ReplicationCatchesUp | pkg/service-hub/importer/global_service_importer.go:73-141 | after any history of host operations and rounds, a successful round makes the local services those of the host at its download, versions being unique |
| EndToEnd.AnswerIsLastExport | pkg/fabdns/fabdns.go:218-245 | for the read that the query itself makes, the ad hoc answer for a cluster and service is exactly the family's addresses of that cluster's last un-revoked export, in order; a name error only while the service does not exist |
| EndToEnd.ServiceAnswerIsLiveExports | pkg/fabdns/fabdns.go:154-215 | the answer for a service name, in any importing cluster, is the resolver's first non-empty choice among all live exports of the service; a name error only while the service does not exist |
| EndToEnd.PodAnswerIsLastExport | pkg/fabdns/fabdns.go:162-200 | the answer for a pod name is that pod's addresses in its cluster's last un-revoked export; a name error exactly when the service does not exist, was last exported as not headless, or that export lacks the hostname |
| EndToEnd.OthersDoNotMatter | pkg/service-hub/types/global_service_manager.go:66-104 | two histories that agree on the exporting cluster's own operations, each followed by a successful round, give the same ad hoc reply if and only if the service exists after both or after neither |
| EndToEnd.ExporterDecides | pkg/fabdns/fabdns.go:218-245 | while the exporting cluster has endpoints of the service exported, the reply is the same whatever the other clusters have done |

## Left out

- HTTP, TLS, JSON, routing and the transport of `pkg/service-hub/client/client.go`: a request is a call that succeeds or fails.
- The exporter in client mode: its exports and revokes go through the API server's handlers, which are modelled, but the
  class `ServiceExporter` is joined to the server's own manager only.
- Informer caches: reads are current, which is what the source's lock relies on. Create-or-update is get, mutate, then
  create, or update if changed.
- Plugin plumbing, zone matching, message writing and configuration (`pkg/fabdns/setup.go`): whether the zone matches and
  whether the name falls through are inputs of `ServeDNS`.
- Address parsing and splitting of a name into labels: `parseIp` and the list of labels are inputs.
- Cluster store operations that nothing calls (`Remove`, `RemoveClusters`), flags, validation, logging.
- The swaps inside library sorting: `Sorting.Sort` returns some ordered permutation. `GetEndpointsOfHeadlessService` and the
  importer's plan work on sequence values, not on the backing arrays of the source's slices.
- A restart recovery that finds a cluster unknown while a request creates its entry: `Host` records a recovered cluster
  in one step, and takes finding or creating a cluster's entry and reading the clock as one step of a renewal.
- HostLeases.LeaseSafety: speaks of the last request that has recorded its deadline, because for the latest request the
  property fails; `HostLeases.EarlyRevokeIff` and `HostRaces.LeasesLastIffDisjointRenewals` say exactly when.
- The key set inside a cluster's entry is a set value of the class `Cluster`, not an object of its own as in the exporter
  and the importer: no other object ever holds it.
- Import jobs that outlive their round: a round's jobs end before the next round starts, and the importer is the only
  writer of local services.
- Ports and type under concurrent exports: the last export wins, as `Runs.RunIsDeclared` says; no more is claimed.
