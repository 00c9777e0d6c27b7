# Location and NRP service batch updater

A Dafny model of one reconciliation cycle of the cloud provider's location and
NRP service batch updater (`pkg/provider/azure_location_and_nrp_service_batch_updater.go`).

A cycle runs one ordered protocol against the diff tracker and the NRP API:

1. create the added services, and on success acknowledge them to the diff tracker;
2. record every added service locally, and commit its endpoint delta;
3. commit the endpoint delta of every removed service;
4. push the location data, and on success acknowledge it;
5. delete the removed services, and on success acknowledge them.

A failed remote step ends the cycle. An endpoint delta is built by correlating
the service name with the cached endpoint slices. This is case-insensitive on
the slice's owning service UID. The pod-IP to node-IP maps of the matching
slices are merged, last write wins. A delta whose merged map is empty is not
committed. Both NRP client functions try at most three times, with backoff
between attempts, and then check for a 2xx status.

Modules:

- `Merge` (`merge.dfy`): `mergeMaps`, as a nested-loop method proved equal to
  `MergeAll`, a left fold of map union.
- `Correlator` (`correlator.dfy`): the `Range` callback of `process`.
  `CollectAddresses` is proved equal to
  `EndpointAddresses(cache, name) = MergeAll(MatchingMaps(cache, name))`.
- `NrpClient` (`nrp_client.dfy`): the retry and status logic shared by
  `NRPAPIClientUpdateNRPLocations` and `NRPAPIClientUpdateNRPServices`. From
  marshalling onwards the two functions are identical, so `Send` models both.
- `BatchUpdater` (`batch_updater.dfy`): class `Updater`.
  - `trace` is the ordered log of remote calls and diff-tracker
    acknowledgements.
  - `localServiceNames` is the key set of `localServiceNameToNRPServiceMap`.
  - `Process` is proved to append exactly `CycleTrace(...)`, a function of its
    inputs.
  - Abort, commit-only-on-success, ordering and delta shape are lemmas about
    `CycleTrace`.

Collaborators are inputs:

- the diff tracker's snapshot is a `SyncServices` value and a `LocationData` value;
- the endpoint-slice cache is a sequence of `(optional service UID, pod IP → node IP)` records;
- the result of each remote call is a `RemoteOutcomes` value;
- inside `Send`, the result of each `client.Do` and the moment the context is
  cancelled are inputs.

The code and its comment disagree about the backoff. The comment on the backoff
says "1s, 2s, 4s". The code waits only after attempts 0 and 1 (`i < maxRetries-1`),
so a failing call waits 1s and then 2s, and never 4s. The model follows the
code: `NrpClient.Send` proves that the waits are `1 << j` for each retried
attempt `j`, that there is no wait after the last attempt, and that the total is
`2^(made-1) - 1` seconds.

## Model

| member | source | states |
|---|---|---|
| Merge.MergeMaps | pkg/provider/azure_location_and_nrp_service_batch_updater.go:318-326 | The nested loops produce exactly the left-to-right union of the argument maps, in whatever order each map's keys are visited |
| Merge.MergeKeys | pkg/provider/azure_location_and_nrp_service_batch_updater.go:318-326 | A key is in the merged map exactly when some argument map contains it |
| Merge.MergeLastWriteWins | pkg/provider/azure_location_and_nrp_service_batch_updater.go:320-323 | A key takes the value it has in the last argument map that contains it |
| Merge.MergeNothing | pkg/provider/azure_location_and_nrp_service_batch_updater.go:319 | With no arguments the result is the empty map |
| Merge.MergePair | pkg/provider/azure_location_and_nrp_service_batch_updater.go:95 | The two-argument call `mergeMaps(acc, m)` is the right-biased union `acc + m` |
| Correlator.CollectAddresses | pkg/provider/azure_location_and_nrp_service_batch_updater.go:91-98 | The `Range` pass yields the merge, in cache order, of the maps of the slices whose UID was found and case-insensitively equals the name |
| Correlator.RecordStep | pkg/provider/azure_location_and_nrp_service_batch_updater.go:93-96 | A slice that does not match leaves the accumulator unchanged; a matching one is merged over it |
| Correlator.AddressesDomain | pkg/provider/azure_location_and_nrp_service_batch_updater.go:91-98 | A pod IP is in the result exactly when some matching slice carries it |
| Correlator.AddressesLastWriteWins | pkg/provider/azure_location_and_nrp_service_batch_updater.go:94-95 | A pod IP maps to the node IP given by the last matching slice that carries it |
| Correlator.EqualFoldEquivalence | pkg/provider/azure_location_and_nrp_service_batch_updater.go:94 | The case-insensitive comparison is symmetric and transitive |
| Correlator.CaseInsensitiveCorrelation | pkg/provider/azure_location_and_nrp_service_batch_updater.go:94 | Service names that differ only in letter case correlate with the same slices and get the same map |
| Correlator.SingleMatchingRecord | pkg/provider/azure_location_and_nrp_service_batch_updater.go:89-96 | Starting from the empty map, one matching slice yields exactly its own map |
| Correlator.MixedCaseUidIsMerged | pkg/provider/azure_location_and_nrp_service_batch_updater.go:94 | A slice with UID "Svc" is merged for service "sVC" |
| NrpClient.TotalBackoff | pkg/provider/azure_location_and_nrp_service_batch_updater.go:234-236 | Waiting `1 << j` seconds after each of the first n attempts takes `2^n - 1` seconds in all |
| NrpClient.Send | pkg/provider/azure_location_and_nrp_service_batch_updater.go:205-256 | A marshal or request-build failure returns its error before any attempt. Otherwise there are 1 to 3 attempts; every attempt but the last failed in transport; the loop stops at the first response. A wait of `1 << j` seconds follows each retried attempt, with none after the third. Cancellation during a wait returns the cancellation error with no further attempt. Three transport failures return the send error. A response outside [200,300) is the error, and a 2xx gives nil, both directions |
| NrpClient.SucceedsOnThirdAttempt | pkg/provider/azure_location_and_nrp_service_batch_updater.go:285-315 | Two transport failures then a 200: nil error after three attempts and waits of 1s and 2s |
| NrpClient.CancelledInFirstBackoff | pkg/provider/azure_location_and_nrp_service_batch_updater.go:293-301 | A cancellation during the first wait: the cancellation error, one attempt, no completed wait |
| NrpClient.RejectedStatusIsNotRetried | pkg/provider/azure_location_and_nrp_service_batch_updater.go:285-315 | A 503 on the first attempt is returned as an error without a second attempt |
| BatchUpdater.Updater.constructor | pkg/provider/azure_location_and_nrp_service_batch_updater.go:23-28 | A new updater has no recorded activity and the cloud's local service map |
| BatchUpdater.Updater.Process | pkg/provider/azure_location_and_nrp_service_batch_updater.go:43-177 | One cycle appends exactly the cycle trace. Every added service is recorded in the local service map once the add step passed, whether or not its endpoint map is empty; otherwise the map is unchanged |
| BatchUpdater.Updater.AddServices | pkg/provider/azure_location_and_nrp_service_batch_updater.go:55-80 | The add call is made only for non-empty additions, with removals nil, and acknowledged on a nil result. It reports whether the cycle may go on |
| BatchUpdater.Updater.PropagateEndpoints | pkg/provider/azure_location_and_nrp_service_batch_updater.go:83-125 | The loop over a service list commits each service's delta in list order. For additions it records each name locally |
| BatchUpdater.Updater.CommitDelta | pkg/provider/azure_location_and_nrp_service_batch_updater.go:86-124 | The delta of one service is committed exactly when its correlated map is non-empty. An added service's delta carries new addresses; a removed service's delta carries old addresses |
| BatchUpdater.Updater.UpdateLocations | pkg/provider/azure_location_and_nrp_service_batch_updater.go:128-145 | The locations call is made only for non-empty locations and acknowledged on a nil result. A failure stops the cycle |
| BatchUpdater.Updater.RemoveServices | pkg/provider/azure_location_and_nrp_service_batch_updater.go:148-172 | The remove call is made only for non-empty removals, with additions nil, and acknowledged on a nil result |
| BatchUpdater.Updater.AddOperation | pkg/provider/azure_location_and_nrp_service_batch_updater.go:328-331 | Returns its operation unchanged |
| BatchUpdater.Updater.RemoveOperation | pkg/provider/azure_location_and_nrp_service_batch_updater.go:333-336 | Changes nothing |
| BatchUpdater.AbortOnAddFailure | pkg/provider/azure_location_and_nrp_service_batch_updater.go:65-78 | A failed add call is the whole cycle: no acknowledgement, no endpoint delta, no locations call, no remove call |
| BatchUpdater.RemoteCallsIssued | pkg/provider/azure_location_and_nrp_service_batch_updater.go:55-172 | Each remote call is made exactly when its set is non-empty and every earlier remote step passed. In particular, a failed locations call skips the remove call |
| BatchUpdater.CommitOnlyOnSuccess | pkg/provider/azure_location_and_nrp_service_batch_updater.go:68-169 | Each of the three acknowledgements is written exactly when its call was made and returned nil |
| BatchUpdater.EndpointInCycle | pkg/provider/azure_location_and_nrp_service_batch_updater.go:75-125 | An endpoint commit is in the cycle exactly when the add step passed and one of the two delta loops produced it |
| BatchUpdater.NonEndpointInCycle | pkg/provider/azure_location_and_nrp_service_batch_updater.go:55-172 | A call or acknowledgement is in the cycle exactly when its step ran, and each step runs only after every earlier remote step passed |
| BatchUpdater.EndpointCommitShape | pkg/provider/azure_location_and_nrp_service_batch_updater.go:86-124 | Every endpoint commit comes after a passed add step and has a non-empty map. It is either an added service's delta with nil old and merged new addresses, or a removed service's delta with nil new and merged old addresses |
| BatchUpdater.AddedEndpointsCommitted | pkg/provider/azure_location_and_nrp_service_batch_updater.go:83-104 | Once the add step passed, an added service's new-address delta is committed exactly when its merged map is non-empty |
| BatchUpdater.RemovedEndpointsCommitted | pkg/provider/azure_location_and_nrp_service_batch_updater.go:106-125 | Once the add step passed, a removed service's old-address delta is committed exactly when its merged map is non-empty |
| BatchUpdater.DeltaEventsSound | pkg/provider/azure_location_and_nrp_service_batch_updater.go:83-125 | Everything a delta loop commits is the non-empty delta of one of its listed services |
| BatchUpdater.DeltaEventsComplete | pkg/provider/azure_location_and_nrp_service_batch_updater.go:101-124 | Every listed service with a non-empty merged map gets its delta committed |
| BatchUpdater.DeltaEventsOnlyEndpoints | pkg/provider/azure_location_and_nrp_service_batch_updater.go:83-125 | The delta loops make no remote call and write no other acknowledgement |
| BatchUpdater.DeltaEventsStage | pkg/provider/azure_location_and_nrp_service_batch_updater.go:86-124 | Every commit of the additions loop has nil old addresses and carries new addresses; every commit of the removals loop has nil new addresses and carries old addresses |
| BatchUpdater.CycleIsOrdered | pkg/provider/azure_location_and_nrp_service_batch_updater.go:54-172 | The trace runs in protocol order: add call, add acknowledgement, added-service deltas, removed-service deltas, locations call, locations acknowledgement, remove call, remove acknowledgement |
| BatchUpdater.CallBeforeAcknowledgement | pkg/provider/azure_location_and_nrp_service_batch_updater.go:65-165 | Wherever an acknowledgement and its remote call both appear in the trace, the call comes first, for each of the add, locations and remove steps |

## Left out

- The `run` loop, with its `select` over the trigger channel and context cancellation, and the size-1 channel: goroutine and channel concurrency whose senders are outside this file.
- `logDiffTracker`, `logObject` and every `klog` call: logging only.
- JSON marshalling, URL formatting, building the HTTP request, `client.Do` and closing the body. These are library calls, modelled only by their outcome: a `Preparation` before the first attempt, and an `AttemptOutcome` per attempt.
- Real sleeping with `time.After`. A backoff is recorded as its length in seconds.
- The diff tracker's internals: `GetSyncLoadBalancerServices`, `GetSyncLocationsAddresses`, `UpdateNRPLoadBalancers`, `UpdateK8sEndpoints`, `UpdateLocationsAddresses`, `MapLoadBalancerUpdatesToServicesDataDTO` and `MapLocationDataToDTO` are not part of this model. The snapshots they hand out are inputs, and the acknowledgements are events in `trace`. The location snapshot is an input that is independent of the endpoint commits made before it is read.
- `getServiceUIDOfEndpointSlice` and `getPodIPToNodeIPMapFromEndpointSlice` are not part of this model. Their results for each cached slice are the fields of an `EndpointRecord`.
- The concurrency of `sync.Map`: the endpoint-slice cache is a sequence visited in one fixed order, and `LoadOrStore` is a set insert, which is idempotent.
- The order of `UnsortedList()` is decided by the diff tracker. The model takes it as the order of the input sequences.
- Correlator.EqualFold: compares ASCII letters case-insensitively. It does not apply Unicode simple case folding, as Go's `strings.EqualFold` does.
- NrpClient.Send: requires exactly three attempt outcomes, one per possible attempt. Outcomes past the attempts actually made are ignored.
- BatchUpdater.Updater.Process: the two NRP client calls are not run through `NrpClient.Send` inside a cycle. Each call's result is taken from `RemoteOutcomes`.
