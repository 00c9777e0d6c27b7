/**
 * One reconciliation cycle of the location and NRP service batch updater:
 * the ordered protocol add services, added-service endpoint deltas,
 * removed-service endpoint deltas, update locations, remove services, where
 * each remote step is acknowledged to the diff tracker only on success and a
 * failure ends the cycle.
 */
module BatchUpdater {
  import opened Wrappers
  import opened Correlator
  import NrpClient

  type ServiceName = string

  /**
   * `SyncServicesReturnType`: the services to create and to delete. The
   * sequences stand for the sets' `UnsortedList()`, whose order the diff
   * tracker decides.
   */
  datatype SyncServices = SyncServices(additions: seq<ServiceName>, removals: seq<ServiceName>)

  /** What `GetSyncLocationsAddresses` hands out; only whether it has locations matters here. */
  datatype LocationData = LocationData(locations: seq<string>)

  /** `UpdateK8sEndpointsInputType`; `None` is a nil map. */
  datatype EndpointDelta = EndpointDelta(
    inboundIdentity: ServiceName,
    oldAddresses: Option<AddressMap>,
    newAddresses: Option<AddressMap>)

  /** The result of each remote call the cycle may make (`None` is a nil error). */
  datatype RemoteOutcomes = RemoteOutcomes(
    addServices: Option<NrpClient.CallError>,
    updateLocations: Option<NrpClient.CallError>,
    removeServices: Option<NrpClient.CallError>)

  /** What the cycle does to its collaborators, in the order it does it. */
  datatype Event =
    | ServicesCall(request: SyncServices)       // NRPAPIClientUpdateNRPServices
    | LoadBalancersCommit(sync: SyncServices)   // diffTracker.UpdateNRPLoadBalancers
    | EndpointsCommit(delta: EndpointDelta)     // diffTracker.UpdateK8sEndpoints
    | LocationsCall(data: LocationData)         // NRPAPIClientUpdateNRPLocations
    | LocationsCommit(data: LocationData)       // diffTracker.UpdateLocationsAddresses

  datatype DeltaKind = Added | Removed

  /** The delta for a service: new addresses for an added one, old addresses for a removed one. */
  function DeltaOf(name: ServiceName, addresses: AddressMap, kind: DeltaKind): EndpointDelta
  {
    match kind
    case Added => EndpointDelta(name, None, Some(addresses))
    case Removed => EndpointDelta(name, Some(addresses), None)
  }

  /** The commit for one service's endpoints, dropped when its merged map is empty. */
  function DeltaStep(cache: seq<EndpointRecord>, name: ServiceName, kind: DeltaKind): seq<Event>
  {
    var addresses := EndpointAddresses(cache, name);
    if |addresses| > 0 then [EndpointsCommit(DeltaOf(name, addresses, kind))] else []
  }

  /** The endpoint commits for a list of services, in list order. */
  function DeltaEvents(cache: seq<EndpointRecord>, names: seq<ServiceName>, kind: DeltaKind): seq<Event>
    decreases |names|
  {
    if |names| == 0 then []
    else DeltaEvents(cache, names[..|names| - 1], kind) + DeltaStep(cache, names[|names| - 1], kind)
  }

  function AddRequest(pending: SyncServices): SyncServices
  {
    SyncServices(pending.additions, [])
  }

  function RemoveRequest(pending: SyncServices): SyncServices
  {
    SyncServices([], pending.removals)
  }

  /** Step 1: create the added services, acknowledging them on success. */
  function AddStep(pending: SyncServices, outcomes: RemoteOutcomes): seq<Event>
  {
    if |pending.additions| == 0 then []
    else [ServicesCall(AddRequest(pending))]
         + (if outcomes.addServices.None? then [LoadBalancersCommit(AddRequest(pending))] else [])
  }

  predicate AddStepPassed(pending: SyncServices, outcomes: RemoteOutcomes)
  {
    |pending.additions| == 0 || outcomes.addServices.None?
  }

  /** Step 4: push the location data, acknowledging it on success. */
  function LocationStep(locations: LocationData, outcomes: RemoteOutcomes): seq<Event>
  {
    if |locations.locations| == 0 then []
    else [LocationsCall(locations)]
         + (if outcomes.updateLocations.None? then [LocationsCommit(locations)] else [])
  }

  predicate LocationStepPassed(locations: LocationData, outcomes: RemoteOutcomes)
  {
    |locations.locations| == 0 || outcomes.updateLocations.None?
  }

  /** Step 5: delete the removed services, acknowledging them on success. */
  function RemoveStep(pending: SyncServices, outcomes: RemoteOutcomes): seq<Event>
  {
    if |pending.removals| == 0 then []
    else [ServicesCall(RemoveRequest(pending))]
         + (if outcomes.removeServices.None? then [LoadBalancersCommit(RemoveRequest(pending))] else [])
  }

  /** The whole cycle: the five steps in order, cut short by a failed remote step. */
  function CycleTrace(pending: SyncServices, locations: LocationData, cache: seq<EndpointRecord>,
                      outcomes: RemoteOutcomes): seq<Event>
  {
    var add := AddStep(pending, outcomes);
    var added := DeltaEvents(cache, pending.additions, Added);
    var removed := DeltaEvents(cache, pending.removals, Removed);
    var loc := LocationStep(locations, outcomes);
    if !AddStepPassed(pending, outcomes) then add
    else if !LocationStepPassed(locations, outcomes) then add + added + removed + loc
    else add + added + removed + loc + RemoveStep(pending, outcomes)
  }

  // The three associativity facts below are kept as lemmas so that the
  // methods using them stay within the solver's budget.
  lemma AppendAssoc<T>(a: seq<T>, b: seq<T>, c: seq<T>)
    ensures a + (b + c) == a + b + c
  {
  }

  lemma ConcatAssoc4<T>(prior: seq<T>, a: seq<T>, b: seq<T>, c: seq<T>, d: seq<T>)
    ensures prior + (a + b + c + d) == prior + a + b + c + d
  {
  }

  lemma ConcatAssoc5<T>(prior: seq<T>, a: seq<T>, b: seq<T>, c: seq<T>, d: seq<T>, e: seq<T>)
    ensures prior + (a + b + c + d + e) == prior + a + b + c + d + e
  {
  }

  // ---------------------------------------------------------------------------
  // Endpoint deltas

  /** One more name of the list: one more delta step and one more name in the set. */
  lemma PrefixStep(cache: seq<EndpointRecord>, names: seq<ServiceName>, i: nat, kind: DeltaKind)
    requires i < |names|
    ensures DeltaEvents(cache, names[..i + 1], kind) == DeltaEvents(cache, names[..i], kind) + DeltaStep(cache, names[i], kind)
    ensures NameSet(names[..i + 1]) == NameSet(names[..i]) + {names[i]}
  {
    assert names[..i + 1] == names[..i] + [names[i]];
    DeltaEventsAppend(cache, names[..i], names[i], kind);
    NameSetAppend(names[..i], names[i]);
  }

  // Kept apart, like the associativity facts, for the solver's budget.
  lemma DeltaEventsAppend(cache: seq<EndpointRecord>, names: seq<ServiceName>, n: ServiceName, kind: DeltaKind)
    ensures DeltaEvents(cache, names + [n], kind) == DeltaEvents(cache, names, kind) + DeltaStep(cache, n, kind)
  {
    assert (names + [n])[..|names|] == names;
  }

  /** Every endpoint commit for a list is the non-empty delta of one of its names. */
  lemma {:induction false} DeltaEventsSound(cache: seq<EndpointRecord>, names: seq<ServiceName>,
                                            kind: DeltaKind, e: Event)
    requires e in DeltaEvents(cache, names, kind)
    ensures e.EndpointsCommit?
    ensures e.delta.inboundIdentity in names
    ensures |EndpointAddresses(cache, e.delta.inboundIdentity)| > 0
    ensures e.delta == DeltaOf(e.delta.inboundIdentity, EndpointAddresses(cache, e.delta.inboundIdentity), kind)
  {
    var front := names[..|names| - 1];
    var last := names[|names| - 1];
    assert names == front + [last];
    if e !in DeltaStep(cache, last, kind) {
      DeltaEventsSound(cache, front, kind, e);
    }
  }

  /** Every name of the list whose merged map is non-empty has its delta committed. */
  lemma {:induction false} DeltaEventsComplete(cache: seq<EndpointRecord>, names: seq<ServiceName>,
                                               kind: DeltaKind, n: ServiceName)
    requires n in names && |EndpointAddresses(cache, n)| > 0
    ensures EndpointsCommit(DeltaOf(n, EndpointAddresses(cache, n), kind)) in DeltaEvents(cache, names, kind)
  {
    var front := names[..|names| - 1];
    var last := names[|names| - 1];
    assert names == front + [last];
    if n != last {
      DeltaEventsComplete(cache, front, kind, n);
    }
  }

  // ---------------------------------------------------------------------------
  // Properties of one cycle

  /** An endpoint commit is in a cycle's trace exactly when the add step passed and one of the delta loops made it. */
  lemma EndpointInCycle(pending: SyncServices, locations: LocationData, cache: seq<EndpointRecord>,
                        outcomes: RemoteOutcomes, d: EndpointDelta)
    ensures EndpointsCommit(d) in CycleTrace(pending, locations, cache, outcomes) <==>
              && AddStepPassed(pending, outcomes)
              && (|| EndpointsCommit(d) in DeltaEvents(cache, pending.additions, Added)
                  || EndpointsCommit(d) in DeltaEvents(cache, pending.removals, Removed))
  {
    var e := EndpointsCommit(d);
    var add := AddStep(pending, outcomes);
    assert e !in add;
    if AddStepPassed(pending, outcomes) {
      var added := DeltaEvents(cache, pending.additions, Added);
      var removed := DeltaEvents(cache, pending.removals, Removed);
      var loc := LocationStep(locations, outcomes);
      var rem := RemoveStep(pending, outcomes);
      assert e !in loc && e !in rem;
      assert e in add + added + removed + loc <==> e in added || e in removed;
    }
  }

  /** Membership in a cycle's trace, step by step, for events that are not endpoint commits. */
  lemma NonEndpointInCycle(pending: SyncServices, locations: LocationData, cache: seq<EndpointRecord>,
                           outcomes: RemoteOutcomes, e: Event)
    requires !e.EndpointsCommit?
    ensures e in CycleTrace(pending, locations, cache, outcomes) <==>
              || e in AddStep(pending, outcomes)
              || (&& AddStepPassed(pending, outcomes)
                  && (|| e in LocationStep(locations, outcomes)
                      || (LocationStepPassed(locations, outcomes) && e in RemoveStep(pending, outcomes))))
  {
    DeltaEventsOnlyEndpoints(cache, pending.additions, Added);
    DeltaEventsOnlyEndpoints(cache, pending.removals, Removed);
  }

  /** A failed add-services call ends the cycle: nothing is committed and no later step runs. */
  lemma AbortOnAddFailure(pending: SyncServices, locations: LocationData, cache: seq<EndpointRecord>,
                          outcomes: RemoteOutcomes)
    requires |pending.additions| > 0 && outcomes.addServices.Some?
    ensures CycleTrace(pending, locations, cache, outcomes) == [ServicesCall(AddRequest(pending))]
  {
  }

  /** Each remote call is made exactly when its set is non-empty and every earlier remote step succeeded. */
  lemma {:induction false} RemoteCallsIssued(pending: SyncServices, locations: LocationData,
                                             cache: seq<EndpointRecord>, outcomes: RemoteOutcomes)
    ensures var t := CycleTrace(pending, locations, cache, outcomes);
            ServicesCall(AddRequest(pending)) in t <==> |pending.additions| > 0
    ensures var t := CycleTrace(pending, locations, cache, outcomes);
            LocationsCall(locations) in t <==>
              AddStepPassed(pending, outcomes) && |locations.locations| > 0
    ensures var t := CycleTrace(pending, locations, cache, outcomes);
            ServicesCall(RemoveRequest(pending)) in t <==>
              AddStepPassed(pending, outcomes) && LocationStepPassed(locations, outcomes)
              && |pending.removals| > 0
  {
    NonEndpointInCycle(pending, locations, cache, outcomes, ServicesCall(AddRequest(pending)));
    NonEndpointInCycle(pending, locations, cache, outcomes, LocationsCall(locations));
    NonEndpointInCycle(pending, locations, cache, outcomes, ServicesCall(RemoveRequest(pending)));
  }

  /** Each acknowledgement is written exactly when its remote call was made and returned nil. */
  lemma {:induction false} CommitOnlyOnSuccess(pending: SyncServices, locations: LocationData,
                                               cache: seq<EndpointRecord>, outcomes: RemoteOutcomes)
    ensures var t := CycleTrace(pending, locations, cache, outcomes);
            LoadBalancersCommit(AddRequest(pending)) in t <==>
              |pending.additions| > 0 && outcomes.addServices.None?
    ensures var t := CycleTrace(pending, locations, cache, outcomes);
            LocationsCommit(locations) in t <==>
              AddStepPassed(pending, outcomes) && |locations.locations| > 0 && outcomes.updateLocations.None?
    ensures var t := CycleTrace(pending, locations, cache, outcomes);
            LoadBalancersCommit(RemoveRequest(pending)) in t <==>
              AddStepPassed(pending, outcomes) && LocationStepPassed(locations, outcomes)
              && |pending.removals| > 0 && outcomes.removeServices.None?
  {
    NonEndpointInCycle(pending, locations, cache, outcomes, LoadBalancersCommit(AddRequest(pending)));
    NonEndpointInCycle(pending, locations, cache, outcomes, LocationsCommit(locations));
    NonEndpointInCycle(pending, locations, cache, outcomes, LoadBalancersCommit(RemoveRequest(pending)));
  }

  /** Endpoint deltas hold only endpoint commits. */
  lemma DeltaEventsOnlyEndpoints(cache: seq<EndpointRecord>, names: seq<ServiceName>, kind: DeltaKind)
    ensures forall e | e in DeltaEvents(cache, names, kind) :: e.EndpointsCommit?
  {
    forall e | e in DeltaEvents(cache, names, kind) ensures e.EndpointsCommit? {
      DeltaEventsSound(cache, names, kind, e);
    }
  }

  /**
   * Every endpoint commit of a cycle happens after the add step passed, carries
   * exactly one of old and new addresses, which is the non-empty merged map of
   * a service being added (new) or removed (old).
   */
  lemma {:induction false} EndpointCommitShape(pending: SyncServices, locations: LocationData,
                                               cache: seq<EndpointRecord>, outcomes: RemoteOutcomes,
                                               d: EndpointDelta)
    requires EndpointsCommit(d) in CycleTrace(pending, locations, cache, outcomes)
    ensures AddStepPassed(pending, outcomes)
    ensures |EndpointAddresses(cache, d.inboundIdentity)| > 0
    ensures || (d.inboundIdentity in pending.additions && d.oldAddresses == None
                && d.newAddresses == Some(EndpointAddresses(cache, d.inboundIdentity)))
            || (d.inboundIdentity in pending.removals && d.newAddresses == None
                && d.oldAddresses == Some(EndpointAddresses(cache, d.inboundIdentity)))
  {
    var e := EndpointsCommit(d);
    EndpointInCycle(pending, locations, cache, outcomes, d);
    if e in DeltaEvents(cache, pending.additions, Added) {
      DeltaEventsSound(cache, pending.additions, Added, e);
    } else {
      DeltaEventsSound(cache, pending.removals, Removed, e);
    }
  }

  /**
   * Once the add step has passed, an added service whose merged map is
   * non-empty gets its new-addresses delta committed, and one whose map is
   * empty gets none.
   */
  lemma AddedEndpointsCommitted(pending: SyncServices, locations: LocationData,
                                cache: seq<EndpointRecord>, outcomes: RemoteOutcomes, n: ServiceName)
    requires AddStepPassed(pending, outcomes) && n in pending.additions
    ensures EndpointsCommit(DeltaOf(n, EndpointAddresses(cache, n), Added))
              in CycleTrace(pending, locations, cache, outcomes)
            <==> |EndpointAddresses(cache, n)| > 0
  {
    var d := DeltaOf(n, EndpointAddresses(cache, n), Added);
    EndpointInCycle(pending, locations, cache, outcomes, d);
    if |EndpointAddresses(cache, n)| > 0 {
      DeltaEventsComplete(cache, pending.additions, Added, n);
    } else {
      if EndpointsCommit(d) in DeltaEvents(cache, pending.additions, Added) {
        DeltaEventsSound(cache, pending.additions, Added, EndpointsCommit(d));
      }
      if EndpointsCommit(d) in DeltaEvents(cache, pending.removals, Removed) {
        DeltaEventsSound(cache, pending.removals, Removed, EndpointsCommit(d));
      }
    }
  }

  /** The same for a removed service and its old-addresses delta. */
  lemma RemovedEndpointsCommitted(pending: SyncServices, locations: LocationData,
                                  cache: seq<EndpointRecord>, outcomes: RemoteOutcomes, n: ServiceName)
    requires AddStepPassed(pending, outcomes) && n in pending.removals
    ensures EndpointsCommit(DeltaOf(n, EndpointAddresses(cache, n), Removed))
              in CycleTrace(pending, locations, cache, outcomes)
            <==> |EndpointAddresses(cache, n)| > 0
  {
    var d := DeltaOf(n, EndpointAddresses(cache, n), Removed);
    EndpointInCycle(pending, locations, cache, outcomes, d);
    if |EndpointAddresses(cache, n)| > 0 {
      DeltaEventsComplete(cache, pending.removals, Removed, n);
    } else {
      if EndpointsCommit(d) in DeltaEvents(cache, pending.additions, Added) {
        DeltaEventsSound(cache, pending.additions, Added, EndpointsCommit(d));
      }
      if EndpointsCommit(d) in DeltaEvents(cache, pending.removals, Removed) {
        DeltaEventsSound(cache, pending.removals, Removed, EndpointsCommit(d));
      }
    }
  }

  // ---------------------------------------------------------------------------
  // Ordering

  /**
   * The position of an event in the protocol: each remote call comes before
   * its acknowledgement, and the steps follow one another.
   */
  function Stage(e: Event): nat
  {
    match e
    case ServicesCall(s) => if |s.removals| == 0 then 0 else 6
    case LoadBalancersCommit(s) => if |s.removals| == 0 then 1 else 7
    case EndpointsCommit(d) => if d.newAddresses.Some? then 2 else 3
    case LocationsCall(_) => 4
    case LocationsCommit(_) => 5
  }

  predicate StageOrdered(t: seq<Event>)
  {
    forall i, j :: 0 <= i < j < |t| ==> Stage(t[i]) <= Stage(t[j])
  }

  predicate StagesIn(t: seq<Event>, lo: nat, hi: nat)
  {
    forall i :: 0 <= i < |t| ==> lo <= Stage(t[i]) <= hi
  }

  /** Which of five consecutive pieces, of the given lengths, position i falls in. */
  function SegmentOf(i: int, la: int, lb: int, lc: int, ld: int): nat
  {
    if i < la then 0
    else if i < la + lb then 1
    else if i < la + lb + lc then 2
    else if i < la + lb + lc + ld then 3
    else 4
  }

  /** The stages allowed in each piece of a cycle: add, added deltas, removed deltas, locations, remove. */
  function SegmentLow(seg: nat): nat
  {
    if seg == 0 then 0 else if seg == 1 then 2 else if seg == 2 then 3 else if seg == 3 then 4 else 6
  }

  function SegmentHigh(seg: nat): nat
  {
    if seg == 0 then 1 else if seg == 1 then 2 else if seg == 2 then 3 else if seg == 3 then 5 else 7
  }

  predicate PiecesStaged(a: seq<Event>, b: seq<Event>, c: seq<Event>, d: seq<Event>, e: seq<Event>)
  {
    && StageOrdered(a) && StagesIn(a, 0, 1)
    && StagesIn(b, 2, 2)
    && StagesIn(c, 3, 3)
    && StageOrdered(d) && StagesIn(d, 4, 5)
    && StageOrdered(e) && StagesIn(e, 6, 7)
  }

  lemma SegmentBounds(a: seq<Event>, b: seq<Event>, c: seq<Event>, d: seq<Event>, e: seq<Event>, i: nat)
    requires PiecesStaged(a, b, c, d, e)
    requires i < |a + b + c + d + e|
    ensures var seg := SegmentOf(i, |a|, |b|, |c|, |d|);
            SegmentLow(seg) <= Stage((a + b + c + d + e)[i]) <= SegmentHigh(seg)
  {
    var t := a + b + c + d + e;
    if i < |a| {
      assert t[i] == a[i];
    } else if i < |a| + |b| {
      assert t[i] == b[i - |a|];
    } else if i < |a| + |b| + |c| {
      assert t[i] == c[i - |a| - |b|];
    } else if i < |a| + |b| + |c| + |d| {
      assert t[i] == d[i - |a| - |b| - |c|];
    } else {
      assert t[i] == e[i - |a| - |b| - |c| - |d|];
    }
  }

  lemma OrderedConcat(a: seq<Event>, b: seq<Event>, c: seq<Event>, d: seq<Event>, e: seq<Event>)
    requires PiecesStaged(a, b, c, d, e)
    ensures StageOrdered(a + b + c + d + e)
  {
    var t := a + b + c + d + e;
    forall i, j | 0 <= i < j < |t| ensures Stage(t[i]) <= Stage(t[j]) {
      SegmentBounds(a, b, c, d, e, i);
      SegmentBounds(a, b, c, d, e, j);
      var si := SegmentOf(i, |a|, |b|, |c|, |d|);
      if si == SegmentOf(j, |a|, |b|, |c|, |d|) {
        if si == 0 {
          assert t[i] == a[i] && t[j] == a[j];
        } else if si == 3 {
          var o := |a| + |b| + |c|;
          assert t[i] == d[i - o] && t[j] == d[j - o];
        } else if si == 4 {
          var o := |a| + |b| + |c| + |d|;
          assert t[i] == e[i - o] && t[j] == e[j - o];
        }
      }
    }
  }

  /**
   * Every commit of the additions loop carries new addresses and no old ones,
   * every commit of the removals loop old addresses and no new ones.
   */
  lemma {:induction false} DeltaEventsStage(cache: seq<EndpointRecord>, names: seq<ServiceName>, kind: DeltaKind)
    ensures var t := DeltaEvents(cache, names, kind);
            forall i :: 0 <= i < |t| ==>
              && t[i].EndpointsCommit?
              && (if kind == Added then t[i].delta.oldAddresses.None? && t[i].delta.newAddresses.Some?
                  else t[i].delta.newAddresses.None? && t[i].delta.oldAddresses.Some?)
    ensures var k := if kind == Added then 2 else 3;
            StagesIn(DeltaEvents(cache, names, kind), k, k)
  {
    var t := DeltaEvents(cache, names, kind);
    forall i | 0 <= i < |t|
      ensures && t[i].EndpointsCommit?
              && (if kind == Added then t[i].delta.oldAddresses.None? && t[i].delta.newAddresses.Some?
                  else t[i].delta.newAddresses.None? && t[i].delta.oldAddresses.Some?)
    {
      DeltaEventsSound(cache, names, kind, t[i]);
    }
  }

  // Kept apart so that the proofs using these facts stay within the solver's budget.
  lemma StepStages(pending: SyncServices, locations: LocationData, outcomes: RemoteOutcomes)
    ensures StageOrdered(AddStep(pending, outcomes)) && StagesIn(AddStep(pending, outcomes), 0, 1)
    ensures StageOrdered(LocationStep(locations, outcomes)) && StagesIn(LocationStep(locations, outcomes), 4, 5)
    ensures StageOrdered(RemoveStep(pending, outcomes)) && StagesIn(RemoveStep(pending, outcomes), 6, 7)
  {
  }

  /**
   * A cycle's trace runs through the protocol in order: add call, add
   * acknowledgement, added-service deltas, removed-service deltas, locations
   * call, locations acknowledgement, remove call, remove acknowledgement.
   */
  lemma {:induction false} CycleIsOrdered(pending: SyncServices, locations: LocationData,
                                          cache: seq<EndpointRecord>, outcomes: RemoteOutcomes)
    ensures StageOrdered(CycleTrace(pending, locations, cache, outcomes))
  {
    var add := AddStep(pending, outcomes);
    var added := DeltaEvents(cache, pending.additions, Added);
    var removed := DeltaEvents(cache, pending.removals, Removed);
    var loc := LocationStep(locations, outcomes);
    StepStages(pending, locations, outcomes);
    DeltaEventsStage(cache, pending.additions, Added);
    DeltaEventsStage(cache, pending.removals, Removed);
    if !AddStepPassed(pending, outcomes) {
      OrderedConcat(add, [], [], [], []);
      assert add + [] + [] + [] + [] == add;
    } else if !LocationStepPassed(locations, outcomes) {
      OrderedConcat(add, added, removed, loc, []);
      assert add + added + removed + loc + [] == add + added + removed + loc;
    } else {
      OrderedConcat(add, added, removed, loc, RemoveStep(pending, outcomes));
    }
  }

  /** Wherever an acknowledgement appears in a cycle's trace, its remote call appears earlier. */
  lemma CallBeforeAcknowledgement(pending: SyncServices, locations: LocationData,
                                  cache: seq<EndpointRecord>, outcomes: RemoteOutcomes, call: nat, ack: nat)
    requires var t := CycleTrace(pending, locations, cache, outcomes); call < |t| && ack < |t|
    ensures var t := CycleTrace(pending, locations, cache, outcomes);
            t[call] == ServicesCall(AddRequest(pending)) && t[ack] == LoadBalancersCommit(AddRequest(pending))
            ==> call < ack
    ensures var t := CycleTrace(pending, locations, cache, outcomes);
            t[call] == LocationsCall(locations) && t[ack] == LocationsCommit(locations)
            ==> call < ack
    ensures var t := CycleTrace(pending, locations, cache, outcomes);
            t[call] == ServicesCall(RemoveRequest(pending)) && t[ack] == LoadBalancersCommit(RemoveRequest(pending))
            ==> call < ack
  {
    CycleIsOrdered(pending, locations, cache, outcomes);
  }

  // ---------------------------------------------------------------------------
  // The updater

  /** The services a list names. */
  function NameSet(names: seq<ServiceName>): set<ServiceName>
  {
    set n | n in names
  }

  // Kept apart, like the associativity facts, for the solver's budget.
  lemma NameSetAppend(names: seq<ServiceName>, n: ServiceName)
    ensures NameSet(names + [n]) == NameSet(names) + {n}
  {
  }

  /**
   * The updater and the parts of its cloud object that `process` changes:
   * `trace` records, in order, the remote calls made and the acknowledgements
   * written to the diff tracker; `localServiceNames` is the key set of
   * `localServiceNameToNRPServiceMap`.
   */
  class Updater {
    var trace: seq<Event>
    var localServiceNames: set<ServiceName>

    /** `newLocationAndNRPServiceBatchUpdater`. */
    constructor (localServices: set<ServiceName>)
      ensures trace == [] && localServiceNames == localServices
    {
      trace := [];
      localServiceNames := localServices;
    }

    /**
     * One cycle. `pending` is what `GetSyncLoadBalancerServices` returned,
     * `locations` what `GetSyncLocationsAddresses` returns after the endpoint
     * deltas, `cache` the endpoint slices `Range` visits, and `outcomes` what
     * each remote call returns.
     */
    method Process(pending: SyncServices, locations: LocationData, cache: seq<EndpointRecord>,
                   outcomes: RemoteOutcomes)
      modifies this
      ensures trace == old(trace) + CycleTrace(pending, locations, cache, outcomes)
      ensures localServiceNames ==
                if AddStepPassed(pending, outcomes) then old(localServiceNames) + NameSet(pending.additions)
                else old(localServiceNames)
    {
      var passed := AddServices(pending, outcomes);
      if !passed {
        return;
      }
      PropagateEndpoints(cache, pending.additions, Added);
      PropagateEndpoints(cache, pending.removals, Removed);
      passed := UpdateLocations(locations, outcomes);
      if !passed {
        ConcatAssoc4(old(trace), AddStep(pending, outcomes), DeltaEvents(cache, pending.additions, Added),
                     DeltaEvents(cache, pending.removals, Removed), LocationStep(locations, outcomes));
        return;
      }
      RemoveServices(pending, outcomes);
      ConcatAssoc5(old(trace), AddStep(pending, outcomes), DeltaEvents(cache, pending.additions, Added),
                   DeltaEvents(cache, pending.removals, Removed), LocationStep(locations, outcomes),
                   RemoveStep(pending, outcomes));
    }

    /** Add services: call NRP with the additions and, on a nil error, acknowledge them. */
    method AddServices(pending: SyncServices, outcomes: RemoteOutcomes) returns (passed: bool)
      modifies this
      ensures trace == old(trace) + AddStep(pending, outcomes)
      ensures passed == AddStepPassed(pending, outcomes)
      ensures localServiceNames == old(localServiceNames)
    {
      passed := true;
      if |pending.additions| > 0 {
        var request := SyncServices(pending.additions, []);
        trace := trace + [ServicesCall(request)];
        if outcomes.addServices.None? {
          trace := trace + [LoadBalancersCommit(request)];
        } else {
          passed := false;
        }
      }
    }

    /** Update locations: call NRP with the location data and, on a nil error, acknowledge it. */
    method UpdateLocations(locations: LocationData, outcomes: RemoteOutcomes) returns (passed: bool)
      modifies this
      ensures trace == old(trace) + LocationStep(locations, outcomes)
      ensures passed == LocationStepPassed(locations, outcomes)
      ensures localServiceNames == old(localServiceNames)
    {
      passed := true;
      if |locations.locations| > 0 {
        trace := trace + [LocationsCall(locations)];
        if outcomes.updateLocations.None? {
          trace := trace + [LocationsCommit(locations)];
        } else {
          passed := false;
        }
      }
    }

    /** Remove services: call NRP with the removals and, on a nil error, acknowledge them. */
    method RemoveServices(pending: SyncServices, outcomes: RemoteOutcomes)
      modifies this
      ensures trace == old(trace) + RemoveStep(pending, outcomes)
      ensures localServiceNames == old(localServiceNames)
    {
      if |pending.removals| > 0 {
        var request := SyncServices([], pending.removals);
        trace := trace + [ServicesCall(request)];
        if outcomes.removeServices.None? {
          trace := trace + [LoadBalancersCommit(request)];
        }
      }
    }

    /**
     * The loops over `Additions.UnsortedList()` and `Removals.UnsortedList()`:
     * every added service is recorded in the local service map, and each
     * service's endpoint delta is committed unless its merged map is empty.
     */
    method PropagateEndpoints(cache: seq<EndpointRecord>, names: seq<ServiceName>, kind: DeltaKind)
      modifies this
      ensures trace == old(trace) + DeltaEvents(cache, names, kind)
      ensures localServiceNames ==
                if kind == Added then old(localServiceNames) + NameSet(names) else old(localServiceNames)
    {
      for i := 0 to |names|
        invariant trace == old(trace) + DeltaEvents(cache, names[..i], kind)
        invariant localServiceNames ==
                    if kind == Added then old(localServiceNames) + NameSet(names[..i]) else old(localServiceNames)
      {
        var name := names[i];
        PrefixStep(cache, names, i, kind);
        if kind == Added {
          localServiceNames := localServiceNames + {name};
        }
        CommitDelta(cache, name, kind);
        AppendAssoc(old(trace), DeltaEvents(cache, names[..i], kind), DeltaStep(cache, name, kind));
      }
      assert names[..|names|] == names;
    }

    /** The body of one loop iteration: correlate, then commit the delta if its map is non-empty. */
    method CommitDelta(cache: seq<EndpointRecord>, name: ServiceName, kind: DeltaKind)
      modifies this
      ensures trace == old(trace) + DeltaStep(cache, name, kind)
      ensures localServiceNames == old(localServiceNames)
    {
      var addresses := CollectAddresses(cache, name);
      if |addresses| > 0 {
        var delta := match kind
          case Added => EndpointDelta(name, None, Some(addresses))
          case Removed => EndpointDelta(name, Some(addresses), None);
        trace := trace + [EndpointsCommit(delta)];
      }
    }

    /** `addOperation`: a no-op that hands its operation back. */
    method AddOperation<T>(operation: T) returns (r: T)
      ensures r == operation
    {
      r := operation;
    }

    /** `removeOperation`: a no-op; removals go through the diff tracker. */
    method RemoveOperation(name: ServiceName)
      ensures unchanged(this)
    {
    }
  }
}
