/**
 * The endpoint correlator inside `process`: for one service name, a pass
 * over the endpoint-slice cache that merges the pod-IP to node-IP maps of
 * every slice owned by that service.
 */
module Correlator {
  import opened Wrappers
  import opened Merge

  /** Pod IP to node IP. */
  type AddressMap = map<string, string>

  /**
   * One cached endpoint slice, seen through the two helpers `process` applies
   * to it: the owning service UID, when one is found, and the slice's
   * pod-IP to node-IP map.
   */
  datatype EndpointRecord = EndpointRecord(serviceUid: Option<string>, podToNode: AddressMap)

  /** ASCII lower-casing of one character. */
  function LowerAscii(c: char): char
  {
    if 'A' <= c <= 'Z' then (c as int + ('a' as int - 'A' as int)) as char else c
  }

  /** Case-insensitive string equality, restricted to ASCII letters. */
  predicate EqualFold(a: string, b: string)
  {
    |a| == |b| && forall i :: 0 <= i < |a| ==> LowerAscii(a[i]) == LowerAscii(b[i])
  }

  /** The slice's UID was found and equals `name` up to letter case. */
  predicate Matches(r: EndpointRecord, name: string)
  {
    r.serviceUid.Some? && EqualFold(r.serviceUid.value, name)
  }

  /** The maps of the matching records, in cache order. */
  function MatchingMaps(cache: seq<EndpointRecord>, name: string): seq<AddressMap>
    decreases |cache|
  {
    if |cache| == 0 then []
    else
      MatchingMaps(cache[..|cache| - 1], name)
      + (if Matches(cache[|cache| - 1], name) then [cache[|cache| - 1].podToNode] else [])
  }

  /** The address map the correlator produces: the merge of the matching maps. */
  function EndpointAddresses(cache: seq<EndpointRecord>, name: string): AddressMap
  {
    MergeAll(MatchingMaps(cache, name))
  }

  /** A record that does not match leaves the accumulated map unchanged; a matching one is merged over it. */
  lemma {:induction false} RecordStep(cache: seq<EndpointRecord>, r: EndpointRecord, name: string)
    ensures EndpointAddresses(cache + [r], name)
            == if Matches(r, name) then EndpointAddresses(cache, name) + r.podToNode
               else EndpointAddresses(cache, name)
  {
    assert (cache + [r])[..|cache|] == cache;
    var front := MatchingMaps(cache, name);
    if Matches(r, name) {
      assert MatchingMaps(cache + [r], name) == front + [r.podToNode];
      assert (front + [r.podToNode])[..|front|] == front;
    } else {
      assert MatchingMaps(cache + [r], name) == front;
    }
  }

  /** A pod IP is in the result exactly when some matching record carries it. */
  lemma {:induction false} AddressesDomain(cache: seq<EndpointRecord>, name: string, pod: string)
    ensures pod in EndpointAddresses(cache, name)
            <==> exists j :: 0 <= j < |cache| && Matches(cache[j], name) && pod in cache[j].podToNode
  {
    if |cache| > 0 {
      var n := |cache|;
      var front := cache[..n - 1];
      AddressesDomain(front, name, pod);
      assert front + [cache[n - 1]] == cache;
      RecordStep(front, cache[n - 1], name);
      assert forall j :: 0 <= j < n - 1 ==> front[j] == cache[j];
    }
  }

  /** A pod IP maps to the node IP of the last matching record that carries it. */
  lemma {:induction false} AddressesLastWriteWins(cache: seq<EndpointRecord>, name: string, j: nat, pod: string)
    requires j < |cache| && Matches(cache[j], name) && pod in cache[j].podToNode
    requires forall l :: j < l < |cache| && Matches(cache[l], name) ==> pod !in cache[l].podToNode
    ensures pod in EndpointAddresses(cache, name)
    ensures EndpointAddresses(cache, name)[pod] == cache[j].podToNode[pod]
  {
    var n := |cache|;
    var front := cache[..n - 1];
    assert front + [cache[n - 1]] == cache;
    RecordStep(front, cache[n - 1], name);
    if j < n - 1 {
      assert forall l :: j < l < |front| ==> front[l] == cache[l];
      AddressesLastWriteWins(front, name, j, pod);
    }
  }

  /** EqualFold is symmetric and transitive. */
  lemma EqualFoldEquivalence(a: string, b: string, c: string)
    ensures EqualFold(a, b) ==> EqualFold(b, a)
    ensures EqualFold(a, b) && EqualFold(b, c) ==> EqualFold(a, c)
  {
  }

  /** Names that differ only in letter case correlate with the same records. */
  lemma {:induction false} CaseInsensitiveCorrelation(cache: seq<EndpointRecord>, n1: string, n2: string)
    requires EqualFold(n1, n2)
    ensures EndpointAddresses(cache, n1) == EndpointAddresses(cache, n2)
  {
    if |cache| > 0 {
      var n := |cache|;
      var front := cache[..n - 1];
      var r := cache[n - 1];
      CaseInsensitiveCorrelation(front, n1, n2);
      assert front + [r] == cache;
      RecordStep(front, r, n1);
      RecordStep(front, r, n2);
      if r.serviceUid.Some? {
        EqualFoldEquivalence(r.serviceUid.value, n1, n2);
        EqualFoldEquivalence(r.serviceUid.value, n2, n1);
        EqualFoldEquivalence(n1, n2, n2);
      }
    }
  }

  /** A cache holding one matching slice yields exactly that slice's map. */
  lemma SingleMatchingRecord(r: EndpointRecord, name: string)
    requires Matches(r, name)
    ensures EndpointAddresses([r], name) == r.podToNode
  {
    RecordStep([], r, name);
    assert [] + [r] == [r];
    assert EndpointAddresses([], name) == map[];
  }

  /** A slice whose UID differs from the service name only in letter case is merged. */
  lemma MixedCaseUidIsMerged()
    ensures EndpointAddresses([EndpointRecord(Some("Svc"), map["10.0.0.1" := "node-1"])], "sVC")
            == map["10.0.0.1" := "node-1"]
  {
    var r := EndpointRecord(Some("Svc"), map["10.0.0.1" := "node-1"]);
    assert LowerAscii('S') == 's' && LowerAscii('s') == 's';
    assert LowerAscii('V') == 'v' && LowerAscii('v') == 'v';
    assert LowerAscii('C') == 'c' && LowerAscii('c') == 'c';
    assert Matches(r, "sVC");
    SingleMatchingRecord(r, "sVC");
  }

  /**
   * The `Range` callback of `process`: for every cached slice whose UID was
   * found and equals `name` case-insensitively, the accumulator becomes
   * `mergeMaps(accumulator, slice map)`.
   */
  method CollectAddresses(cache: seq<EndpointRecord>, name: string) returns (addresses: AddressMap)
    ensures addresses == EndpointAddresses(cache, name)
  {
    addresses := map[];
    for i := 0 to |cache|
      invariant addresses == EndpointAddresses(cache[..i], name)
    {
      var r := cache[i];
      assert cache[..i + 1] == cache[..i] + [r];
      RecordStep(cache[..i], r, name);
      if r.serviceUid.Some? && EqualFold(r.serviceUid.value, name) {
        addresses := MergeMaps([addresses, r.podToNode]);
        MergePair(EndpointAddresses(cache[..i], name), r.podToNode);
      }
    }
    assert cache[..|cache|] == cache;
  }
}
