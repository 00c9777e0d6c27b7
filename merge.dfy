/**
 * `mergeMaps`: folds a list of maps into one fresh map, later maps
 * overwriting earlier ones on shared keys.
 */
module Merge {

  /** Left fold of map union: the reference meaning of merging `maps` in order. */
  function MergeAll<K, V>(maps: seq<map<K, V>>): map<K, V>
    decreases |maps|
  {
    if |maps| == 0 then map[] else MergeAll(maps[..|maps| - 1]) + maps[|maps| - 1]
  }

  /** The merged key set is the union of the arguments' key sets. */
  lemma {:induction false} MergeKeys<K, V>(maps: seq<map<K, V>>, k: K)
    ensures k in MergeAll(maps) <==> exists i :: 0 <= i < |maps| && k in maps[i]
  {
    if |maps| > 0 {
      var front := maps[..|maps| - 1];
      MergeKeys(front, k);
      assert forall i :: 0 <= i < |front| ==> front[i] == maps[i];
    }
  }

  /** With no arguments the merge is empty. */
  lemma MergeNothing<K, V>()
    ensures MergeAll<K, V>([]) == map[]
  {
  }

  /** A key takes its value from the last map that contains it (last write wins). */
  lemma {:induction false} MergeLastWriteWins<K, V>(maps: seq<map<K, V>>, i: nat, k: K)
    requires i < |maps| && k in maps[i]
    requires forall j :: i < j < |maps| ==> k !in maps[j]
    ensures k in MergeAll(maps) && MergeAll(maps)[k] == maps[i][k]
  {
    var n := |maps|;
    if i < n - 1 {
      var front := maps[..n - 1];
      assert forall j :: i < j < |front| ==> front[j] == maps[j];
      MergeLastWriteWins(front, i, k);
      assert k !in maps[n - 1];
    }
  }

  /** Merging two maps is their right-biased union. */
  lemma MergePair<K, V>(a: map<K, V>, b: map<K, V>)
    ensures MergeAll([a, b]) == a + b
  {
    assert [a, b][..1] == [a];
    assert [a][..0] == [];
    assert MergeAll<K, V>([]) == map[];
    assert MergeAll([a]) == a;
  }

  /**
   * The Go function, written as its two nested loops: the outer one over the
   * argument maps, the inner one over the entries of each map, assigning
   * `result[k] = v`. Go's ranging over a map visits the keys in no fixed
   * order; the inner loop picks any key not yet copied.
   */
  method MergeMaps<K, V>(maps: seq<map<K, V>>) returns (result: map<K, V>)
    ensures result == MergeAll(maps)
  {
    result := map[];
    for i := 0 to |maps|
      invariant result == MergeAll(maps[..i])
    {
      var m := maps[i];
      ghost var before := result;
      var pending := m.Keys;
      while pending != {}
        invariant pending <= m.Keys
        invariant result == before + (map k | k in m.Keys - pending :: m[k])
        decreases pending
      {
        var k :| k in pending;
        result := result[k := m[k]];
        pending := pending - {k};
      }
      assert (map k | k in m.Keys - pending :: m[k]) == m;
      assert maps[..i + 1][..i] == maps[..i];
    }
    assert maps[..|maps|] == maps;
  }
}
