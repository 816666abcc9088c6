/**
 * A `HashMap<String, String>` filled by `put` calls in turn, as the
 * validation handlers fill their field-error maps: a later entry for the
 * same key replaces the earlier one.
 */
module HashMaps {

  /** The map that putting each entry in turn leaves. */
  function Puts(entries: seq<(string, string)>): map<string, string>
    decreases |entries|
  {
    if |entries| == 0 then map[]
    else Puts(entries[..|entries| - 1])[entries[|entries| - 1].0 := entries[|entries| - 1].1]
  }

  /** Whether entry `i` is the last one for its key. */
  predicate LastFor(entries: seq<(string, string)>, i: int)
    requires 0 <= i < |entries|
  {
    forall j :: i < j < |entries| ==> entries[j].0 != entries[i].0
  }

  /** The keys are exactly the keys put, and each maps to the value of the
      last entry put for it. */
  lemma {:induction false} PutsLastWriteWins(entries: seq<(string, string)>)
    ensures forall k :: k in Puts(entries) <==> exists i :: 0 <= i < |entries| && entries[i].0 == k
    ensures forall i :: 0 <= i < |entries| && LastFor(entries, i) ==> Puts(entries)[entries[i].0] == entries[i].1
    decreases |entries|
  {
    if |entries| > 0 {
      var n := |entries| - 1;
      var init := entries[..n];
      PutsLastWriteWins(init);
      forall k | k in Puts(entries)
        ensures exists i :: 0 <= i < |entries| && entries[i].0 == k
      {
        if k != entries[n].0 {
          var i :| 0 <= i < |init| && init[i].0 == k;
          assert entries[i].0 == k;
        }
      }
      forall k | exists i :: 0 <= i < |entries| && entries[i].0 == k
        ensures k in Puts(entries)
      {
        var i :| 0 <= i < |entries| && entries[i].0 == k;
        if i < n {
          assert init[i].0 == k;
        }
      }
      forall i | 0 <= i < |entries| && LastFor(entries, i)
        ensures Puts(entries)[entries[i].0] == entries[i].1
      {
        if i < n {
          assert entries[n].0 != entries[i].0;
          assert LastFor(init, i) by {
            forall j | i < j < |init| ensures init[j].0 != init[i].0 {
              assert init[j] == entries[j];
            }
          }
        }
      }
    }
  }

  /** `put` each entry in turn into a new `HashMap`. */
  method PutAll(entries: seq<(string, string)>) returns (m: map<string, string>)
    ensures m == Puts(entries)
  {
    m := map[];
    var i := 0;
    while i < |entries|
      invariant 0 <= i <= |entries|
      invariant m == Puts(entries[..i])
    {
      assert entries[..i + 1][..i] == entries[..i];
      m := m[entries[i].0 := entries[i].1];
      i := i + 1;
    }
    assert entries[..i] == entries;
  }
}
