/** Building a dictionary from an ordered list of key/value pairs by
    successive assignment (`m[k] = v` for each pair in order), so that a later
    pair overwrites an earlier one with the same key. */
module Assoc {

  function LastWins<K, V>(pairs: seq<(K, V)>): (m: map<K, V>)
    ensures m.Keys == set i | 0 <= i < |pairs| :: pairs[i].0
  {
    if |pairs| == 0 then map[]
    else
      var init := LastWins(pairs[..|pairs| - 1]);
      var last := pairs[|pairs| - 1];
      assert forall i :: 0 <= i < |pairs| - 1 ==> pairs[..|pairs| - 1][i] == pairs[i];
      init[last.0 := last.1]
  }

  /** The value stored for a key is the one of the LAST pair carrying it. */
  lemma {:induction false} LastWinsValue<K, V>(pairs: seq<(K, V)>, i: nat)
    requires i < |pairs|
    requires forall j :: i < j < |pairs| ==> pairs[j].0 != pairs[i].0
    ensures pairs[i].0 in LastWins(pairs) && LastWins(pairs)[pairs[i].0] == pairs[i].1
  {
    if i < |pairs| - 1 {
      var init := pairs[..|pairs| - 1];
      assert forall j :: i < j < |init| ==> init[j] == pairs[j];
      LastWinsValue(init, i);
    }
  }

  /** With pairwise distinct keys every pair is stored as given. */
  lemma DistinctKeysStored<K, V>(pairs: seq<(K, V)>)
    requires forall i, j :: 0 <= i < j < |pairs| ==> pairs[i].0 != pairs[j].0
    ensures forall i :: 0 <= i < |pairs| ==>
      pairs[i].0 in LastWins(pairs) && LastWins(pairs)[pairs[i].0] == pairs[i].1
  {
    forall i | 0 <= i < |pairs|
      ensures pairs[i].0 in LastWins(pairs) && LastWins(pairs)[pairs[i].0] == pairs[i].1
    {
      LastWinsValue(pairs, i);
    }
  }
}
