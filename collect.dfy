/** Building a map from a sequence of key/value pairs, as Rust's `collect` into a map does. */
module Collect {

  /**
   * `m` holds exactly the keys of `pairs`, each mapped to the value of the
   * last pair with that key.
   */
  ghost predicate LastWins<K(!new), V>(pairs: seq<(K, V)>, m: map<K, V>)
  {
    && (forall k :: k in m <==> exists i :: 0 <= i < |pairs| && pairs[i].0 == k)
    && (forall k :: k in m ==>
          exists i :: 0 <= i < |pairs| && pairs[i] == (k, m[k]) &&
            forall j :: i < j < |pairs| ==> pairs[j].0 != k)
  }

  /** Inserting one more pair keeps `LastWins`. */
  lemma LastWinsStep<K(!new), V>(init: seq<(K, V)>, last: (K, V), m: map<K, V>)
    requires LastWins(init, m)
    ensures LastWins(init + [last], m[last.0 := last.1])
  {
    var pairs := init + [last];
    var m' := m[last.0 := last.1];
    forall k | k in m'
      ensures exists i :: 0 <= i < |pairs| && pairs[i] == (k, m'[k]) &&
                forall j :: i < j < |pairs| ==> pairs[j].0 != k
    {
      if k == last.0 {
        assert pairs[|init|] == (k, m'[k]);
      } else {
        var i :| 0 <= i < |init| && init[i] == (k, m[k]) && forall j :: i < j < |init| ==> init[j].0 != k;
        assert pairs[i] == init[i];
      }
    }
    forall k | (exists i :: 0 <= i < |pairs| && pairs[i].0 == k)
      ensures k in m'
    {
      var i :| 0 <= i < |pairs| && pairs[i].0 == k;
      if i < |init| {
        assert init[i] == pairs[i];
      }
    }
  }

  /** Inserts the pairs in order, so a later pair for a key replaces an earlier one. */
  function CollectLastWins<K(==,!new), V>(pairs: seq<(K, V)>): (m: map<K, V>)
    ensures LastWins(pairs, m)
  {
    if pairs == [] then map[]
    else
      var init := pairs[..|pairs| - 1];
      var last := pairs[|pairs| - 1];
      var m := CollectLastWins(init);
      LastWinsStep(init, last, m);
      assert init + [last] == pairs;
      m[last.0 := last.1]
  }
}
