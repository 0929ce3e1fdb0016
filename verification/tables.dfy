/** Ordered association lists: the model of the source's object literals, whose
    key order (`Object.keys`) is the order in which the keys were written. */
module Tables {
  import opened Options

  type Table<K, V> = seq<(K, V)>

  /** The keys of `t`, in table order. */
  function Keys<K, V>(t: Table<K, V>): (ks: seq<K>)
    ensures |ks| == |t|
    ensures forall i | 0 <= i < |t| :: ks[i] == t[i].0
  {
    seq(|t|, i requires 0 <= i < |t| => t[i].0)
  }

  /** `t[k]`: the value stored under the first occurrence of `k`, if any. */
  function Lookup<K(==), V>(t: Table<K, V>, k: K): (r: Option<V>)
    ensures r.None? <==> k !in Keys(t)
    ensures r.Some? ==> exists i | 0 <= i < |t| :: t[i].0 == k && t[i].1 == r.value && k !in Keys(t[..i])
  {
    if |t| == 0 then None
    else if t[0].0 == k then
      assert k !in Keys(t[..0]);
      Some(t[0].1)
    else
      var r := Lookup(t[1..], k);
      assert Keys(t) == [t[0].0] + Keys(t[1..]);
      assert forall i | 0 <= i < |t[1..]| :: Keys(t[..i + 1]) == [t[0].0] + Keys(t[1..][..i]);
      r
  }

  /** With distinct keys, every entry is what looking up its key returns. */
  lemma {:induction false} LookupEntry<K, V>(t: Table<K, V>, i: nat)
    requires i < |t|
    requires forall a, b | 0 <= a < b < |t| :: t[a].0 != t[b].0
    ensures Lookup(t, t[i].0) == Some(t[i].1)
  {
    var r := Lookup(t, t[i].0);
    var j :| 0 <= j < |t| && t[j].0 == t[i].0 && t[j].1 == r.value && t[i].0 !in Keys(t[..j]);
  }
}
