/**
 * Insertion-ordered string-keyed dictionaries, as Python `dict` and JavaScript plain objects
 * behave: assigning an existing key keeps its position and replaces its value, a new key goes last.
 */
module Dict {
  import opened Wrappers

  type Entries<V> = seq<(string, V)>

  function Keys<V>(ms: Entries<V>): (ks: seq<string>)
    ensures |ks| == |ms| && forall i :: 0 <= i < |ms| ==> ks[i] == ms[i].0
  {
    if ms == [] then [] else [ms[0].0] + Keys(ms[1..])
  }

  predicate DistinctKeys<V>(ms: Entries<V>) {
    forall i, j :: 0 <= i < j < |ms| ==> ms[i].0 != ms[j].0
  }

  predicate HasKey<V>(ms: Entries<V>, k: string) {
    exists i :: 0 <= i < |ms| && ms[i].0 == k
  }

  /** The value stored under `k` (its first entry), or None when absent. */
  function Lookup<V>(ms: Entries<V>, k: string): (r: Option<V>)
    ensures r.None? <==> !HasKey(ms, k)
    ensures r.Some? ==> exists i :: 0 <= i < |ms| && ms[i] == (k, r.value)
  {
    if ms == [] then None
    else if ms[0].0 == k then Some(ms[0].1)
    else
      var r := Lookup(ms[1..], k);
      assert forall i :: 0 < i < |ms| ==> ms[i] == ms[1..][i - 1];
      r
  }

  /** `d[k] = v` on an insertion-ordered dictionary. */
  function Put<V>(ms: Entries<V>, k: string, v: V): (r: Entries<V>)
    ensures HasKey(ms, k) ==> |r| == |ms|
    ensures !HasKey(ms, k) ==> r == ms + [(k, v)]
    ensures Keys(r) == if HasKey(ms, k) then Keys(ms) else Keys(ms) + [k]
  {
    if ms == [] then [(k, v)]
    else if ms[0].0 == k then [(k, v)] + ms[1..]
    else
      assert HasKey(ms, k) <==> HasKey(ms[1..], k) by {
        if HasKey(ms, k) {
          var i :| 0 <= i < |ms| && ms[i].0 == k;
          assert ms[1..][i - 1].0 == k;
        }
        if HasKey(ms[1..], k) {
          var i :| 0 <= i < |ms| - 1 && ms[1..][i].0 == k;
          assert ms[i + 1].0 == k;
        }
      }
      [ms[0]] + Put(ms[1..], k, v)
  }

  /** `Put` keeps the keys distinct. */
  lemma PutDistinct<V>(ms: Entries<V>, k: string, v: V)
    requires DistinctKeys(ms)
    ensures DistinctKeys(Put(ms, k, v))
  {
    var r := Put(ms, k, v);
    assert forall i :: 0 <= i < |r| ==> r[i].0 == Keys(r)[i];
    if !HasKey(ms, k) {
      assert forall i :: 0 <= i < |ms| ==> ms[i].0 != k;
    }
  }

  /** After `Put`, `k` maps to `v`. */
  lemma {:induction false} PutLookupSame<V>(ms: Entries<V>, k: string, v: V)
    ensures Lookup(Put(ms, k, v), k) == Some(v)
  {
    if ms != [] && ms[0].0 != k {
      PutLookupSame(ms[1..], k, v);
    }
  }

  /** `Put` leaves the value of every other key unchanged. */
  lemma {:induction false} PutLookupOther<V>(ms: Entries<V>, k: string, v: V, other: string)
    requires other != k
    ensures Lookup(Put(ms, k, v), other) == Lookup(ms, other)
  {
    if ms != [] && ms[0].0 != k && ms[0].0 != other {
      PutLookupOther(ms[1..], k, v, other);
    }
  }
}
