/** Python dictionaries: finite maps that remember the order in which their keys were inserted. */
module Dicts {

  datatype Dict<!K(==, !new), V> = Dict(keys: seq<K>, m: map<K, V>) {

    /** Each key of the map is listed exactly once. */
    ghost predicate Valid() {
      && (forall i, j :: 0 <= i < j < |keys| ==> keys[i] != keys[j])
      && (forall i :: 0 <= i < |keys| ==> keys[i] in m)
      && (forall k :: k in m ==> k in keys)
    }

    /** Overwriting keeps a key's place, a new key goes to the end. */
    function Put(k: K, v: V): (d: Dict<K, V>)
      ensures Valid() ==> d.Valid()
    {
      if k in m then Dict(keys, m[k := v]) else Dict(keys + [k], m[k := v])
    }

    function Remove(k: K): Dict<K, V> {
      Dict(Without(keys, k), m - {k})
    }
  }

  lemma RemoveValid<K(!new), V>(d: Dict<K, V>, k: K)
    requires d.Valid()
    ensures d.Remove(k).Valid()
  {
    WithoutKeeps(d.keys, k);
    var w := Without(d.keys, k);
    forall i | 0 <= i < |w| ensures w[i] in d.Remove(k).m {
      assert w[i] in w;
    }
  }

  function EmptyDict<K(==, !new), V>(): Dict<K, V> {
    Dict([], map[])
  }

  lemma EmptyValid<K(!new), V>()
    ensures EmptyDict<K, V>().Valid()
  {
  }

  function Without<K(==)>(keys: seq<K>, k: K): seq<K> {
    if keys == [] then [] else if keys[0] == k then Without(keys[1..], k) else [keys[0]] + Without(keys[1..], k)
  }

  lemma {:induction false} WithoutKeeps<K(!new)>(keys: seq<K>, k: K)
    ensures forall u :: u in Without(keys, k) <==> u in keys && u != k
    ensures (forall i, j :: 0 <= i < j < |keys| ==> keys[i] != keys[j]) ==>
            (forall i, j :: 0 <= i < j < |Without(keys, k)| ==> Without(keys, k)[i] != Without(keys, k)[j])
  {
    if keys != [] {
      WithoutKeeps(keys[1..], k);
      assert keys == [keys[0]] + keys[1..];
      var rest := Without(keys[1..], k);
      if forall i, j :: 0 <= i < j < |keys| ==> keys[i] != keys[j] {
        forall i | 0 <= i < |rest| ensures rest[i] != keys[0] { assert rest[i] in rest; }
      }
    }
  }

  lemma SizeIsLength<K(!new), V>(d: Dict<K, V>)
    requires d.Valid()
    ensures |d.keys| == |d.m|
  {
    KeyCount(d.keys, d.m.Keys);
  }

  lemma {:induction false} KeyCount<K(!new)>(keys: seq<K>, all: set<K>)
    requires forall i, j :: 0 <= i < j < |keys| ==> keys[i] != keys[j]
    requires forall k :: k in keys <==> k in all
    ensures |keys| == |all|
  {
    if keys == [] {
      assert all == {};
    } else {
      assert forall k :: k in keys[1..] <==> k in keys && k != keys[0];
      KeyCount(keys[1..], all - {keys[0]});
      assert all == (all - {keys[0]}) + {keys[0]};
    }
  }

  lemma NoMembers<T(!new)>(s: set<T>)
    requires forall t :: t !in s
    ensures s == {}
  {
    assert forall t :: t in s ==> t in {};
  }

  lemma SomeMember<T(!new)>(s: set<T>) returns (t: T)
    requires s != {}
    ensures t in s
  {
    if forall u :: u !in s { NoMembers(s); }
    t :| t in s;
  }
}
