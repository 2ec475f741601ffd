/** A JavaScript `Map` (and a plain object used as a dictionary): entries by
    key, enumerated in the order in which each key was first inserted. */
module JsMaps {
  import opened Wrappers
  import Seqs

  datatype JsMap<K(==,!new), V> = JsMap(order: seq<K>, entries: map<K, V>) {

    /** Every key appears exactly once in the enumeration order. */
    ghost predicate Valid() {
      Seqs.Distinct(order) && forall k :: k in entries <==> k in order
    }

    /** `map.get(k)`. */
    function Get(k: K): (r: Option<V>)
      ensures r.Some? <==> k in entries
      ensures r.Some? ==> r.value == entries[k]
    {
      if k in entries then Some(entries[k]) else None
    }

    /** `map.set(k, v)`: a new key goes to the end of the order, an existing
        key keeps its place. */
    function Set(k: K, v: V): (m: JsMap<K, V>)
      requires Valid()
      ensures m.Valid()
      ensures m.entries == entries[k := v]
      ensures m.order == if k in entries then order else order + [k]
    {
      if k in entries then JsMap(order, entries[k := v])
      else JsMap(order + [k], entries[k := v])
    }

    /** `map.delete(k)`: removes the key if it is there, and does nothing
        otherwise; the other keys keep their enumeration order. */
    function Delete(k: K): (m: JsMap<K, V>)
      requires Valid()
      ensures m.Valid()
      ensures m.entries == entries - {k}
      ensures k !in entries ==> m == this
      ensures forall i :: 0 <= i < |order| && order[i] == k ==> m.order == order[..i] + order[i + 1..]
    {
      if k in entries then
        assert forall i :: 0 <= i < |order| && order[i] == k ==> Without(order, k) == order[..i] + order[i + 1..] by {
          forall i | 0 <= i < |order| && order[i] == k { WithoutAt(order, k, i); }
        }
        JsMap(Without(order, k), entries - {k})
      else this
    }

    /** `Array.from(map.values())`. */
    function Values(): (vs: seq<V>)
      requires Valid()
      ensures |vs| == |order|
      ensures forall i :: 0 <= i < |order| ==> vs[i] == entries[order[i]]
    {
      seq(|order|, i requires 0 <= i < |order| => entries[order[i]])
    }
  }

  /** Deleting a key twice is the same as deleting it once. */
  lemma DeleteTwice<K(!new), V>(m: JsMap<K, V>, k: K)
    requires m.Valid()
    ensures m.Delete(k).Delete(k) == m.Delete(k)
  {
  }

  /** The empty `new Map()`. */
  function Empty<K(==,!new), V>(): (m: JsMap<K, V>)
    ensures m.Valid() && m.entries == map[]
  {
    JsMap([], map[])
  }

  /** `s` with the element `k` taken out, the rest in order. */
  function Without<K(==,!new)>(s: seq<K>, k: K): (r: seq<K>)
    ensures forall x :: x in r <==> x in s && x != k
    ensures Seqs.Distinct(s) ==> Seqs.Distinct(r)
    ensures k !in s ==> r == s
  {
    if s == [] then []
    else if s[0] == k then Without(s[1..], k)
    else
      var rest := Without(s[1..], k);
      assert Seqs.Distinct(s) ==> s[0] !in s[1..] && Seqs.Distinct(s[1..]);
      assert Seqs.Distinct(s) ==> s[0] !in rest;
      assert k !in s ==> [s[0]] + s[1..] == s;
      [s[0]] + rest
  }

  /** Taking out the one occurrence of `k`, at position `i`, closes the gap:
      the elements before and after keep their order. */
  lemma {:induction false} WithoutAt<K(!new)>(s: seq<K>, k: K, i: nat)
    requires Seqs.Distinct(s) && i < |s| && s[i] == k
    ensures Without(s, k) == s[..i] + s[i + 1..]
  {
    if i == 0 {
      assert k !in s[1..];
    } else {
      assert s[0] != k;
      WithoutAt(s[1..], k, i - 1);
      assert s[..i] + s[i + 1..] == [s[0]] + (s[1..][..i - 1] + s[1..][i..]);
    }
  }

  /** Every stored value is enumerated. */
  lemma ValueListed<K(!new), V>(m: JsMap<K, V>, k: K)
    requires m.Valid() && k in m.entries
    ensures m.entries[k] in m.Values()
  {
    var i :| 0 <= i < |m.order| && m.order[i] == k;
    assert m.Values()[i] == m.entries[k];
  }

  /** Every enumerated value is stored under some key. */
  lemma ListedValue<K(!new), V>(m: JsMap<K, V>, v: V) returns (k: K)
    requires m.Valid() && v in m.Values()
    ensures k in m.entries && m.entries[k] == v
  {
    var i :| 0 <= i < |m.Values()| && m.Values()[i] == v;
    k := m.order[i];
  }
}
