/** JavaScript's insertion-ordered `Set` and `Map`.
    A set is a sequence without duplicates; a map is a sequence of key/value pairs with
    distinct keys. Adding an existing element keeps the set as it is; setting an existing
    key replaces its value where it stands. */
module Ordered {
  import opened Wrappers

  predicate NoDuplicates<T(==)>(s: seq<T>) {
    forall i, j :: 0 <= i < j < |s| ==> s[i] != s[j]
  }

  /** `Set.prototype.add`. */
  function Add<T(==)>(s: seq<T>, x: T): (r: seq<T>)
    ensures NoDuplicates(s) ==> NoDuplicates(r)
    ensures x in r && (forall y :: y in s ==> y in r) && (forall y :: y in r ==> y in s || y == x)
    ensures x in s ==> r == s
    ensures x !in s ==> r == s + [x]
  {
    if x in s then s else s + [x]
  }

  /** `add` of every element of `xs`, in order. */
  function AddAll<T(==)>(s: seq<T>, xs: seq<T>): (r: seq<T>)
    ensures NoDuplicates(s) ==> NoDuplicates(r)
    ensures (forall y :: y in s ==> y in r) && (forall y :: y in xs ==> y in r)
    ensures forall y :: y in r ==> y in s || y in xs
    ensures |s| <= |r| && r[..|s|] == s
    decreases xs
  {
    if xs == [] then s else AddAll(Add(s, xs[0]), xs[1..])
  }

  lemma {:induction false} AddAllConcat<T>(s: seq<T>, xs: seq<T>, ys: seq<T>)
    ensures AddAll(s, xs + ys) == AddAll(AddAll(s, xs), ys)
    decreases xs
  {
    if xs != [] {
      assert (xs + ys)[0] == xs[0];
      assert (xs + ys)[1..] == xs[1..] + ys;
      AddAllConcat(Add(s, xs[0]), xs[1..], ys);
    } else {
      assert xs + ys == ys;
    }
  }

  type OrderedMap<K, V> = seq<(K, V)>

  function Keys<K, V>(m: OrderedMap<K, V>): (r: seq<K>)
    ensures |r| == |m|
    ensures forall i :: 0 <= i < |m| ==> r[i] == m[i].0
  {
    seq(|m|, i requires 0 <= i < |m| => m[i].0)
  }

  function Values<K, V>(m: OrderedMap<K, V>): (r: seq<V>)
    ensures |r| == |m|
    ensures forall i :: 0 <= i < |m| ==> r[i] == m[i].1
  {
    seq(|m|, i requires 0 <= i < |m| => m[i].1)
  }

  predicate KeysUnique<K(==), V>(m: OrderedMap<K, V>) {
    NoDuplicates(Keys(m))
  }

  /** The position of key `k`, if present. */
  function Find<K(==), V>(m: OrderedMap<K, V>, k: K): (r: Option<nat>)
    ensures r.None? <==> k !in Keys(m)
    ensures r.Some? ==> r.value < |m| && m[r.value].0 == k
    ensures r.Some? ==> forall j :: 0 <= j < r.value ==> m[j].0 != k
  {
    if m == [] then None
    else if m[0].0 == k then Some(0)
    else
      var rest := Find(m[1..], k);
      if rest.None? then
        assert Keys(m) == [m[0].0] + Keys(m[1..]);
        None
      else
        Some(rest.value + 1)
  }

  /** `Map.prototype.get`. */
  function Get<K(==), V>(m: OrderedMap<K, V>, k: K): (r: Option<V>)
    ensures r.None? <==> k !in Keys(m)
    ensures r.Some? ==> (k, r.value) in m
  {
    match Find(m, k)
    case None => None
    case Some(i) => Some(m[i].1)
  }

  /** `Map.prototype.set`: replaces the value of an existing key in place, otherwise
      appends the pair at the end. */
  function Set<K(==), V>(m: OrderedMap<K, V>, k: K, v: V): (r: OrderedMap<K, V>)
    ensures Keys(r) == Add(Keys(m), k)
    ensures KeysUnique(m) ==> KeysUnique(r)
    ensures Get(r, k) == Some(v)
    ensures forall k' :: k' in Keys(m) && k' != k ==> Get(r, k') == Get(m, k')
    ensures forall k' :: k' in Keys(r) && k' != k ==> k' in Keys(m)
    ensures forall i :: 0 <= i < |r| ==> r[i] in m || r[i] == (k, v)
  {
    match Find(m, k)
    case None =>
      assert Keys(m + [(k, v)]) == Keys(m) + [k];
      FindAppend(m, k, v);
      m + [(k, v)]
    case Some(i) =>
      var r := m[i := (k, v)];
      FindReplace(m, i, k, v);
      assert Keys(r) == Keys(m);
      assert Find(r, k) == Some(i);
      r
  }

  /** With distinct keys, the value found under the key of entry `i` is that entry's. */
  lemma FindUnique<K, V>(m: OrderedMap<K, V>, i: nat)
    requires KeysUnique(m) && i < |m|
    ensures Find(m, m[i].0) == Some(i) && Get(m, m[i].0) == Some(m[i].1)
  {
    assert Keys(m)[i] == m[i].0;
    var f := Find(m, m[i].0).value;
    assert Keys(m)[f] == Keys(m)[i];
  }

  lemma {:induction false} FindAppend<K, V>(m: OrderedMap<K, V>, k: K, v: V)
    ensures forall k' :: k' in Keys(m) ==> Find(m + [(k, v)], k') == Find(m, k')
  {
    if m != [] {
      FindAppend(m[1..], k, v);
      assert (m + [(k, v)])[1..] == m[1..] + [(k, v)];
      assert Keys(m) == [m[0].0] + Keys(m[1..]);
    }
  }

  lemma {:induction false} FindReplace<K, V>(m: OrderedMap<K, V>, i: nat, k: K, v: V)
    requires i < |m| && m[i].0 == k
    ensures forall k' :: k' != k ==> Find(m[i := (k, v)], k') == Find(m, k')
  {
    if i > 0 {
      FindReplace(m[1..], i - 1, k, v);
      assert m[i := (k, v)][1..] == m[1..][i - 1 := (k, v)];
    }
  }
}
