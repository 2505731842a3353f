/** Python's `dict`: a finite map that remembers the order in which its keys were first inserted.
    Overwriting a key keeps its place, deleting it forgets the place. */
module OrderedDict {
  import Sets

  ghost predicate Distinct<T>(s: seq<T>) {
    forall i, j :: 0 <= i < j < |s| ==> s[i] != s[j]
  }

  /** The sequence without its first occurrence of `x`. */
  function Without<T(==, !new)>(s: seq<T>, x: T): (r: seq<T>)
    ensures x !in s ==> r == s
    ensures x in s ==> |r| == |s| - 1
    ensures forall y :: y != x ==> (y in r <==> y in s)
    ensures Distinct(s) ==> Distinct(r) && x !in r
  {
    if s == [] then []
    else if s[0] == x then s[1..]
    else
      var rest := Without(s[1..], x);
      assert forall y :: y in s <==> y == s[0] || y in s[1..];
      assert Distinct(s) ==> s[0] !in s[1..] && s[0] !in rest;
      assert forall j :: 1 <= j < |rest| + 1 ==> ([s[0]] + rest)[j] == rest[j - 1];
      [s[0]] + rest
  }

  /** In a sequence without repeats, dropping an element keeps the order of the others. */
  lemma {:induction false} WithoutSplits<T(!new)>(s: seq<T>, i: nat)
    requires Distinct(s) && i < |s|
    ensures Without(s, s[i]) == s[..i] + s[i + 1..]
  {
    if i == 0 {
    } else {
      WithoutSplits(s[1..], i - 1);
      assert s[1..][i - 1] == s[i] && s[0] != s[i];
      CutAfterHead(s, i);
    }
  }

  lemma CutAfterHead<T>(s: seq<T>, i: nat)
    requires 0 < i < |s|
    ensures [s[0]] + (s[1..][..i - 1] + s[1..][i..]) == s[..i] + s[i + 1..]
  {
  }

  datatype Dict<K(==, !new), V> = Dict(keys: seq<K>, at: map<K, V>) {

    ghost predicate Valid() {
      && Distinct(keys)
      && (forall k :: k in keys <==> k in at)
    }

    function Put(k: K, v: V): (d: Dict<K, V>)
      requires Valid()
      ensures d.Valid() && d.at == at[k := v]
      ensures d.keys == if k in at then keys else keys + [k]
    {
      Dict(if k in at then keys else keys + [k], at[k := v])
    }

    function Remove(k: K): (d: Dict<K, V>)
      requires Valid()
      ensures d.Valid() && d.at == at - {k}
      ensures k !in at ==> d == this
    {
      assert k !in at ==> at - {k} == at;
      Dict(Without(keys, k), at - {k})
    }

    /** `min(d, key=...)`: the first key, in insertion order, whose cost is least. */
    function FirstMin(cost: V -> real): (k: K)
      requires Valid() && keys != []
      ensures k in at && exists i :: IsFirstMin(cost, i) && keys[i] == k
    {
      keys[MinIndex(cost, |keys|)]
    }

    ghost predicate IsFirstMin(cost: V -> real, i: int)
      requires Valid()
    {
      && 0 <= i < |keys|
      && (forall j :: 0 <= j < |keys| ==> cost(at[keys[i]]) <= cost(at[keys[j]]))
      && (forall j :: 0 <= j < i ==> cost(at[keys[i]]) < cost(at[keys[j]]))
    }

    function MinIndex(cost: V -> real, n: nat): (i: nat)
      requires Valid() && 0 < n <= |keys|
      ensures i < n
      ensures forall j :: 0 <= j < n ==> cost(at[keys[i]]) <= cost(at[keys[j]])
      ensures forall j :: 0 <= j < i ==> cost(at[keys[i]]) < cost(at[keys[j]])
    {
      if n == 1 then 0
      else
        var i := MinIndex(cost, n - 1);
        if cost(at[keys[n - 1]]) < cost(at[keys[i]]) then n - 1 else i
    }

    /** The number of keys is the size of the map. */
    lemma Size()
      requires Valid()
      ensures |keys| == |at|
    {
      Sets.SeqSize(keys);
      assert Sets.Elements(keys) == at.Keys;
    }
  }

  function Empty<K(==, !new), V>(): (d: Dict<K, V>)
    ensures d.Valid()
  {
    Dict([], map[])
  }
}
