/** Python dictionaries keep insertion order; they are modelled as association
    lists `seq<(K, V)>` without repeated keys. */
module OrderedDict {
  import opened Common

  type Dict<K, V> = seq<(K, V)>

  function Keys<K, V>(d: Dict<K, V>): (ks: seq<K>)
    ensures |ks| == |d|
    ensures forall i :: 0 <= i < |d| ==> ks[i] == d[i].0
  {
    seq(|d|, i requires 0 <= i < |d| => d[i].0)
  }

  lemma KeysCons<K, V>(d: Dict<K, V>)
    requires d != []
    ensures Keys(d) == [d[0].0] + Keys(d[1..])
  {
  }

  predicate NoDup<T(==)>(s: seq<T>) {
    forall i, j :: 0 <= i < j < |s| ==> s[i] != s[j]
  }

  predicate NoDupKeys<K(==), V>(d: Dict<K, V>) {
    NoDup(Keys(d))
  }

  /** `d.get(k)`: the value of the first pair with key `k`. */
  function Get<K(==), V>(d: Dict<K, V>, k: K): (r: Option<V>)
    ensures r.Some? <==> k in Keys(d)
    ensures r.Some? ==> (k, r.value) in d
  {
    if d == [] then None
    else
      KeysCons(d);
      if d[0].0 == k then Some(d[0].1) else Get(d[1..], k)
  }

  /** Without repeated keys, the pair at any position is what `Get` finds. */
  lemma {:induction false} GetAt<K, V>(d: Dict<K, V>, i: nat)
    requires NoDupKeys(d) && i < |d|
    ensures Get(d, d[i].0) == Some(d[i].1)
  {
    if i > 0 {
      KeysCons(d);
      assert Keys(d)[0] != Keys(d)[i];
      assert NoDupKeys(d[1..]) by {
        forall a, b | 0 <= a < b < |d[1..]| ensures Keys(d[1..])[a] != Keys(d[1..])[b] {
          assert Keys(d)[a + 1] != Keys(d)[b + 1];
        }
      }
      GetAt(d[1..], i - 1);
    }
  }

  /** `d.get(k, default)`, and the value a `defaultdict` creates for a missing key. */
  function GetOr<K(==), V>(d: Dict<K, V>, k: K, default: V): (r: V)
    ensures k in Keys(d) ==> (k, r) in d
    ensures k !in Keys(d) ==> r == default
  {
    match Get(d, k)
    case Some(v) => v
    case None => default
  }

  /** `d[k] = v`: an existing key keeps its position, a new key goes last. */
  function Put<K(==), V>(d: Dict<K, V>, k: K, v: V): (r: Dict<K, V>)
    ensures Keys(r) == if k in Keys(d) then Keys(d) else Keys(d) + [k]
  {
    if d == [] then [(k, v)]
    else
      KeysCons(d);
      if d[0].0 == k then
        var r := [(k, v)] + d[1..];
        KeysCons(r);
        r
      else
        var r := [d[0]] + Put(d[1..], k, v);
        KeysCons(r);
        r
  }

  lemma {:induction false} GetPut<K, V>(d: Dict<K, V>, k: K, v: V, k': K)
    ensures Get(Put(d, k, v), k') == if k' == k then Some(v) else Get(d, k')
  {
    if d != [] && d[0].0 != k {
      GetPut(d[1..], k, v, k');
    }
  }

  /** Assigning a key not yet present appends it. */
  lemma {:induction false} PutNew<K, V>(d: Dict<K, V>, k: K, v: V)
    requires k !in Keys(d)
    ensures Put(d, k, v) == d + [(k, v)]
  {
    if d != [] {
      KeysCons(d);
      PutNew(d[1..], k, v);
      assert [d[0]] + (d[1..] + [(k, v)]) == d + [(k, v)];
    }
  }

  /** Every pair after an assignment was there before or is the one assigned. */
  lemma {:induction false} PutMember<K, V>(d: Dict<K, V>, k: K, v: V, p: (K, V))
    requires p in Put(d, k, v)
    ensures p in d || p == (k, v)
  {
    if d != [] && d[0].0 != k {
      if p != d[0] {
        assert p in Put(d[1..], k, v);
        PutMember(d[1..], k, v, p);
      }
    }
  }

  lemma PutNoDup<K, V>(d: Dict<K, V>, k: K, v: V)
    requires NoDupKeys(d)
    ensures NoDupKeys(Put(d, k, v))
  {
  }

  /** Assigning every pair of `pairs` in turn: `{**d, **dict(pairs)}`, and
      `dict(pairs)` itself when `d` is empty. */
  function PutAll<K(==), V>(d: Dict<K, V>, pairs: seq<(K, V)>): (r: Dict<K, V>)
    ensures NoDupKeys(d) ==> NoDupKeys(r)
    decreases |pairs|
  {
    if pairs == [] then d
    else
      var d' := Put(d, pairs[0].0, pairs[0].1);
      assert NoDupKeys(d) ==> NoDupKeys(d');
      PutAll(d', pairs[1..])
  }

  lemma {:induction false} PutAllMember<K, V>(d: Dict<K, V>, pairs: seq<(K, V)>, p: (K, V))
    requires p in PutAll(d, pairs)
    ensures p in d || p in pairs
    decreases |pairs|
  {
    if pairs != [] {
      var d' := Put(d, pairs[0].0, pairs[0].1);
      PutAllMember(d', pairs[1..], p);
      if p in d' {
        PutMember(d, pairs[0].0, pairs[0].1, p);
      }
    }
  }

  /** The value of the last pair of `pairs` that has key `k`. */
  function LastValue<K(==), V>(pairs: seq<(K, V)>, k: K): Option<V>
    decreases |pairs|
  {
    if pairs == [] then None
    else if pairs[|pairs| - 1].0 == k then Some(pairs[|pairs| - 1].1)
    else LastValue(pairs[..|pairs| - 1], k)
  }

  lemma {:induction false} GetAppend<K, V>(d: Dict<K, V>, p: (K, V), k: K)
    ensures Get(d + [p], k) == if k in Keys(d) then Get(d, k) else if p.0 == k then Some(p.1) else None
  {
    if d != [] {
      KeysCons(d);
      assert (d + [p])[1..] == d[1..] + [p];
      GetAppend(d[1..], p, k);
    }
  }

  /** Without repeated keys the last pair with a key is its only one. */
  lemma {:induction false} LastValueNoDup<K, V>(d: Dict<K, V>, k: K)
    requires NoDupKeys(d)
    ensures LastValue(d, k) == Get(d, k)
    decreases |d|
  {
    if d != [] {
      var init := d[..|d| - 1];
      var p := d[|d| - 1];
      assert d == init + [p];
      assert Keys(init) == Keys(d)[..|d| - 1];
      assert NoDupKeys(init);
      GetAppend(init, p, k);
      if p.0 == k {
        GetAt(d, |d| - 1);
      } else {
        LastValueNoDup(init, k);
      }
    }
  }

  /** After assigning `pairs` in order, a key maps to its last assigned value,
      and keys not assigned keep their old value. */
  lemma {:induction false} GetPutAll<K, V>(d: Dict<K, V>, pairs: seq<(K, V)>, k: K)
    ensures Get(PutAll(d, pairs), k) == if LastValue(pairs, k).Some? then LastValue(pairs, k) else Get(d, k)
    decreases |pairs|
  {
    if pairs != [] {
      var d' := Put(d, pairs[0].0, pairs[0].1);
      GetPutAll(d', pairs[1..], k);
      GetPut(d, pairs[0].0, pairs[0].1, k);
      LastValueCons(pairs, k);
    }
  }

  lemma {:induction false} LastValueCons<K, V>(pairs: seq<(K, V)>, k: K)
    requires pairs != []
    ensures LastValue(pairs, k) ==
      if LastValue(pairs[1..], k).Some? then LastValue(pairs[1..], k)
      else if pairs[0].0 == k then Some(pairs[0].1) else None
    decreases |pairs|
  {
    if |pairs| > 1 {
      var init := pairs[..|pairs| - 1];
      assert pairs[1..][..|pairs[1..]| - 1] == init[1..];
      if pairs[|pairs| - 1].0 != k {
        LastValueCons(init, k);
      }
    }
  }

  /** Assigning pairs never moves the keys already there: the old keys stay a prefix. */
  lemma {:induction false} PutAllKeepsPrefix<K, V>(d: Dict<K, V>, pairs: seq<(K, V)>)
    ensures |Keys(d)| <= |Keys(PutAll(d, pairs))|
    ensures Keys(PutAll(d, pairs))[..|d|] == Keys(d)
    decreases |pairs|
  {
    if pairs != [] {
      var d' := Put(d, pairs[0].0, pairs[0].1);
      PutAllKeepsPrefix(d', pairs[1..]);
      assert Keys(d')[..|d|] == Keys(d);
    }
  }

  /** Pairs of `d` whose key satisfies `keep`, in order: `{k: v for k, v in d.items() if keep(k)}`. */
  function FilterKeys<K(!new), V(!new)>(d: Dict<K, V>, keep: K -> bool): (r: Dict<K, V>)
    ensures IsSubsequence(r, d)
    ensures forall p :: p in r <==> p in d && keep(p.0)
  {
    if d == [] then []
    else
      var rest := FilterKeys(d[1..], keep);
      assert forall p :: p in d <==> p == d[0] || p in d[1..];
      if keep(d[0].0) then
        SubsequenceCons(d[0], rest, d[1..]);
        assert [d[0]] + d[1..] == d;
        [d[0]] + rest
      else
        SubsequenceSkip(d[0], rest, d[1..]);
        assert [d[0]] + d[1..] == d;
        rest
  }

  /** Filtering by key keeps a key's value when the key is kept and drops it otherwise. */
  lemma {:induction false} GetFilterKeys<K(!new), V(!new)>(d: Dict<K, V>, keep: K -> bool, k: K)
    ensures Get(FilterKeys(d, keep), k) == if keep(k) then Get(d, k) else None
  {
    if d != [] {
      GetFilterKeys(d[1..], keep, k);
    }
  }

  /** A lookup with a default after an assignment. */
  lemma GetOrPut<K, V>(d: Dict<K, V>, k: K, v: V, k': K, default: V)
    ensures GetOr(Put(d, k, v), k', default) == if k' == k then v else GetOr(d, k', default)
  {
    GetPut(d, k, v, k');
  }

  /** `d[k] += n` on a `defaultdict(int)` or a `Counter`: the count of an
      existing key grows in place, a new key goes last with `n`. */
  function AddTo<K(==)>(d: Dict<K, int>, k: K, n: int): (r: Dict<K, int>)
    ensures Keys(r) == if k in Keys(d) then Keys(d) else Keys(d) + [k]
  {
    if d == [] then [(k, n)]
    else
      KeysCons(d);
      if d[0].0 == k then
        var r := [(k, d[0].1 + n)] + d[1..];
        KeysCons(r);
        r
      else
        var r := [d[0]] + AddTo(d[1..], k, n);
        KeysCons(r);
        r
  }

  /** Adding to one key changes the count of that key only. */
  lemma {:induction false} GetOrAddTo<K>(d: Dict<K, int>, k: K, n: int, k': K)
    ensures GetOr(AddTo(d, k, n), k', 0) == if k' == k then GetOr(d, k, 0) + n else GetOr(d, k', 0)
  {
    if d != [] && d[0].0 != k {
      GetOrAddTo(d[1..], k, n, k');
    }
  }

  /** `sum(d.values())`. */
  function SumValues<K>(d: Dict<K, int>): int {
    if d == [] then 0 else d[0].1 + SumValues(d[1..])
  }

  lemma {:induction false} SumAddTo<K>(d: Dict<K, int>, k: K, n: int)
    ensures SumValues(AddTo(d, k, n)) == SumValues(d) + n
  {
    if d != [] && d[0].0 != k {
      SumAddTo(d[1..], k, n);
      assert GetOr(d, k, 0) == GetOr(d[1..], k, 0);
    }
  }
}
