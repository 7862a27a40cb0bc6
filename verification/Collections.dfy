/** Ordered maps, stable sorting and small sequence functions shared by the model. */
module Collections {

  datatype Option<+T> = None | Some(value: T)

  /** The value of an optional field, or another one when it is absent. */
  function OrElse<T>(o: Option<T>, fallback: Option<T>): Option<T> {
    if o.Some? then o else fallback
  }

  /** A map that iterates in insertion order: setting a present key keeps its place. */
  datatype OMap<K(==, !new), V> = Empty | Entry(key: K, value: V, rest: OMap<K, V>) {

    function Get(k: K): Option<V> {
      match this
      case Empty => None
      case Entry(j, v, rest) => if j == k then Some(v) else rest.Get(k)
    }

    predicate Has(k: K) {
      Get(k).Some?
    }

    /** No key occurs twice. */
    predicate Unique() {
      Entry? ==> !rest.Has(key) && rest.Unique()
    }

    function Set(k: K, v: V): (r: OMap<K, V>)
      ensures forall j {:trigger r.Get(j)} :: r.Get(j) == if j == k then Some(v) else Get(j)
      ensures Unique() ==> r.Unique()
    {
      match this
      case Empty => Entry(k, v, Empty)
      case Entry(j, w, rest) => if j == k then Entry(k, v, rest) else Entry(j, w, rest.Set(k, v))
    }

    function Delete(k: K): (r: OMap<K, V>)
      ensures forall j {:trigger r.Get(j)} :: r.Get(j) == if j == k then None else Get(j)
      ensures Unique() ==> r.Unique()
    {
      match this
      case Empty => Empty
      case Entry(j, v, rest) => if j == k then rest.Delete(k) else Entry(j, v, rest.Delete(k))
    }

    /** The entries satisfying `keep`, in order. */
    function Filter(keep: (K, V) -> bool): (r: OMap<K, V>)
      requires Unique()
      ensures r.Unique()
      ensures forall j {:trigger r.Get(j)} ::
                r.Get(j) == if Get(j).Some? && keep(j, Get(j).value) then Get(j) else None
    {
      match this
      case Empty => Empty
      case Entry(j, v, rest) => if keep(j, v) then Entry(j, v, rest.Filter(keep)) else rest.Filter(keep)
    }

    function Values(): (r: seq<V>)
      ensures forall j {:trigger Get(j)} :: Get(j).Some? ==> Get(j).value in r
    {
      match this
      case Empty => []
      case Entry(_, v, rest) => [v] + rest.Values()
    }

    function Entries(): seq<(K, V)> {
      match this
      case Empty => []
      case Entry(k, v, rest) => [(k, v)] + rest.Entries()
    }
  }

  /** An ordered map without repeated keys. */
  type OrderedMap<K(==, !new), V> = m: OMap<K, V> | m.Unique() witness Empty

  /** Every value of a map without repeated keys is found under some key. */
  lemma {:induction false} ValueHasKey<K(!new), V>(m: OMap<K, V>, v: V) returns (k: K)
    requires m.Unique()
    requires v in m.Values()
    ensures m.Get(k) == Some(v)
  {
    if m.value == v {
      k := m.key;
    } else {
      k := ValueHasKey(m.rest, v);
    }
  }

  /** The map built by setting the given entries from left to right. */
  function NewMap<K(!new), V>(entries: seq<(K, V)>): (r: OMap<K, V>)
    ensures r.Unique()
  {
    if entries == [] then Empty
    else
      var last := entries[|entries| - 1];
      NewMap(entries[..|entries| - 1]).Set(last.0, last.1)
  }

  lemma {:induction false} NewMapCons<K(!new), V>(k: K, v: V, tail: seq<(K, V)>)
    requires forall e :: e in tail ==> e.0 != k
    ensures NewMap([(k, v)] + tail) == Entry(k, v, NewMap(tail))
  {
    var all := [(k, v)] + tail;
    if tail == [] {
      assert all[..0] == [];
    } else {
      var front := tail[..|tail| - 1];
      assert all[..|all| - 1] == [(k, v)] + front;
      NewMapCons(k, v, front);
    }
  }

  lemma {:induction false} EntriesAreKeys<K(!new), V>(m: OMap<K, V>, e: (K, V))
    requires e in m.Entries()
    ensures m.Has(e.0)
  {
    if m.Entry? && e != (m.key, m.value) {
      EntriesAreKeys(m.rest, e);
    }
  }

  lemma {:induction false} NewMapOfEntries<K(!new), V>(m: OMap<K, V>)
    requires m.Unique()
    ensures NewMap(m.Entries()) == m
  {
    if m.Entry? {
      NewMapOfEntries(m.rest);
      forall e | e in m.rest.Entries() ensures e.0 != m.key {
        EntriesAreKeys(m.rest, e);
      }
      NewMapCons(m.key, m.value, m.rest.Entries());
    }
  }

  /** The encoded entries of a map, in order. */
  function EncodeEntries<K(!new), V, W>(m: OMap<K, V>, encode: V -> W): seq<(K, W)> {
    match m
    case Empty => []
    case Entry(k, v, rest) => [(k, encode(v))] + EncodeEntries(rest, encode)
  }

  /** Every entry decoded, or nothing when one of them does not decode. */
  function DecodeEntries<K(!new), V, W>(entries: seq<(K, W)>, decode: (K, W) -> Option<V>): Option<seq<(K, V)>> {
    if entries == [] then Some([])
    else
      var head, tail := decode(entries[0].0, entries[0].1), DecodeEntries(entries[1..], decode);
      if head.Some? && tail.Some? then Some([(entries[0].0, head.value)] + tail.value) else None
  }

  /** Decoding what was encoded gives back the map, order included. */
  lemma {:induction false} DecodeEncodedEntries<K(!new), V, W>(
      m: OMap<K, V>, encode: V -> W, decode: (K, W) -> Option<V>)
    requires m.Unique()
    requires forall k :: m.Has(k) ==> decode(k, encode(m.Get(k).value)) == m.Get(k)
    ensures DecodeEntries(EncodeEntries(m, encode), decode) == Some(m.Entries())
  {
    if m.Entry? {
      assert m.Get(m.key) == Some(m.value);
      forall k | m.rest.Has(k) ensures decode(k, encode(m.rest.Get(k).value)) == m.rest.Get(k) {
        assert m.Get(k) == m.rest.Get(k);
      }
      DecodeEncodedEntries(m.rest, encode, decode);
      assert EncodeEntries(m, encode)[1..] == EncodeEntries(m.rest, encode);
    }
  }

  // ---------------------------------------------------------------------------
  // Visiting a map entry by entry
  // ---------------------------------------------------------------------------

  function Concat<K(!new), V>(a: OMap<K, V>, b: OMap<K, V>): OMap<K, V> {
    match a
    case Empty => b
    case Entry(k, v, rest) => Entry(k, v, Concat(rest, b))
  }

  lemma {:induction false} ConcatSnoc<K(!new), V>(a: OMap<K, V>, b: OMap<K, V>)
    requires b.Entry?
    ensures Concat(Concat(a, Entry(b.key, b.value, Empty)), b.rest) == Concat(a, b)
  {
    if a.Entry? {
      ConcatSnoc(a.rest, b);
    }
  }

  lemma {:induction false} ConcatGet<K(!new), V>(a: OMap<K, V>, k: K, v: V, j: K)
    requires j != k
    ensures Concat(a, Entry(k, v, Empty)).Get(j) == a.Get(j)
  {
    if a.Entry? {
      ConcatGet(a.rest, k, v, j);
    }
  }

  lemma {:induction false} ConcatNil<K(!new), V>(a: OMap<K, V>)
    ensures Concat(a, Empty) == a
  {
    if a.Entry? {
      ConcatNil(a.rest);
    }
  }

  lemma {:induction false} UniqueConcat<K(!new), V>(a: OMap<K, V>, b: OMap<K, V>)
    requires b.Entry? && Concat(a, b).Unique()
    ensures a.Unique() && b.Unique() && !a.Has(b.key)
  {
    if a.Entry? {
      HasConcat(a.rest, b, a.key);
      HasConcat(a.rest, b, b.key);
      UniqueConcat(a.rest, b);
    }
  }

  lemma {:induction false} HasConcat<K(!new), V>(a: OMap<K, V>, b: OMap<K, V>, k: K)
    ensures Concat(a, b).Has(k) <==> a.Has(k) || b.Has(k)
  {
    if a.Entry? {
      HasConcat(a.rest, b, k);
    }
  }

  lemma {:induction false} SetBetween<K(!new), V>(a: OMap<K, V>, b: OMap<K, V>, v: V)
    requires b.Entry? && !a.Has(b.key)
    ensures Concat(a, b).Set(b.key, v) == Concat(a, Entry(b.key, v, b.rest))
  {
    if a.Entry? {
      SetBetween(a.rest, b, v);
    }
  }

  lemma {:induction false} DeleteAbsent<K(!new), V>(m: OMap<K, V>, k: K)
    requires !m.Has(k)
    ensures m.Delete(k) == m
  {
    if m.Entry? {
      DeleteAbsent(m.rest, k);
    }
  }

  lemma {:induction false} EntryOfKey<K(!new), V>(m: OMap<K, V>, k: K)
    requires m.Has(k)
    ensures (k, m.Get(k).value) in m.Entries()
  {
    if m.key != k {
      EntryOfKey(m.rest, k);
    }
  }

  lemma {:induction false} EntryIsValue<K(!new), V>(m: OMap<K, V>, e: (K, V))
    requires m.Unique() && e in m.Entries()
    ensures m.Get(e.0) == Some(e.1)
  {
    if e != (m.key, m.value) {
      EntryIsValue(m.rest, e);
      EntriesAreKeys(m.rest, e);
    }
  }

  // ---------------------------------------------------------------------------
  // Sequences
  // ---------------------------------------------------------------------------

  function Filter<T(!new)>(xs: seq<T>, keep: T -> bool): (r: seq<T>)
    ensures forall x {:trigger x in r} :: x in r <==> x in xs && keep(x)
    ensures |r| <= |xs|
  {
    if xs == [] then []
    else if keep(xs[0]) then [xs[0]] + Filter(xs[1..], keep)
    else Filter(xs[1..], keep)
  }

  function MapSeq<T, U>(xs: seq<T>, f: T -> U): (r: seq<U>)
    ensures |r| == |xs|
    ensures forall i {:trigger r[i]} :: 0 <= i < |r| ==> r[i] == f(xs[i])
  {
    seq(|xs|, i requires 0 <= i < |xs| => f(xs[i]))
  }

  /** The values `f` gives, dropping elements for which it gives none. */
  function FilterMap<T(!new), U(!new)>(xs: seq<T>, f: T -> Option<U>): (r: seq<U>)
    ensures |r| <= |xs|
    ensures forall y {:trigger y in r} :: y in r ==> exists x :: x in xs && f(x) == Some(y)
    ensures forall x {:trigger f(x)} :: x in xs && f(x).Some? ==> f(x).value in r
  {
    if xs == [] then []
    else if f(xs[0]).Some? then
      assert forall x :: x in xs <==> x == xs[0] || x in xs[1..];
      [f(xs[0]).value] + FilterMap(xs[1..], f)
    else
      assert forall x :: x in xs <==> x == xs[0] || x in xs[1..];
      FilterMap(xs[1..], f)
  }

  /** The first element satisfying `p`. */
  function Find<T(!new)>(xs: seq<T>, p: T -> bool): (r: Option<T>)
    ensures r.Some? ==> r.value in xs && p(r.value)
    ensures r.None? ==> forall x {:trigger x in xs} :: x in xs ==> !p(x)
  {
    if xs == [] then None
    else if p(xs[0]) then Some(xs[0])
    else
      assert forall x :: x in xs ==> x == xs[0] || x in xs[1..];
      Find(xs[1..], p)
  }

  function SumOf<T>(xs: seq<T>, f: T -> nat): nat {
    if xs == [] then 0 else f(xs[0]) + SumOf(xs[1..], f)
  }

  /** Apply `step` so many times. */
  function Iterate<T>(step: T -> T, x: T, n: nat): T
    decreases n
  {
    if n == 0 then x else Iterate(step, step(x), n - 1)
  }

  lemma {:induction false} IterateSnoc<T>(step: T -> T, x: T, n: nat)
    ensures Iterate(step, x, n + 1) == step(Iterate(step, x, n))
    decreases n
  {
    if n > 0 {
      IterateSnoc(step, step(x), n - 1);
    }
  }

  predicate NoDuplicates<T(==)>(xs: seq<T>) {
    forall i, j :: 0 <= i < j < |xs| ==> xs[i] != xs[j]
  }

  /** The elements in order of first occurrence, as a JavaScript set keeps them. */
  function Distinct<T(==, !new)>(xs: seq<T>): (r: seq<T>)
    ensures NoDuplicates(r)
    ensures forall x {:trigger x in r} :: x in r <==> x in xs
  {
    if xs == [] then []
    else
      var front := Distinct(xs[..|xs| - 1]);
      assert xs == xs[..|xs| - 1] + [xs[|xs| - 1]];
      if xs[|xs| - 1] in front then front else front + [xs[|xs| - 1]]
  }

  ghost predicate TotalOrder<T(!new)>(le: (T, T) -> bool) {
    && (forall x, y :: le(x, y) || le(y, x))
    && (forall x, y, z :: le(x, y) && le(y, z) ==> le(x, z))
  }

  predicate SortedBy<T>(xs: seq<T>, le: (T, T) -> bool) {
    forall i, j :: 0 <= i < j < |xs| ==> le(xs[i], xs[j])
  }

  function Insert<T>(x: T, xs: seq<T>, le: (T, T) -> bool): seq<T> {
    if xs == [] || le(x, xs[0]) then [x] + xs else [xs[0]] + Insert(x, xs[1..], le)
  }

  /** Stable sorting: equal elements keep their order. */
  function StableSort<T>(xs: seq<T>, le: (T, T) -> bool): seq<T> {
    if xs == [] then [] else Insert(xs[0], StableSort(xs[1..], le), le)
  }

  lemma {:induction false} InsertIsPermutation<T>(x: T, xs: seq<T>, le: (T, T) -> bool)
    ensures multiset(Insert(x, xs, le)) == multiset(xs) + multiset{x}
  {
    if xs != [] && !le(x, xs[0]) {
      InsertIsPermutation(x, xs[1..], le);
      assert xs == [xs[0]] + xs[1..];
    }
  }

  lemma {:induction false} SortIsPermutation<T>(xs: seq<T>, le: (T, T) -> bool)
    ensures multiset(StableSort(xs, le)) == multiset(xs)
    ensures |StableSort(xs, le)| == |xs|
  {
    if xs != [] {
      SortIsPermutation(xs[1..], le);
      InsertIsPermutation(xs[0], StableSort(xs[1..], le), le);
      assert xs == [xs[0]] + xs[1..];
    }
    assert |multiset(StableSort(xs, le))| == |multiset(xs)|;
  }

  lemma {:induction false} SameElements<T(!new)>(xs: seq<T>, ys: seq<T>)
    requires multiset(xs) == multiset(ys)
    ensures forall x :: x in xs <==> x in ys
  {
    forall x ensures x in xs <==> x in ys {
      assert x in xs <==> x in multiset(xs);
      assert x in ys <==> x in multiset(ys);
    }
  }

  lemma {:induction false} InsertKeepsSorted<T(!new)>(x: T, xs: seq<T>, le: (T, T) -> bool)
    requires TotalOrder(le)
    requires SortedBy(xs, le)
    ensures SortedBy(Insert(x, xs, le), le)
  {
    if xs == [] {
    } else if le(x, xs[0]) {
      var r := [x] + xs;
      forall i, j | 0 <= i < j < |r| ensures le(r[i], r[j]) {
        assert j > 1 ==> le(xs[0], xs[j - 1]);
      }
    } else {
      InsertKeepsSorted(x, xs[1..], le);
      var tail := Insert(x, xs[1..], le);
      InsertIsPermutation(x, xs[1..], le);
      forall y | y in tail ensures le(xs[0], y) {
        assert y in multiset(tail);
        if y != x {
          assert y in multiset(xs[1..]);
        }
      }
      var r := [xs[0]] + tail;
      forall i, j | 0 <= i < j < |r| ensures le(r[i], r[j]) {
        assert r[j] in tail;
      }
    }
  }

  lemma {:induction false} SortIsSorted<T(!new)>(xs: seq<T>, le: (T, T) -> bool)
    requires TotalOrder(le)
    ensures SortedBy(StableSort(xs, le), le)
  {
    if xs != [] {
      SortIsSorted(xs[1..], le);
      InsertKeepsSorted(xs[0], StableSort(xs[1..], le), le);
    }
  }

  lemma {:induction false} FilterOfAppend<T(!new)>(xs: seq<T>, ys: seq<T>, keep: T -> bool)
    ensures Filter(xs + ys, keep) == Filter(xs, keep) + Filter(ys, keep)
  {
    if xs == [] {
      assert xs + ys == ys;
    } else {
      assert (xs + ys)[1..] == xs[1..] + ys;
      FilterOfAppend(xs[1..], ys, keep);
    }
  }

  lemma {:induction false} FilterSplitsMultiset<T(!new)>(xs: seq<T>, keep: T -> bool)
    ensures multiset(Filter(xs, keep)) + multiset(Filter(xs, x => !keep(x))) == multiset(xs)
  {
    if xs != [] {
      FilterSplitsMultiset(xs[1..], keep);
      assert xs == [xs[0]] + xs[1..];
    }
  }

  lemma {:induction false} FilterKeepsSorted<T(!new)>(xs: seq<T>, keep: T -> bool, le: (T, T) -> bool)
    requires SortedBy(xs, le)
    ensures SortedBy(Filter(xs, keep), le)
  {
    if xs != [] {
      FilterKeepsSorted(xs[1..], keep, le);
      var r := Filter(xs, keep);
      if keep(xs[0]) {
        forall i, j | 0 <= i < j < |r| ensures le(r[i], r[j]) {
          if i == 0 {
            assert r[j] in Filter(xs[1..], keep);
          }
        }
      }
    }
  }

  /** Dropping elements a search or a collection ignores changes neither. */
  lemma {:induction false} FilterMapOfFilter<T(!new), U(!new)>(xs: seq<T>, keep: T -> bool, f: T -> Option<U>)
    requires forall x :: x in xs && !keep(x) ==> f(x).None?
    ensures FilterMap(Filter(xs, keep), f) == FilterMap(xs, f)
  {
    if xs != [] {
      assert forall x :: x in xs[1..] ==> x in xs;
      assert xs[0] in xs;
      FilterMapOfFilter(xs[1..], keep, f);
    }
  }

  lemma {:induction false} FindOfFilter<T(!new)>(xs: seq<T>, keep: T -> bool, p: T -> bool)
    requires forall x :: x in xs && !keep(x) ==> !p(x)
    ensures Find(Filter(xs, keep), p) == Find(xs, p)
  {
    if xs != [] {
      assert forall x :: x in xs[1..] ==> x in xs;
      assert xs[0] in xs;
      FindOfFilter(xs[1..], keep, p);
    }
  }

  lemma {:induction false} ValuesOfFilter<K(!new), V(!new)>(m: OMap<K, V>, keep: (K, V) -> bool, keepValue: V -> bool)
    requires m.Unique()
    requires forall k, v :: keep(k, v) == keepValue(v)
    ensures m.Filter(keep).Values() == Filter(m.Values(), keepValue)
  {
    if m.Entry? {
      ValuesOfFilter(m.rest, keep, keepValue);
    }
  }

  /** No two elements share a key. */
  predicate DistinctBy<T, K(==)>(xs: seq<T>, key: T -> K) {
    forall i, j :: 0 <= i < j < |xs| ==> key(xs[i]) != key(xs[j])
  }

  lemma {:induction false} FilterKeepsDistinct<T(!new), K>(xs: seq<T>, keep: T -> bool, key: T -> K)
    requires DistinctBy(xs, key)
    ensures DistinctBy(Filter(xs, keep), key)
  {
    if xs != [] {
      var tail := xs[1..];
      assert DistinctBy(tail, key);
      FilterKeepsDistinct(tail, keep, key);
      forall x | x in Filter(tail, keep) ensures key(x) != key(xs[0]) {
        var i :| 0 <= i < |tail| && tail[i] == x;
        assert xs[i + 1] == x;
      }
    }
  }

  lemma {:induction false} InsertKeepsDistinct<T(!new), K>(x: T, xs: seq<T>, le: (T, T) -> bool, key: T -> K)
    requires DistinctBy(xs, key)
    requires forall y :: y in xs ==> key(y) != key(x)
    ensures DistinctBy(Insert(x, xs, le), key)
  {
    if xs != [] && !le(x, xs[0]) {
      var tail := xs[1..];
      InsertKeepsDistinct(x, tail, le, key);
      var r := Insert(x, tail, le);
      InsertIsPermutation(x, tail, le);
      forall y | y in r ensures key(y) != key(xs[0]) {
        assert y in multiset(r);
        if y != x {
          assert y in multiset(tail);
          var i :| 0 <= i < |tail| && tail[i] == y;
          assert xs[i + 1] == y;
        }
      }
    }
  }

  lemma {:induction false} SortKeepsDistinct<T(!new), K>(xs: seq<T>, le: (T, T) -> bool, key: T -> K)
    requires DistinctBy(xs, key)
    ensures DistinctBy(StableSort(xs, le), key)
  {
    if xs != [] {
      var tail := xs[1..];
      SortKeepsDistinct(tail, le, key);
      SortIsPermutation(tail, le);
      SameElements(StableSort(tail, le), tail);
      forall y | y in StableSort(tail, le) ensures key(y) != key(xs[0]) {
        assert y in tail;
        var i :| 0 <= i < |tail| && tail[i] == y;
        assert xs[i + 1] == y;
      }
      InsertKeepsDistinct(xs[0], StableSort(tail, le), le, key);
    }
  }

  lemma {:induction false} FilterTwice<T(!new)>(xs: seq<T>, first: T -> bool, second: T -> bool, both: T -> bool)
    requires forall x :: x in xs ==> both(x) == (first(x) && second(x))
    ensures Filter(Filter(xs, first), second) == Filter(xs, both)
  {
    if xs != [] {
      assert forall x :: x in xs[1..] ==> x in xs;
      assert xs[0] in xs;
      FilterTwice(xs[1..], first, second, both);
    }
  }

  /** A filter keeps the whole sequence exactly when it keeps every element, and otherwise shortens it. */
  lemma {:induction false} FilterAll<T(!new)>(xs: seq<T>, keep: T -> bool)
    ensures (forall x :: x in xs ==> keep(x)) <==> |Filter(xs, keep)| == |xs|
    ensures (forall x :: x in xs ==> keep(x)) ==> Filter(xs, keep) == xs
  {
    if xs != [] {
      assert forall x :: x in xs <==> x == xs[0] || x in xs[1..];
      FilterAll(xs[1..], keep);
    }
  }

  lemma {:induction false} FilterOfInsert<T(!new)>(x: T, ys: seq<T>, keep: T -> bool, le: (T, T) -> bool)
    requires TotalOrder(le) && SortedBy(ys, le)
    ensures Filter(Insert(x, ys, le), keep) == if keep(x) then Insert(x, Filter(ys, keep), le) else Filter(ys, keep)
  {
    if ys == [] {
    } else if le(x, ys[0]) {
      var kept := Filter(ys, keep);
      if kept != [] {
        assert kept[0] in kept;
        var i :| 0 <= i < |ys| && ys[i] == kept[0];
        assert le(ys[0], ys[i]);
      }
    } else {
      FilterOfInsert(x, ys[1..], keep, le);
    }
  }

  /** Filtering commutes with stable sorting. */
  lemma {:induction false} FilterOfSort<T(!new)>(xs: seq<T>, keep: T -> bool, le: (T, T) -> bool)
    requires TotalOrder(le)
    ensures Filter(StableSort(xs, le), keep) == StableSort(Filter(xs, keep), le)
  {
    if xs != [] {
      FilterOfSort(xs[1..], keep, le);
      SortIsSorted(xs[1..], le);
      FilterOfInsert(xs[0], StableSort(xs[1..], le), keep, le);
    }
  }

  lemma {:induction false} FilterMapAgrees<T(!new), U(!new)>(xs: seq<T>, f: T -> Option<U>, g: T -> Option<U>)
    requires forall x :: x in xs ==> f(x) == g(x)
    ensures FilterMap(xs, f) == FilterMap(xs, g)
  {
    if xs != [] {
      assert forall x :: x in xs[1..] ==> x in xs;
      assert xs[0] in xs;
      FilterMapAgrees(xs[1..], f, g);
    }
  }

  /**
   * Dropping elements never lengthens what is collected, and shortens it when one of them would have
   * been collected.
   */
  lemma {:induction false} FilterMapShortens<T(!new), U(!new)>(xs: seq<T>, keep: T -> bool, f: T -> Option<U>)
    ensures |FilterMap(Filter(xs, keep), f)| <= |FilterMap(xs, f)|
    ensures (exists x :: x in xs && !keep(x) && f(x).Some?) ==> |FilterMap(Filter(xs, keep), f)| < |FilterMap(xs, f)|
  {
    if xs != [] {
      assert forall x :: x in xs <==> x == xs[0] || x in xs[1..];
      FilterMapShortens(xs[1..], keep, f);
    }
  }

  lemma {:induction false} FilterMapKeepsDistinct<T(!new), U(!new), K>(
      xs: seq<T>, f: T -> Option<U>, key: T -> K, key': U -> K)
    requires DistinctBy(xs, key)
    requires forall x :: x in xs && f(x).Some? ==> key'(f(x).value) == key(x)
    ensures DistinctBy(FilterMap(xs, f), key')
  {
    if xs != [] {
      var tail := xs[1..];
      assert forall x :: x in tail ==> x in xs;
      assert xs[0] in xs;
      FilterMapKeepsDistinct(tail, f, key, key');
      forall y | y in FilterMap(tail, f) ensures key'(y) != key(xs[0]) {
        var x :| x in tail && f(x) == Some(y);
        var i :| 0 <= i < |tail| && tail[i] == x;
        assert xs[i + 1] == x;
      }
    }
  }

  /** Values kept under their own key are distinct. */
  lemma {:induction false} ValuesDistinct<K(!new), V(!new)>(m: OMap<K, V>, key: V -> K)
    requires m.Unique() && forall k :: m.Has(k) ==> key(m.Get(k).value) == k
    ensures DistinctBy(m.Values(), key)
    ensures forall v :: v in m.Values() ==> m.Get(key(v)) == Some(v)
  {
    if m.Entry? {
      assert m.Get(m.key) == Some(m.value);
      assert forall k :: m.rest.Has(k) ==> m.rest.Get(k) == m.Get(k);
      ValuesDistinct(m.rest, key);
      forall v | v in m.rest.Values() ensures key(v) != m.key && m.Get(key(v)) == Some(v) {
        assert m.rest.Get(key(v)) == Some(v);
      }
    }
  }

  lemma {:induction false} DistinctJoin<T(!new), K>(a: seq<T>, b: seq<T>, key: T -> K)
    requires DistinctBy(a, key) && DistinctBy(b, key)
    requires forall x, y :: x in a && y in b ==> key(x) != key(y)
    ensures DistinctBy(a + b, key)
  {
    var all := a + b;
    forall i, j | 0 <= i < j < |all| ensures key(all[i]) != key(all[j]) {
      if i < |a| <= j {
        assert all[i] in a && all[j] in b;
      }
    }
  }

  // ---------------------------------------------------------------------------
  // Mapped sequences
  // ---------------------------------------------------------------------------

  lemma {:induction false} FilterOfMap<T(!new), U(!new)>(xs: seq<T>, f: T -> U, keep: U -> bool, keepMapped: T -> bool)
    requires forall x :: x in xs ==> keep(f(x)) == keepMapped(x)
    ensures Filter(MapSeq(xs, f), keep) == MapSeq(Filter(xs, keepMapped), f)
  {
    if xs != [] {
      var tail := xs[1..];
      FilterOfMap(tail, f, keep, keepMapped);
      assert MapSeq(xs, f) == [f(xs[0])] + MapSeq(tail, f);
      assert MapSeq(xs, f)[1..] == MapSeq(tail, f);
      assert xs[0] in xs;
    }
  }

  /** Reading some of the elements off a mapped sequence. */
  lemma {:induction false} ReadMapped<T(!new), U(!new), V(!new)>(
      xs: seq<T>, f: T -> U, read: U -> Option<V>, some: T -> bool, value: T -> V)
    requires forall x :: x in xs ==> read(f(x)) == if some(x) then Some(value(x)) else None
    ensures FilterMap(MapSeq(xs, f), read) == MapSeq(Filter(xs, some), value)
  {
    if xs != [] {
      var tail := xs[1..];
      ReadMapped(tail, f, read, some, value);
      assert MapSeq(xs, f) == [f(xs[0])] + MapSeq(tail, f);
      assert MapSeq(xs, f)[1..] == MapSeq(tail, f);
      assert xs[0] in xs;
    }
  }

  lemma {:induction false} MapOfMap<T, U, V>(xs: seq<T>, f: T -> U, g: U -> V, both: T -> V)
    requires forall x :: x in xs ==> g(f(x)) == both(x)
    ensures MapSeq(MapSeq(xs, f), g) == MapSeq(xs, both)
  {
  }

  lemma {:induction false} MapOfAppend<T, U>(xs: seq<T>, ys: seq<T>, f: T -> U)
    ensures MapSeq(xs + ys, f) == MapSeq(xs, f) + MapSeq(ys, f)
  {
  }

  lemma {:induction false} InsertMapped<T, U>(x: T, xs: seq<T>, f: T -> U, le: (T, T) -> bool, leMapped: (U, U) -> bool)
    requires forall y :: y in xs ==> leMapped(f(x), f(y)) == le(x, y)
    ensures Insert(f(x), MapSeq(xs, f), leMapped) == MapSeq(Insert(x, xs, le), f)
  {
    if xs != [] {
      assert MapSeq(xs, f)[1..] == MapSeq(xs[1..], f);
      assert xs[0] in xs;
      if !le(x, xs[0]) {
        InsertMapped(x, xs[1..], f, le, leMapped);
      }
    }
  }

  /** Sorting mapped elements by what they were mapped from. */
  lemma {:induction false} SortMapped<T(!new), U>(xs: seq<T>, f: T -> U, le: (T, T) -> bool, leMapped: (U, U) -> bool)
    requires forall x, y :: x in xs && y in xs ==> leMapped(f(x), f(y)) == le(x, y)
    ensures StableSort(MapSeq(xs, f), leMapped) == MapSeq(StableSort(xs, le), f)
  {
    if xs != [] {
      var tail := xs[1..];
      assert forall x :: x in tail ==> x in xs;
      SortMapped(tail, f, le, leMapped);
      SortIsPermutation(tail, le);
      SameElements(StableSort(tail, le), tail);
      assert MapSeq(xs, f)[1..] == MapSeq(tail, f);
      assert xs[0] in xs;
      InsertMapped(xs[0], StableSort(tail, le), f, le, leMapped);
    }
  }

  lemma {:induction false} InsertAgrees<T>(x: T, xs: seq<T>, le: (T, T) -> bool, other: (T, T) -> bool)
    requires forall y :: y in xs ==> le(x, y) == other(x, y)
    ensures Insert(x, xs, le) == Insert(x, xs, other)
  {
    if xs != [] && !le(x, xs[0]) {
      InsertAgrees(x, xs[1..], le, other);
    }
  }

  lemma {:induction false} SortAgrees<T(!new)>(xs: seq<T>, le: (T, T) -> bool, other: (T, T) -> bool)
    requires forall x, y :: x in xs && y in xs ==> le(x, y) == other(x, y)
    ensures StableSort(xs, le) == StableSort(xs, other)
  {
    if xs != [] {
      var tail := xs[1..];
      assert forall x :: x in tail ==> x in xs;
      SortAgrees(tail, le, other);
      SortIsPermutation(tail, le);
      SameElements(StableSort(tail, le), tail);
      assert xs[0] in xs;
      InsertAgrees(xs[0], StableSort(tail, le), le, other);
    }
  }

  lemma {:induction false} SortOfSorted<T(!new)>(xs: seq<T>, le: (T, T) -> bool)
    requires SortedBy(xs, le)
    ensures StableSort(xs, le) == xs
  {
    if xs != [] {
      SortOfSorted(xs[1..], le);
    }
  }

  /** What sorts before everything comes first. */
  lemma {:induction false} SortPutsFirst<T(!new)>(xs: seq<T>, least: T, le: (T, T) -> bool)
    requires SortedBy(xs, le)
    requires forall x :: x in xs ==> !le(x, least)
    ensures StableSort(xs + [least], le) == [least] + xs
  {
    if xs != [] {
      var tail := xs[1..];
      SortPutsFirst(tail, least, le);
      assert (xs + [least])[1..] == tail + [least];
      assert ([least] + tail)[1..] == tail;
      assert Insert(xs[0], tail, le) == [xs[0]] + tail;
      assert xs[0] in xs;
    }
  }

  lemma {:induction false} FilterNone<T(!new)>(xs: seq<T>, keep: T -> bool)
    requires forall x :: x in xs ==> !keep(x)
    ensures Filter(xs, keep) == []
  {
    if Filter(xs, keep) != [] {
      assert Filter(xs, keep)[0] in Filter(xs, keep);
    }
  }

  lemma {:induction false} FilterMapped<T(!new), V(!new)>(
      xs: seq<T>, read: T -> Option<V>, some: T -> bool, value: T -> V)
    requires forall x :: x in xs ==> read(x) == if some(x) then Some(value(x)) else None
    ensures FilterMap(xs, read) == MapSeq(Filter(xs, some), value)
  {
    ReadMapped(xs, (x: T) => x, read, some, value);
    assert MapSeq(xs, (x: T) => x) == xs;
  }

  function LastOf<T>(xs: seq<T>): Option<T> {
    if xs == [] then None else Some(xs[|xs| - 1])
  }

  /** The first of the elements with the property. */
  ghost predicate FirstIn<T(!new)>(xs: seq<T>, p: T -> bool, x: T) {
    exists i :: 0 <= i < |xs| && xs[i] == x && p(x) && forall j :: 0 <= j < i ==> !p(xs[j])
  }

  lemma {:induction false} FindIsFirst<T(!new)>(xs: seq<T>, p: T -> bool)
    ensures Find(xs, p).Some? ==> FirstIn(xs, p, Find(xs, p).value)
  {
    if xs != [] && !p(xs[0]) && Find(xs, p).Some? {
      FindIsFirst(xs[1..], p);
      var x := Find(xs, p).value;
      var i :| 0 <= i < |xs[1..]| && xs[1..][i] == x && forall j :: 0 <= j < i ==> !p(xs[1..][j]);
      assert xs[i + 1] == x && forall j :: 0 <= j < i + 1 ==> !p(xs[j]) by {
        assert forall j :: 0 < j < i + 1 ==> xs[j] == xs[1..][j - 1];
      }
    }
  }

  lemma {:induction false} FirstAgrees<T(!new)>(xs: seq<T>, p: T -> bool, q: T -> bool, x: T)
    requires FirstIn(xs, p, x) && forall y :: y in xs ==> p(y) == q(y)
    ensures FirstIn(xs, q, x)
  {
    var i :| 0 <= i < |xs| && xs[i] == x && forall j :: 0 <= j < i ==> !p(xs[j]);
    assert x in xs;
    forall j | 0 <= j < i ensures !q(xs[j]) {
      assert xs[j] in xs;
    }
  }

  lemma {:induction false} FindOfBoth<T(!new)>(xs: seq<T>, keep: T -> bool, p: T -> bool, both: T -> bool)
    requires forall x :: x in xs ==> both(x) == (keep(x) && p(x))
    ensures Find(Filter(xs, keep), p) == Find(xs, both)
  {
    if xs != [] {
      assert xs[0] in xs && forall x :: x in xs[1..] ==> x in xs;
      FindOfBoth(xs[1..], keep, p, both);
    }
  }

  lemma {:induction false} FilterAgrees<T(!new)>(xs: seq<T>, p: T -> bool, q: T -> bool)
    requires forall x :: x in xs ==> p(x) == q(x)
    ensures Filter(xs, p) == Filter(xs, q)
  {
    if xs != [] {
      assert xs[0] in xs && forall x :: x in xs[1..] ==> x in xs;
      FilterAgrees(xs[1..], p, q);
    }
  }
}
