/**
 * The order in which the local store hands back rows. IndexedDB returns
 * `getAll` results in primary-key order (the `id`, compared code unit by
 * code unit) and `index.getAll` results in index-key order and then
 * primary-key order; the store then applies JavaScript's stable sort on a
 * timestamp (src/lib/db.ts:79, 131). The resulting order is therefore
 * lexicographic on (timestamp rank, id), which `Before` expresses.
 */
module Ordering {

  /** A row's position: its timestamp rank first, its id second. */
  datatype SortKey = SortKey(rank: int, id: string)

  /** Key comparison of two string keys, character by character. */
  predicate IdLess(a: string, b: string) {
    if |a| == 0 then |b| > 0
    else if |b| == 0 then false
    else if a[0] != b[0] then a[0] < b[0]
    else IdLess(a[1..], b[1..])
  }

  predicate Before(x: SortKey, y: SortKey) {
    x.rank < y.rank || (x.rank == y.rank && IdLess(x.id, y.id))
  }

  lemma {:induction false} IdLessIrreflexive(a: string)
    ensures !IdLess(a, a)
  {
    if |a| > 0 {
      IdLessIrreflexive(a[1..]);
    }
  }

  lemma {:induction false} IdLessTransitive(a: string, b: string, c: string)
    requires IdLess(a, b) && IdLess(b, c)
    ensures IdLess(a, c)
  {
    if |a| > 0 && |b| > 0 && |c| > 0 && a[0] == b[0] && b[0] == c[0] {
      IdLessTransitive(a[1..], b[1..], c[1..]);
    }
  }

  lemma {:induction false} IdLessTotal(a: string, b: string)
    requires a != b
    ensures IdLess(a, b) || IdLess(b, a)
  {
    if |a| > 0 && |b| > 0 && a[0] == b[0] {
      assert a == [a[0]] + a[1..] && b == [b[0]] + b[1..];
      IdLessTotal(a[1..], b[1..]);
    }
  }

  /** `Before` is a strict total order on keys. */
  lemma BeforeStrictTotal(x: SortKey, y: SortKey, z: SortKey)
    ensures !Before(x, x)
    ensures Before(x, y) ==> !Before(y, x)
    ensures Before(x, y) && Before(y, z) ==> Before(x, z)
    ensures x != y ==> Before(x, y) || Before(y, x)
  {
    IdLessIrreflexive(x.id);
    if Before(x, y) && Before(y, x) {
      IdLessTransitive(x.id, y.id, x.id);
    }
    if Before(x, y) && Before(y, z) && x.rank == y.rank == z.rank {
      IdLessTransitive(x.id, y.id, z.id);
    }
    if x != y && x.rank == y.rank {
      IdLessTotal(x.id, y.id);
    }
  }

  /** Every earlier element strictly precedes every later one. */
  predicate Ordered<T>(s: seq<T>, key: T -> SortKey) {
    forall i, j :: 0 <= i < j < |s| ==> Before(key(s[i]), key(s[j]))
  }

  /** No two elements of `s` share a key. */
  predicate DistinctKeys<T>(s: seq<T>, key: T -> SortKey) {
    forall i, j :: 0 <= i < j < |s| ==> key(s[i]) != key(s[j])
  }

  /** An ordered sequence holds no element twice. */
  lemma OrderedDistinct<T>(s: seq<T>, key: T -> SortKey)
    requires Ordered(s, key)
    ensures DistinctKeys(s, key)
    ensures forall i, j :: 0 <= i < j < |s| ==> s[i] != s[j]
  {
    forall i, j | 0 <= i < j < |s| ensures key(s[i]) != key(s[j]) {
      BeforeStrictTotal(key(s[i]), key(s[j]), key(s[j]));
    }
  }

  /** Places `x` in front of the first element it precedes. */
  function Insert<T(!new)>(s: seq<T>, x: T, key: T -> SortKey): (r: seq<T>)
    ensures |r| == |s| + 1
    ensures forall y :: y in r <==> y in s || y == x
    ensures multiset(r) == multiset(s) + multiset{x}
  {
    if s == [] || Before(key(x), key(s[0])) then [x] + s
    else
      assert s == [s[0]] + s[1..];
      [s[0]] + Insert(s[1..], x, key)
  }

  lemma {:induction false} InsertOrdered<T(!new)>(s: seq<T>, x: T, key: T -> SortKey)
    requires Ordered(s, key)
    requires forall i :: 0 <= i < |s| ==> key(s[i]) != key(x)
    ensures Ordered(Insert(s, x, key), key)
  {
    if s == [] {
    } else if Before(key(x), key(s[0])) {
      forall j | 0 < j < |s| + 1 ensures Before(key(x), key(([x] + s)[j])) {
        BeforeStrictTotal(key(x), key(s[0]), key(s[j - 1]));
      }
    } else {
      BeforeStrictTotal(key(s[0]), key(x), key(x));
      InsertOrdered(s[1..], x, key);
      var r := Insert(s[1..], x, key);
      forall j | 0 <= j < |r| ensures Before(key(s[0]), key(r[j])) {
        assert r[j] in s[1..] || r[j] == x;
      }
    }
  }

  /** Insertion sort: the order a list reaches once stored and read back. */
  function Sort<T(!new)>(s: seq<T>, key: T -> SortKey): (r: seq<T>)
    ensures |r| == |s|
    ensures forall y :: y in r <==> y in s
    ensures multiset(r) == multiset(s)
  {
    if s == [] then []
    else
      assert s == s[..|s| - 1] + [s[|s| - 1]];
      Insert(Sort(s[..|s| - 1], key), s[|s| - 1], key)
  }

  lemma {:induction false} SortOrdered<T(!new)>(s: seq<T>, key: T -> SortKey)
    requires DistinctKeys(s, key)
    ensures Ordered(Sort(s, key), key)
  {
    if s != [] {
      var init := s[..|s| - 1];
      assert DistinctKeys(init, key);
      SortOrdered(init, key);
      var sorted := Sort(init, key);
      forall i | 0 <= i < |sorted| ensures key(sorted[i]) != key(s[|s| - 1]) {
        assert sorted[i] in init;
      }
      InsertOrdered(sorted, s[|s| - 1], key);
    }
  }

  lemma NothingOutsideEmpty<T>(b: seq<T>, a: seq<T>)
    requires forall y :: y in b ==> y in a
    ensures a == [] ==> b == []
  {
    if b != [] {
      assert b[0] in a;
    }
  }

  /**
   * An ordered listing is determined by the elements it lists: two ordered
   * sequences with the same elements are equal.
   */
  lemma {:induction false} OrderedUnique<T>(a: seq<T>, b: seq<T>, key: T -> SortKey)
    requires Ordered(a, key) && Ordered(b, key)
    requires forall y :: y in a <==> y in b
    ensures a == b
  {
    if a == [] {
      NothingOutsideEmpty(b, a);
    } else {
      assert b != [] by { assert a[0] in b; }
      if a[0] != b[0] {
        assert a[0] in b && b[0] in a;
        var i :| 0 <= i < |b| && b[i] == a[0];
        var j :| 0 <= j < |a| && a[j] == b[0];
        BeforeStrictTotal(key(a[0]), key(b[0]), key(a[0]));
        assert false;
      }
      OrderedDistinct(a, key);
      OrderedDistinct(b, key);
      forall y ensures y in a[1..] <==> y in b[1..] {
        if y in a[1..] {
          assert y in b && y != b[0];
        }
        if y in b[1..] {
          assert y in a && y != a[0];
        }
      }
      OrderedUnique(a[1..], b[1..], key);
      assert a == [a[0]] + a[1..] && b == [b[0]] + b[1..];
    }
  }
}
