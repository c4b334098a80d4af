/**
  The relational building blocks the store's queries are made of: selection
  (WHERE), ordering (ORDER BY, a total preorder without tie-break), and
  LIMIT/OFFSET windows.
 */
module Sequences {
  import opened Wrappers

  /** `le` orders every pair and is transitive: what an ORDER BY key gives. */
  ghost predicate TotalPreorder<T(!new)>(le: (T, T) -> bool) {
    && (forall a, b :: le(a, b) || le(b, a))
    && (forall a, b, c :: le(a, b) && le(b, c) ==> le(a, c))
  }

  ghost predicate SortedBy<T>(s: seq<T>, le: (T, T) -> bool) {
    forall i, j :: 0 <= i < j < |s| ==> le(s[i], s[j])
  }

  /** No value occurs twice. */
  ghost predicate Distinct<T>(s: seq<T>) {
    forall i, j :: 0 <= i < j < |s| ==> s[i] != s[j]
  }

  /** WHERE p: keeps every element that satisfies p, each as often as it occurs. */
  function Filter<T(!new)>(s: seq<T>, p: T -> bool): (r: seq<T>)
    ensures |r| <= |s|
    ensures forall x :: x in r <==> x in s && p(x)
    ensures forall x :: multiset(r)[x] == if p(x) then multiset(s)[x] else 0
  {
    if s == [] then []
    else
      assert s == [s[0]] + s[1..];
      if p(s[0]) then [s[0]] + Filter(s[1..], p) else Filter(s[1..], p)
  }

  /** Number of elements satisfying p (COUNT(*) ... WHERE p). */
  function Count<T(!new)>(s: seq<T>, p: T -> bool): (n: nat)
    ensures n == |Filter(s, p)|
    ensures n == 0 <==> forall x :: x in s ==> !p(x)
    ensures n <= |s|
  {
    if s == [] then 0
    else
      assert s == [s[0]] + s[1..];
      (if p(s[0]) then 1 else 0) + Count(s[1..], p)
  }

  /** Inserts x before the first element it does not follow. */
  function Insert<T(!new)>(x: T, s: seq<T>, le: (T, T) -> bool): (r: seq<T>)
    requires TotalPreorder(le)
    requires SortedBy(s, le)
    ensures multiset(r) == multiset(s) + multiset{x}
    ensures SortedBy(r, le)
  {
    if s == [] then [x]
    else if le(x, s[0]) then
      assert forall j :: 0 < j < |s| + 1 ==> le(x, ([x] + s)[j]) by {
        forall j | 0 < j < |s| + 1 ensures le(x, ([x] + s)[j]) {
          if j > 1 { assert le(s[0], s[j - 1]); }
        }
      }
      [x] + s
    else
      var rest := Insert(x, s[1..], le);
      assert s == [s[0]] + s[1..];
      HeadPrecedesInsertion(x, s, rest, le);
      assert forall j :: 0 < j < |rest| + 1 ==> ([s[0]] + rest)[j] == rest[j - 1];
      [s[0]] + rest
  }

  /** The head of a sorted sequence precedes everything in the insertion of a later x into its tail. */
  lemma HeadPrecedesInsertion<T(!new)>(x: T, s: seq<T>, rest: seq<T>, le: (T, T) -> bool)
    requires TotalPreorder(le)
    requires s != [] && SortedBy(s, le) && !le(x, s[0])
    requires multiset(rest) == multiset(s[1..]) + multiset{x}
    ensures forall y :: y in rest ==> le(s[0], y)
  {
    assert le(s[0], x);
    forall y | y in rest ensures le(s[0], y) {
      assert y in multiset(rest);
      if y != x {
        assert y in multiset(s[1..]);
        var k :| 0 <= k < |s[1..]| && s[1..][k] == y;
        assert s[k + 1] == y;
      }
    }
  }

  /**
    ORDER BY le. The order among elements that `le` ties is the stable one; the
    contract does not promise it, since the queries do not either.
   */
  function Sort<T(!new)>(s: seq<T>, le: (T, T) -> bool): (r: seq<T>)
    requires TotalPreorder(le)
    ensures multiset(r) == multiset(s)
    ensures |r| == |s|
    ensures SortedBy(r, le)
  {
    if s == [] then []
    else
      assert s == [s[0]] + s[1..];
      Insert(s[0], Sort(s[1..], le), le)
  }

  /** ORDER BY le LIMIT 1: an element no other element precedes, None on no rows. */
  function FirstBy<T(!new)>(s: seq<T>, le: (T, T) -> bool): (r: Option<T>)
    requires TotalPreorder(le)
    ensures r.None? <==> s == []
    ensures r.Some? ==> r.value in s && forall x :: x in s ==> le(r.value, x)
  {
    var c := Sort(s, le);
    if c == [] then None
    else
      assert forall x :: x in s ==> x in multiset(c);
      assert c[0] in multiset(s);
      assert forall j :: 0 < j < |c| ==> le(c[0], c[j]);
      Some(c[0])
  }

  /** LIMIT limit OFFSET offset, for non-negative limit and offset. */
  function Window<T>(s: seq<T>, limit: nat, offset: nat): (r: seq<T>)
    ensures |r| == if offset >= |s| then 0 else Min(limit, |s| - offset)
    ensures forall k :: 0 <= k < |r| ==> r[k] == s[offset + k]
    ensures multiset(r) <= multiset(s)
  {
    if offset >= |s| then []
    else
      var e := offset + Min(limit, |s| - offset);
      assert s == s[..offset] + s[offset..e] + s[e..];
      s[offset..e]
  }

  /**
    LIMIT limit OFFSET offset as PostgreSQL evaluates it: a negative LIMIT or
    OFFSET is rejected (None), otherwise the window of the ordered rows.
   */
  function Page<T>(s: seq<T>, limit: int, offset: int): (r: Option<seq<T>>)
    ensures r.None? <==> limit < 0 || offset < 0
    ensures r.Some? ==> |r.value| == if offset >= |s| then 0 else Min(limit, |s| - offset)
    ensures r.Some? ==> forall k :: 0 <= k < |r.value| ==> r.value[k] == s[offset + k]
    ensures r.Some? ==> multiset(r.value) <= multiset(s)
  {
    if limit < 0 || offset < 0 then None else Some(Window(s, limit, offset))
  }

  /** The image of every element under f, in order. */
  function Map<T, U>(s: seq<T>, f: T -> U): (r: seq<U>)
    ensures |r| == |s| && forall i :: 0 <= i < |s| ==> r[i] == f(s[i])
  {
    seq(|s|, i requires 0 <= i < |s| => f(s[i]))
  }

  lemma MapConcat<T, U>(a: seq<T>, b: seq<T>, f: T -> U)
    ensures Map(a + b, f) == Map(a, f) + Map(b, f)
  {
  }

  /** Taking images keeps a sub-multiset a sub-multiset: a page of rows maps into the images of all rows. */
  lemma {:induction false} MapKeepsSubMultiset<T, U>(a: seq<T>, b: seq<T>, f: T -> U)
    requires multiset(a) <= multiset(b)
    ensures multiset(Map(a, f)) <= multiset(Map(b, f))
    decreases |a|
  {
    if a != [] {
      var x := a[0];
      assert x in multiset(b);
      var k :| 0 <= k < |b| && b[k] == x;
      var rest := b[..k] + b[k + 1..];
      assert b == b[..k] + [x] + b[k + 1..];
      assert a == [x] + a[1..];
      assert multiset(b) == multiset(rest) + multiset{x};
      assert multiset(a) == multiset{x} + multiset(a[1..]);
      assert multiset(a[1..]) <= multiset(rest) by {
        forall y ensures multiset(a[1..])[y] <= multiset(rest)[y] {
          assert multiset(a)[y] <= multiset(b)[y];
        }
      }
      MapKeepsSubMultiset(a[1..], rest, f);
      MapConcat([x], a[1..], f);
      MapConcat(b[..k], b[k + 1..], f);
      MapConcat(b[..k] + [x], b[k + 1..], f);
      MapConcat(b[..k], [x], f);
    }
  }

  /** Images of a permutation are a permutation of the images. */
  lemma MapKeepsPermutation<T, U>(a: seq<T>, b: seq<T>, f: T -> U)
    requires multiset(a) == multiset(b)
    ensures multiset(Map(a, f)) == multiset(Map(b, f))
  {
    MapKeepsSubMultiset(a, b, f);
    MapKeepsSubMultiset(b, a, f);
    var ma, mb := multiset(Map(a, f)), multiset(Map(b, f));
    assert forall y :: ma[y] == mb[y] by {
      forall y ensures ma[y] == mb[y] {
        assert ma[y] <= mb[y] && mb[y] <= ma[y];
      }
    }
  }

  /** Taking images commutes with LIMIT/OFFSET. */
  lemma MapWindow<T, U>(s: seq<T>, f: T -> U, limit: nat, offset: nat)
    ensures Map(Window(s, limit, offset), f) == Window(Map(s, f), limit, offset)
  {
  }

  function Min(a: int, b: int): int {
    if a <= b then a else b
  }

  lemma {:induction false} FilterKeepsDistinct<T(!new)>(s: seq<T>, p: T -> bool)
    requires Distinct(s)
    ensures Distinct(Filter(s, p))
  {
    if s != [] {
      FilterKeepsDistinct(s[1..], p);
      HeadNotInTail(s);
    }
  }

  lemma {:induction false} DistinctCountAtMostOne<T>(s: seq<T>, x: T)
    requires Distinct(s)
    ensures multiset(s)[x] <= 1
  {
    if s != [] {
      assert s == [s[0]] + s[1..];
      DistinctCountAtMostOne(s[1..], x);
      if x == s[0] {
        HeadNotInTail(s);
      }
    }
  }

  lemma HeadNotInTail<T>(s: seq<T>)
    requires s != [] && Distinct(s)
    ensures s[0] !in s[1..]
  {
    forall k | 0 <= k < |s| - 1 ensures s[1..][k] != s[0] {
      assert s[1..][k] == s[k + 1];
    }
  }

  /** A permutation of a sequence without repetitions has none either. */
  lemma PermutationKeepsDistinct<T>(a: seq<T>, b: seq<T>)
    requires Distinct(a)
    requires multiset(a) == multiset(b)
    ensures Distinct(b)
  {
    forall i, j | 0 <= i < j < |b| ensures b[i] != b[j] {
      if b[i] == b[j] {
        assert b == b[..j] + b[j..];
        assert b[i] in b[..j];
        assert b[j] in b[j..];
        assert multiset(b)[b[i]] >= 2;
        DistinctCountAtMostOne(a, b[i]);
        assert false;
      }
    }
  }

  /** No two elements share a key, and no element occurs twice: a primary key. */
  ghost predicate UniqueBy<T, K>(s: seq<T>, key: T -> K) {
    && Distinct(s)
    && forall x, y :: x in s && y in s && key(x) == key(y) ==> x == y
  }

  /** Stores x under its key: every element with that key is dropped, x is added. */
  function UpsertBy<T(!new), K(==)>(s: seq<T>, x: T, key: T -> K): (r: seq<T>)
    ensures x in r
    ensures forall y :: y in r <==> y == x || (y in s && key(y) != key(x))
  {
    Filter(s, y => key(y) != key(x)) + [x]
  }

  /** UPDATE ... SET f WHERE p: each element satisfying p is replaced by its image. */
  function UpdateWhere<T>(s: seq<T>, p: T -> bool, f: T -> T): (r: seq<T>)
    ensures |r| == |s|
    ensures forall i :: 0 <= i < |s| ==> r[i] == if p(s[i]) then f(s[i]) else s[i]
  {
    if s == [] then [] else [if p(s[0]) then f(s[0]) else s[0]] + UpdateWhere(s[1..], p, f)
  }

  lemma UpsertKeepsUnique<T(!new), K>(s: seq<T>, x: T, key: T -> K)
    requires UniqueBy(s, key)
    ensures UniqueBy(UpsertBy(s, x, key), key)
  {
    var kept := Filter(s, y => key(y) != key(x));
    FilterKeepsDistinct(s, y => key(y) != key(x));
    var r := kept + [x];
    forall i, j | 0 <= i < j < |r| ensures r[i] != r[j] {
      if j < |kept| {
        assert r[i] == kept[i] && r[j] == kept[j];
      } else {
        assert r[i] in kept;
      }
    }
  }

  /** An update that keeps every key keeps the keys unique. */
  lemma UpdateWhereKeepsUnique<T, K>(s: seq<T>, p: T -> bool, f: T -> T, key: T -> K)
    requires UniqueBy(s, key)
    requires forall x :: key(f(x)) == key(x)
    ensures UniqueBy(UpdateWhere(s, p, f), key)
  {
    var r := UpdateWhere(s, p, f);
    forall i, j | 0 <= i < j < |r| ensures r[i] != r[j] {
      assert key(r[i]) == key(s[i]) && key(r[j]) == key(s[j]);
      assert s[i] in s && s[j] in s;
    }
    forall x, y | x in r && y in r && key(x) == key(y) ensures x == y {
      var i :| 0 <= i < |r| && r[i] == x;
      var j :| 0 <= j < |r| && r[j] == y;
      assert key(s[i]) == key(x) && key(s[j]) == key(y);
      assert s[i] in s && s[j] in s;
      assert s[i] == s[j];
    }
  }

  /** An update that matches nothing changes nothing. */
  lemma {:induction false} UpdateWhereNoMatch<T>(s: seq<T>, p: T -> bool, f: T -> T)
    requires forall x :: x in s ==> !p(x)
    ensures UpdateWhere(s, p, f) == s
  {
    if s != [] {
      UpdateWhereNoMatch(s[1..], p, f);
    }
  }

  /** A selection that neither an updated element nor its image satisfies does not see the update. */
  lemma {:induction false} FilterUpdateWhere<T(!new)>(s: seq<T>, p: T -> bool, f: T -> T, q: T -> bool)
    requires forall x :: p(x) ==> !q(x) && !q(f(x))
    ensures Filter(UpdateWhere(s, p, f), q) == Filter(s, q)
  {
    if s != [] {
      var r := UpdateWhere(s, p, f);
      assert r[1..] == UpdateWhere(s[1..], p, f);
      FilterUpdateWhere(s[1..], p, f, q);
    }
  }

  lemma {:induction false} FilterAppend<T(!new)>(s: seq<T>, t: seq<T>, q: T -> bool)
    ensures Filter(s + t, q) == Filter(s, q) + Filter(t, q)
  {
    if s == [] {
      assert s + t == t;
    } else {
      assert (s + t)[1..] == s[1..] + t;
      FilterAppend(s[1..], t, q);
    }
  }

  /** Selecting by q after selecting by a weaker p is selecting by q. */
  lemma {:induction false} FilterFilter<T(!new)>(s: seq<T>, p: T -> bool, q: T -> bool)
    requires forall x :: q(x) ==> p(x)
    ensures Filter(Filter(s, p), q) == Filter(s, q)
  {
    if s != [] {
      FilterFilter(s[1..], p, q);
    }
  }

  lemma UniqueByTail<T, K>(s: seq<T>, key: T -> K)
    requires s != [] && UniqueBy(s, key)
    ensures UniqueBy(s[1..], key)
  {
    forall i, j | 0 <= i < j < |s| - 1 ensures s[1..][i] != s[1..][j] {
      assert s[1..][i] == s[i + 1] && s[1..][j] == s[j + 1];
    }
    forall x | x in s[1..] ensures x in s {
    }
  }

  /** A selection confined to other keys does not see an upsert. */
  lemma UpsertOtherKeys<T(!new), K>(s: seq<T>, x: T, key: T -> K, q: T -> bool)
    requires forall y :: q(y) ==> key(y) != key(x)
    ensures Filter(UpsertBy(s, x, key), q) == Filter(s, q)
  {
    var notX := y => key(y) != key(x);
    FilterAppend(Filter(s, notX), [x], q);
    FilterFilter(s, notX, q);
    assert Filter([x], q) == [];
  }

  /** A selection confined to the upserted key sees exactly the upserted element. */
  lemma UpsertSameKey<T(!new), K>(s: seq<T>, x: T, key: T -> K, q: T -> bool)
    requires q(x)
    requires forall y :: q(y) ==> key(y) == key(x)
    ensures Filter(UpsertBy(s, x, key), q) == [x]
  {
    var kept := Filter(s, y => key(y) != key(x));
    FilterAppend(kept, [x], q);
    assert Filter(kept, q) == [] by {
      forall y | y in kept ensures !q(y) {
      }
    }
  }
}
