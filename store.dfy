/** The remote row store as the hooks see it: what its awaited calls resolve to, and the
    ordering a query with an `order` clause applies to the rows it returns. */
module Store {
  import opened Wrappers

  /** What an awaited query or insert resolves to, the `{ data, error }` pair. A present
      `error` is thrown and caught by the hook; `data` may be null without an error. */
  datatype Answer<T> = Ok(data: Option<T>) | Err(message: string)

  /** What an awaited update or delete resolves to: only its `error` is read. */
  datatype Ack = Done | Refused(message: string)

  /** `s` is ordered by `key`, smallest first. */
  ghost predicate SortedByKey<T>(s: seq<T>, key: T -> int) {
    forall i, j :: 0 <= i < j < |s| ==> key(s[i]) <= key(s[j])
  }

  /** Every row of a sorted `s` after its first has a key no smaller than the first's. */
  lemma SortedTail<T>(s: seq<T>, key: T -> int)
    requires SortedByKey(s, key) && s != []
    ensures SortedByKey(s[1..], key)
    ensures forall k :: 0 <= k < |s[1..]| ==> key(s[0]) <= key(s[1..][k])
  {
  }

  /** A bound that holds of `x` and of every row of `s` holds of every row of a sequence
      with the same rows as `s` plus `x`. */
  lemma BoundCarries<T>(lo: int, x: T, s: seq<T>, r: seq<T>, key: T -> int)
    requires multiset(r) == multiset(s) + multiset{x}
    requires lo <= key(x) && forall k :: 0 <= k < |s| ==> lo <= key(s[k])
    ensures forall k :: 0 <= k < |r| ==> lo <= key(r[k])
  {
    forall k | 0 <= k < |r| ensures lo <= key(r[k]) {
      assert r[k] in multiset(r);
      if r[k] != x {
        assert r[k] in multiset(s);
        var m :| 0 <= m < |s| && s[m] == r[k];
      }
    }
  }

  /** Places `x` before the first element of the sorted `s` whose key is not smaller. */
  function InsertByKey<T>(x: T, s: seq<T>, key: T -> int): (r: seq<T>)
    requires SortedByKey(s, key)
    ensures SortedByKey(r, key)
    ensures multiset(r) == multiset(s) + multiset{x}
    decreases |s|
  {
    if |s| == 0 || key(x) <= key(s[0]) then
      [x] + s
    else
      SortedTail(s, key);
      var rest := InsertByKey(x, s[1..], key);
      BoundCarries(key(s[0]), x, s[1..], rest, key);
      assert s == [s[0]] + s[1..];
      [s[0]] + rest
  }

  /** The rows of `s` in ascending `key` order: what a query with an `order` clause returns. */
  function SortByKey<T>(s: seq<T>, key: T -> int): (r: seq<T>)
    ensures SortedByKey(r, key)
    ensures multiset(r) == multiset(s)
  {
    if |s| == 0 then []
    else
      assert s == [s[0]] + s[1..];
      InsertByKey(s[0], SortByKey(s[1..], key), key)
  }

  /** The rows after the first are the whole collection less that first row. */
  lemma TailMultiset<T>(s: seq<T>)
    requires |s| > 0
    ensures multiset(s[1..]) == multiset(s) - multiset{s[0]}
  {
    assert s == [s[0]] + s[1..];
  }

  /** Two sorted sequences with the same rows, whose key tells rows apart, start with the
      same row: the one with the smallest key. */
  lemma SameHead<T>(a: seq<T>, b: seq<T>, key: T -> int)
    requires multiset(a) == multiset(b) && a != []
    requires SortedByKey(a, key) && SortedByKey(b, key) && KeyDistinct(a, key)
    ensures b != [] && a[0] == b[0]
  {
    assert a[0] in multiset(b);
    var j :| 0 <= j < |b| && b[j] == a[0];
    assert b[0] in multiset(a);
    var i :| 0 <= i < |a| && a[i] == b[0];
    assert key(a[0]) <= key(a[i]) == key(b[0]) <= key(b[j]) == key(a[0]);
  }

  /** Key-distinct rows: two rows of `a` with the same key are the same row. */
  ghost predicate KeyDistinct<T>(a: seq<T>, key: T -> int) {
    forall x, y :: x in a && y in a && key(x) == key(y) ==> x == y
  }

  /** The tails of two sorted, key-distinct permutations of each other are again such. */
  lemma TailsAgree<T>(a: seq<T>, b: seq<T>, key: T -> int)
    requires multiset(a) == multiset(b) && a != [] && b != [] && a[0] == b[0]
    requires SortedByKey(a, key) && SortedByKey(b, key) && KeyDistinct(a, key)
    ensures multiset(a[1..]) == multiset(b[1..])
    ensures SortedByKey(a[1..], key) && SortedByKey(b[1..], key) && KeyDistinct(a[1..], key)
  {
    TailMultiset(a);
    TailMultiset(b);
    SortedTail(a, key);
    SortedTail(b, key);
    forall x, y | x in a[1..] && y in a[1..] && key(x) == key(y) ensures x == y {
      assert x in a && y in a;
    }
  }

  /** When the key tells apart any two different rows, there is only one ordering of a
      given collection of rows: two sorted permutations of each other are equal. */
  lemma {:induction false} SortedPermutationUnique<T>(a: seq<T>, b: seq<T>, key: T -> int)
    requires multiset(a) == multiset(b)
    requires SortedByKey(a, key) && SortedByKey(b, key)
    requires KeyDistinct(a, key)
    ensures a == b
    decreases |a|
  {
    assert |a| == |multiset(a)| == |multiset(b)| == |b|;
    if a != [] {
      SameHead(a, b, key);
      TailsAgree(a, b, key);
      SortedPermutationUnique(a[1..], b[1..], key);
      assert a == [a[0]] + a[1..] && b == [b[0]] + b[1..];
    }
  }
}
