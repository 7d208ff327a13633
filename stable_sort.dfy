/**
  A stable sort by a numeric key, as JavaScript's `Array.prototype.sort` does with a comparator
  `(a, b) => key(a) - key(b)` (the standard requires stability). It is written as an insertion sort,
  and proved sorted, a permutation of its input and stable; its first element is the first element of
  minimal key and its last element the last element of maximal key.
 */
module StableSort {

  predicate SortedBy<T>(s: seq<T>, key: T -> real) {
    forall i, j :: 0 <= i < j < |s| ==> key(s[i]) <= key(s[j])
  }

  /** The elements of `s` whose key is `v`, in their order in `s`. */
  function WithKey<T>(s: seq<T>, key: T -> real, v: real): seq<T> {
    if |s| == 0 then []
    else if key(s[0]) == v then [s[0]] + WithKey(s[1..], key, v)
    else WithKey(s[1..], key, v)
  }

  /** Puts `x` in front of the first element whose key is not smaller than its own. */
  function Insert<T(==)>(x: T, t: seq<T>, key: T -> real): (r: seq<T>)
    ensures multiset(r) == multiset(t) + multiset{x}
  {
    if |t| == 0 || key(x) <= key(t[0]) then [x] + t
    else
      assert t == [t[0]] + t[1..];
      [t[0]] + Insert(x, t[1..], key)
  }

  lemma {:induction false} InsertSorted<T>(x: T, t: seq<T>, key: T -> real)
    requires SortedBy(t, key)
    ensures SortedBy(Insert(x, t, key), key)
  {
    if |t| > 0 && key(x) > key(t[0]) {
      var rest := Insert(x, t[1..], key);
      InsertSorted(x, t[1..], key);
      forall i | 0 <= i < |rest|
        ensures key(t[0]) <= key(rest[i])
      {
        assert rest[i] in multiset(rest);
        assert rest[i] == x || rest[i] in multiset(t[1..]);
        if rest[i] != x {
          var j :| 0 <= j < |t[1..]| && t[1..][j] == rest[i];
          assert t[j + 1] == rest[i];
        }
      }
    }
  }

  /** `[...s].sort((a, b) => key(a) - key(b))` */
  function Sort<T(==)>(s: seq<T>, key: T -> real): (r: seq<T>)
    ensures multiset(r) == multiset(s)
    ensures SortedBy(r, key)
  {
    if |s| == 0 then []
    else
      assert s == [s[0]] + s[1..];
      InsertSorted(s[0], Sort(s[1..], key), key);
      Insert(s[0], Sort(s[1..], key), key)
  }

  /** The ends of the sorted sequence are elements of the input, of least and of greatest key. */
  lemma SortEnds<T>(s: seq<T>, key: T -> real)
    requires |s| > 0
    ensures var r := Sort(s, key);
      && |r| == |s| && r[0] in s && r[|r| - 1] in s
      && forall x :: x in s ==> key(r[0]) <= key(x) <= key(r[|r| - 1])
  {
    var r := Sort(s, key);
    assert |r| == |multiset(r)| == |multiset(s)| == |s|;
    assert r[0] in multiset(r) && r[|r| - 1] in multiset(r);
    forall x | x in s ensures key(r[0]) <= key(x) <= key(r[|r| - 1]) {
      assert x in multiset(r);
      var j :| 0 <= j < |r| && r[j] == x;
    }
  }

  lemma {:induction false} InsertWithKey<T>(x: T, t: seq<T>, key: T -> real, v: real)
    ensures WithKey(Insert(x, t, key), key, v) == if key(x) == v then [x] + WithKey(t, key, v) else WithKey(t, key, v)
  {
    if |t| == 0 || key(x) <= key(t[0]) {
      assert ([x] + t)[1..] == t;
    } else {
      InsertWithKey(x, t[1..], key, v);
      assert ([t[0]] + Insert(x, t[1..], key))[1..] == Insert(x, t[1..], key);
    }
  }

  /** Stability: the elements sharing any one key keep the order they had in the input. */
  lemma {:induction false} SortIsStable<T>(s: seq<T>, key: T -> real, v: real)
    ensures WithKey(Sort(s, key), key, v) == WithKey(s, key, v)
  {
    if |s| > 0 {
      SortIsStable(s[1..], key, v);
      InsertWithKey(s[0], Sort(s[1..], key), key, v);
    }
  }

  /** `k` is the first position of a minimal key in `s`. */
  predicate IsFirstMin<T>(s: seq<T>, key: T -> real, k: int) {
    && 0 <= k < |s|
    && (forall j :: 0 <= j < |s| ==> key(s[k]) <= key(s[j]))
    && (forall j :: 0 <= j < k ==> key(s[k]) < key(s[j]))
  }

  /** `k` is the last position of a maximal key in `s`. */
  predicate IsLastMax<T>(s: seq<T>, key: T -> real, k: int) {
    && 0 <= k < |s|
    && (forall j :: 0 <= j < |s| ==> key(s[j]) <= key(s[k]))
    && (forall j :: k < j < |s| ==> key(s[j]) < key(s[k]))
  }

  /** Scanning one more element: it becomes the first minimum only if its key is strictly smaller. */
  lemma FirstMinExtend<T>(s: seq<T>, key: T -> real, k: nat, at: int)
    requires k < |s|
    requires k == 0 || IsFirstMin(s[..k], key, at)
    ensures IsFirstMin(s[..k + 1], key, if k == 0 || key(s[k]) < key(s[at]) then k else at)
  {
    var p := s[..k + 1];
    assert forall j :: 0 <= j < k ==> p[j] == s[..k][j];
  }

  function FirstMin<T>(s: seq<T>, key: T -> real): (k: nat)
    requires |s| > 0
    ensures IsFirstMin(s, key, k)
  {
    if |s| == 1 then 0
    else
      var k := FirstMin(s[1..], key);
      if key(s[0]) <= key(s[k + 1]) then 0 else k + 1
  }

  function LastMax<T>(s: seq<T>, key: T -> real): (k: nat)
    requires |s| > 0
    ensures IsLastMax(s, key, k)
  {
    if |s| == 1 then 0
    else
      var k := LastMax(s[1..], key);
      if key(s[0]) > key(s[k + 1]) then 0 else k + 1
  }

  /** The first element of the sorted sequence is the first element of minimal key. */
  lemma {:induction false} SortHead<T>(s: seq<T>, key: T -> real)
    requires |s| > 0
    ensures Sort(s, key)[0] == s[FirstMin(s, key)]
  {
    if |s| > 1 {
      SortHead(s[1..], key);
    }
  }

  lemma {:induction false} InsertLast<T>(x: T, t: seq<T>, key: T -> real)
    requires |t| > 0 && SortedBy(t, key)
    ensures var r := Insert(x, t, key);
      r[|r| - 1] == if key(x) > key(t[|t| - 1]) then x else t[|t| - 1]
  {
    if key(x) > key(t[0]) && |t| > 1 {
      InsertLast(x, t[1..], key);
    }
  }

  /** The last element of the sorted sequence is the last element of maximal key. */
  lemma {:induction false} SortLast<T>(s: seq<T>, key: T -> real)
    requires |s| > 0
    ensures var r := Sort(s, key); |r| == |s| && r[|r| - 1] == s[LastMax(s, key)]
  {
    var r := Sort(s, key);
    assert |r| == |multiset(r)| == |multiset(s)| == |s|;
    if |s| > 1 {
      SortLast(s[1..], key);
      InsertLast(s[0], Sort(s[1..], key), key);
    }
  }
}
