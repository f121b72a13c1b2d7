/** Python's `list.sort(key=k, reverse=True)`: a stable sort into non-increasing
    key order. Python's sort is stable also when `reverse=True` (equal keys keep
    their original order), so it is specified here by three facts that together
    determine the result: sorted, a permutation, and, for every key value, the
    elements carrying it appear in their original order. */
module StableSort {
  import opened Text

  ghost predicate SortedDesc<T>(s: seq<T>, key: T -> real) {
    forall i, j :: 0 <= i < j < |s| ==> key(s[i]) >= key(s[j])
  }

  /** The elements of `s` whose key is `v`, in their order in `s`. */
  function WithKey<T>(s: seq<T>, key: T -> real, v: real): (r: seq<T>)
    ensures |r| <= |s|
  {
    if s == [] then [] else (if key(s[0]) == v then [s[0]] else []) + WithKey(s[1..], key, v)
  }

  /** Inserts `x` after every element whose key is at least `key(x)`. */
  function InsertDesc<T>(x: T, s: seq<T>, key: T -> real): (r: seq<T>)
    requires SortedDesc(s, key)
    ensures SortedDesc(r, key)
    ensures multiset(r) == multiset(s) + multiset{x}
    ensures |r| == |s| + 1
  {
    if s == [] then [x]
    else if key(s[0]) >= key(x) then
      var tail := InsertDesc(x, s[1..], key);
      assert s == [s[0]] + s[1..];
      InsertedBehind(s[0], x, s[1..], tail, key);
      [s[0]] + tail
    else
      [x] + s
  }

  /** Inserting `x` into the tail of a sorted list whose head outranks `x`. */
  lemma InsertedBehind<T>(a: T, x: T, s: seq<T>, t: seq<T>, key: T -> real)
    requires SortedDesc([a] + s, key) && key(a) >= key(x)
    requires SortedDesc(t, key) && multiset(t) == multiset(s) + multiset{x}
    ensures SortedDesc([a] + t, key)
    ensures multiset([a] + t) == multiset([a] + s) + multiset{x}
  {
    forall m | 0 <= m < |s| ensures key(a) >= key(s[m]) {
      assert ([a] + s)[0] == a && ([a] + s)[m + 1] == s[m];
    }
    HeadBoundsInsert(a, x, s, t, key);
    forall i, j | 0 <= i < j < |[a] + t| ensures key(([a] + t)[i]) >= key(([a] + t)[j]) {
      if i > 0 {
        assert ([a] + t)[i] == t[i - 1] && ([a] + t)[j] == t[j - 1];
      }
    }
  }

  /** An element whose key bounds those of `s` and of `x` bounds every element
      of a list holding `s` and `x`. */
  lemma HeadBoundsInsert<T>(a: T, x: T, s: seq<T>, t: seq<T>, key: T -> real)
    requires forall m :: 0 <= m < |s| ==> key(a) >= key(s[m])
    requires key(a) >= key(x) && multiset(t) == multiset(s) + multiset{x}
    ensures forall j :: 0 <= j < |t| ==> key(a) >= key(t[j])
  {
    forall j | 0 <= j < |t| ensures key(a) >= key(t[j]) {
      assert t[j] in multiset(t);
      if t[j] != x {
        assert t[j] in multiset(s);
        var m :| 0 <= m < |s| && s[m] == t[j];
      }
    }
  }

  /** `sorted(s, key=key, reverse=True)`. */
  function SortDesc<T>(s: seq<T>, key: T -> real): (r: seq<T>)
    ensures SortedDesc(r, key)
    ensures multiset(r) == multiset(s)
    ensures |r| == |s|
  {
    if s == [] then []
    else
      assert s == s[..|s| - 1] + [s[|s| - 1]];
      InsertDesc(s[|s| - 1], SortDesc(s[..|s| - 1], key), key)
  }

  lemma {:induction false} WithKeyAppend<T>(s: seq<T>, x: T, key: T -> real, v: real)
    ensures WithKey(s + [x], key, v) == WithKey(s, key, v) + (if key(x) == v then [x] else [])
  {
    if s != [] {
      assert (s + [x])[1..] == s[1..] + [x];
      WithKeyAppend(s[1..], x, key, v);
    }
  }

  lemma {:induction false} WithKeyNone<T>(s: seq<T>, key: T -> real, v: real)
    requires forall i :: 0 <= i < |s| ==> key(s[i]) < v
    ensures WithKey(s, key, v) == []
  {
    if s != [] {
      WithKeyNone(s[1..], key, v);
    }
  }

  /** Insertion keeps the elements of each key in order and puts `x` after its equals. */
  lemma {:induction false} InsertDescStable<T>(x: T, s: seq<T>, key: T -> real, v: real)
    requires SortedDesc(s, key)
    ensures WithKey(InsertDesc(x, s, key), key, v)
         == WithKey(s, key, v) + (if key(x) == v then [x] else [])
  {
    if s != [] {
      if key(s[0]) >= key(x) {
        SortedTail(s, key);
        InsertDescStable(x, s[1..], key, v);
        InsertBehindHead(s[0], s[1..], InsertDesc(x, s[1..], key), if key(x) == v then [x] else [], key, v);
        assert [s[0]] + s[1..] == s;
      } else {
        InsertInFront(x, s, key, v);
      }
    }
  }

  lemma SortedTail<T>(s: seq<T>, key: T -> real)
    requires s != [] && SortedDesc(s, key)
    ensures SortedDesc(s[1..], key)
  {
    forall i, j | 0 <= i < j < |s[1..]|
      ensures key(s[1..][i]) >= key(s[1..][j])
    {
      assert s[1..][i] == s[i + 1] && s[1..][j] == s[j + 1];
    }
  }

  lemma InsertBehindHead<T>(y: T, t: seq<T>, tail: seq<T>, extra: seq<T>, key: T -> real, v: real)
    requires WithKey(tail, key, v) == WithKey(t, key, v) + extra
    ensures WithKey([y] + tail, key, v) == WithKey([y] + t, key, v) + extra
  {
    WithKeyCons(y, tail, key, v);
    WithKeyCons(y, t, key, v);
  }

  lemma WithKeyCons<T>(y: T, t: seq<T>, key: T -> real, v: real)
    ensures WithKey([y] + t, key, v) == (if key(y) == v then [y] else []) + WithKey(t, key, v)
  {
    assert ([y] + t)[1..] == t;
  }

  lemma InsertInFront<T>(x: T, s: seq<T>, key: T -> real, v: real)
    requires s != [] && SortedDesc(s, key) && key(s[0]) < key(x)
    ensures WithKey(InsertDesc(x, s, key), key, v)
         == WithKey(s, key, v) + (if key(x) == v then [x] else [])
  {
    assert InsertDesc(x, s, key) == [x] + s;
    assert ([x] + s)[1..] == s;
    if key(x) == v {
      forall i | 0 <= i < |s|
        ensures key(s[i]) < v
      {
        assert i == 0 || key(s[0]) >= key(s[i]);
      }
      WithKeyNone(s, key, v);
    }
  }

  /** Stability: the sort never reorders two elements with the same key. */
  lemma {:induction false} SortDescStable<T>(s: seq<T>, key: T -> real, v: real)
    ensures WithKey(SortDesc(s, key), key, v) == WithKey(s, key, v)
  {
    if s != [] {
      SortDescStable(s[..|s| - 1], key, v);
      SortDescUnfold(s, key);
      StableStep(s, SortDesc(s[..|s| - 1], key), key, v);
    }
  }

  /** One insertion step of the stability proof: inserting the last element of
      `s` into any sorted `sorted` that keeps the order of each key of the
      other elements keeps the order of each key of `s`. */
  lemma StableStep<T>(s: seq<T>, sorted: seq<T>, key: T -> real, v: real)
    requires s != [] && SortedDesc(sorted, key)
    requires WithKey(sorted, key, v) == WithKey(s[..|s| - 1], key, v)
    ensures WithKey(InsertDesc(s[|s| - 1], sorted, key), key, v) == WithKey(s, key, v)
  {
    InsertDescStable(s[|s| - 1], sorted, key, v);
    WithKeyLast(s, key, v);
  }

  lemma WithKeyLast<T>(s: seq<T>, key: T -> real, v: real)
    requires s != []
    ensures WithKey(s, key, v) == WithKey(s[..|s| - 1], key, v) + (if key(s[|s| - 1]) == v then [s[|s| - 1]] else [])
  {
    WithKeyAppend(s[..|s| - 1], s[|s| - 1], key, v);
    assert s[..|s| - 1] + [s[|s| - 1]] == s;
  }

  /** Cutting a list to its first `n` elements keeps, for each key, a prefix
      of the elements carrying it. */
  lemma {:induction false} WithKeyTake<T>(s: seq<T>, key: T -> real, v: real, n: nat)
    ensures var kept, all := WithKey(Take(s, n), key, v), WithKey(s, key, v);
      |kept| <= |all| && kept == all[..|kept|]
    decreases |s|
  {
    if |s| > n {
      var init := s[..|s| - 1];
      WithKeyTake(init, key, v, n);
      WithKeyAppend(init, s[|s| - 1], key, v);
      assert init + [s[|s| - 1]] == s;
      assert Take(init, n) == Take(s, n);
    }
  }

  /** Each element with the key is drawn from the list. */
  lemma WithKeyFrom<T>(s: seq<T>, key: T -> real, v: real)
    ensures forall x :: x in WithKey(s, key, v) ==> x in s && key(x) == v
  {
  }

  lemma SortDescUnfold<T>(s: seq<T>, key: T -> real)
    requires s != []
    ensures SortDesc(s, key) == InsertDesc(s[|s| - 1], SortDesc(s[..|s| - 1], key), key)
  {
  }

  /** Sorting a list that is already in non-increasing order leaves it unchanged. */
  lemma {:induction false} SortDescSorted<T>(s: seq<T>, key: T -> real)
    requires SortedDesc(s, key)
    ensures SortDesc(s, key) == s
  {
    if s != [] {
      var init, last := s[..|s| - 1], s[|s| - 1];
      SortDescSorted(init, key);
      InsertAtEnd(last, init, key);
      assert init + [last] == s;
    }
  }

  lemma {:induction false} InsertAtEnd<T>(x: T, s: seq<T>, key: T -> real)
    requires SortedDesc(s, key)
    requires forall i :: 0 <= i < |s| ==> key(s[i]) >= key(x)
    ensures InsertDesc(x, s, key) == s + [x]
  {
    if s != [] {
      InsertAtEnd(x, s[1..], key);
      assert [s[0]] + (s[1..] + [x]) == s + [x];
    }
  }

  /** The first `k` elements of a sorted list are sorted and come from it. */
  lemma TakeSorted<T>(s: seq<T>, key: T -> real, k: nat)
    requires SortedDesc(s, key)
    ensures SortedDesc(if |s| <= k then s else s[..k], key)
    ensures multiset(if |s| <= k then s else s[..k]) <= multiset(s)
  {
    if |s| > k {
      assert s == s[..k] + s[k..];
    }
  }

  /** Sorting draws its elements from `s`: what holds of every element of `s`
      holds of every element of the sorted list. */
  lemma SortedKeeps<T>(s: seq<T>, key: T -> real, p: T -> bool)
    requires forall x :: x in s ==> p(x)
    ensures forall i :: 0 <= i < |SortDesc(s, key)| ==> p(SortDesc(s, key)[i])
  {
    var r := SortDesc(s, key);
    forall i | 0 <= i < |r| ensures p(r[i]) {
      assert r[i] in multiset(r);
    }
  }

  /** The first `n` elements of the sorted list are sorted, are drawn from `s`,
      and the first of them has a largest key in `s`. */
  lemma SortedPrefix<T>(s: seq<T>, key: T -> real, n: nat)
    requires n <= |s|
    ensures SortedDesc(SortDesc(s, key)[..n], key)
    ensures multiset(SortDesc(s, key)[..n]) <= multiset(s)
    ensures n > 0 ==> forall x :: x in s ==> key(SortDesc(s, key)[0]) >= key(x)
  {
    var r := SortDesc(s, key);
    PrefixSubmultiset(r, n);
    forall x | x in s
      ensures key(r[0]) >= key(x)
    {
      assert x in multiset(r);
      var k :| 0 <= k < |r| && r[k] == x;
    }
  }

  lemma PrefixSubmultiset<T>(r: seq<T>, n: nat)
    requires n <= |r|
    ensures multiset(r[..n]) <= multiset(r)
  {
    assert r == r[..n] + r[n..];
  }

  /** `kept` is a best selection from `all` by `key`: drawn from `all`, and
      whatever of `all` is left out (counted with multiplicity) has a key no
      larger than any kept element. */
  ghost predicate BestOf<T>(kept: seq<T>, all: seq<T>, key: T -> real) {
    && multiset(kept) <= multiset(all)
    && forall x :: x in multiset(all) - multiset(kept) ==> forall i :: 0 <= i < |kept| ==> key(x) <= key(kept[i])
  }

  /** `sorted(all, key=k, reverse=True)[:n]` keeps as many as there are, up to
      `n`, and they are a best selection. */
  lemma TakeSortedBest<T>(all: seq<T>, key: T -> real, n: nat)
    ensures |Take(SortDesc(all, key), n)| == if |all| < n then |all| else n
    ensures BestOf(Take(SortDesc(all, key), n), all, key)
  {
    var t := SortDesc(all, key);
    var r := Take(t, n);
    TakeWithin(t, n);
    assert r == t[..|r|];
    PrefixBest(all, t, key, |r|);
  }

  /** Keeping the first `n` of a sorted permutation of `s` keeps a best `n`:
      whatever of `s` is left out (counted with multiplicity) has a key no larger
      than any kept one. */
  lemma PrefixBest<T>(s: seq<T>, t: seq<T>, key: T -> real, n: nat)
    requires SortedDesc(t, key) && multiset(t) == multiset(s) && n <= |t|
    ensures multiset(t[..n]) <= multiset(s)
    ensures forall x :: x in multiset(s) - multiset(t[..n]) ==> forall i :: 0 <= i < n ==> key(x) <= key(t[i])
  {
    DroppedRest(s, t, n);
    forall x | x in multiset(s) - multiset(t[..n])
      ensures forall i :: 0 <= i < n ==> key(x) <= key(t[i])
    {
      DroppedBelow(t, key, n, x);
    }
  }

  lemma DroppedRest<T>(s: seq<T>, t: seq<T>, n: nat)
    requires multiset(t) == multiset(s) && n <= |t|
    ensures multiset(t[..n]) <= multiset(s)
    ensures multiset(s) - multiset(t[..n]) == multiset(t[n..])
  {
    assert t == t[..n] + t[n..];
  }

  lemma DroppedBelow<T>(t: seq<T>, key: T -> real, n: nat, x: T)
    requires SortedDesc(t, key) && n <= |t| && x in multiset(t[n..])
    ensures forall i :: 0 <= i < n ==> key(x) <= key(t[i])
  {
    var j :| n <= j < |t| && t[j] == x;
  }
}
