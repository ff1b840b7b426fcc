/** Stable sorting into non-increasing key order, the behaviour of Python's
    `list.sort(key=..., reverse=True)`: the largest key comes first and
    elements with equal keys keep their original relative order. */
module Sorting {

  /** Keys never increase from left to right. */
  predicate SortedDesc<T>(xs: seq<T>, key: T -> real) {
    forall i, j :: 0 <= i < j < |xs| ==> key(xs[i]) >= key(xs[j])
  }

  /** The subsequence of `xs` whose key equals `k`, in the order of `xs`. */
  function Only<T>(xs: seq<T>, key: T -> real, k: real): (r: seq<T>)
    ensures |r| <= |xs|
  {
    if |xs| == 0 then []
    else if key(xs[0]) == k then [xs[0]] + Only(xs[1..], key, k)
    else Only(xs[1..], key, k)
  }

  /** `out` lists the elements of every key class in the same order as `inp`. */
  ghost predicate Stable<T>(out: seq<T>, inp: seq<T>, key: T -> real) {
    forall k :: Only(out, key, k) == Only(inp, key, k)
  }

  /** Inserts `x` into a non-increasing sequence just before the first element
      whose key is strictly smaller, that is after every element whose key
      is at least as large. */
  function Insert<T>(x: T, xs: seq<T>, key: T -> real): (r: seq<T>)
    ensures |r| == |xs| + 1
    ensures key(r[0]) == if |xs| > 0 && key(xs[0]) >= key(x) then key(xs[0]) else key(x)
    ensures SortedDesc(xs, key) ==> SortedDesc(r, key)
  {
    if |xs| == 0 then [x]
    else if key(xs[0]) < key(x) then [x] + xs
    else
      assert xs == [xs[0]] + xs[1..];
      [xs[0]] + Insert(x, xs[1..], key)
  }

  /** Insertion sort; the last element is inserted into the sorted prefix, so
      it lands after every earlier element with an equal key. */
  function SortDesc<T>(xs: seq<T>, key: T -> real): (r: seq<T>)
    ensures multiset(r) == multiset(xs)
    ensures |r| == |xs|
    ensures SortedDesc(r, key)
  {
    if |xs| == 0 then []
    else
      assert xs == xs[..|xs| - 1] + [xs[|xs| - 1]];
      var r := Insert(xs[|xs| - 1], SortDesc(xs[..|xs| - 1], key), key);
      InsertPermutes(xs[|xs| - 1], SortDesc(xs[..|xs| - 1], key), key);
      r
  }

  /** Inserting adds exactly one occurrence of `x` and loses nothing. */
  lemma {:induction false} InsertPermutes<T>(x: T, xs: seq<T>, key: T -> real)
    ensures multiset(Insert(x, xs, key)) == multiset(xs) + multiset{x}
    decreases |xs|
  {
    if |xs| > 0 && key(xs[0]) >= key(x) {
      assert xs == [xs[0]] + xs[1..];
      InsertPermutes(x, xs[1..], key);
    }
  }

  lemma {:induction false} OnlyAppend<T>(a: seq<T>, b: seq<T>, key: T -> real, k: real)
    ensures Only(a + b, key, k) == Only(a, key, k) + Only(b, key, k)
    decreases |a|
  {
    if |a| == 0 {
      assert a + b == b;
    } else {
      assert (a + b)[1..] == a[1..] + b;
      OnlyAppend(a[1..], b, key, k);
      if key(a[0]) == k {
        assert Only(a + b, key, k) == [a[0]] + Only(a[1..] + b, key, k);
      } else {
        assert Only(a + b, key, k) == Only(a[1..] + b, key, k);
      }
    }
  }

  lemma {:induction false} OnlyEmpty<T>(xs: seq<T>, key: T -> real, k: real)
    requires forall i :: 0 <= i < |xs| ==> key(xs[i]) < k
    ensures Only(xs, key, k) == []
    decreases |xs|
  {
    if |xs| > 0 {
      OnlyEmpty(xs[1..], key, k);
    }
  }

  /** Inserting `x` appends it to the end of its own key class. */
  lemma {:induction false} InsertOnly<T>(x: T, xs: seq<T>, key: T -> real, k: real)
    requires SortedDesc(xs, key)
    ensures Only(Insert(x, xs, key), key, k)
         == Only(xs, key, k) + (if key(x) == k then [x] else [])
    decreases |xs|
  {
    if |xs| == 0 {
      assert Insert(x, xs, key) == [x];
      assert [x][1..] == [];
    } else if key(xs[0]) < key(x) {
      InsertFront(x, xs, key, k);
    } else {
      InsertOnly(x, xs[1..], key, k);
      InsertBehind(x, xs, key, k);
    }
  }

  lemma InsertFront<T>(x: T, xs: seq<T>, key: T -> real, k: real)
    requires SortedDesc(xs, key)
    requires |xs| > 0 && key(xs[0]) < key(x)
    ensures Only(Insert(x, xs, key), key, k)
         == Only(xs, key, k) + (if key(x) == k then [x] else [])
  {
    var r := [x] + xs;
    assert Insert(x, xs, key) == r;
    assert r[1..] == xs;
    if key(x) == k {
      OnlyEmpty(xs, key, k);
      assert Only(r, key, k) == [x] + Only(xs, key, k);
    } else {
      assert Only(r, key, k) == Only(xs, key, k);
    }
  }

  lemma InsertBehind<T>(x: T, xs: seq<T>, key: T -> real, k: real)
    requires |xs| > 0 && key(xs[0]) >= key(x)
    requires Only(Insert(x, xs[1..], key), key, k)
          == Only(xs[1..], key, k) + (if key(x) == k then [x] else [])
    ensures Only(Insert(x, xs, key), key, k)
         == Only(xs, key, k) + (if key(x) == k then [x] else [])
  {
    var rest := Insert(x, xs[1..], key);
    var r := [xs[0]] + rest;
    assert Insert(x, xs, key) == r;
    assert r[1..] == rest;
    if key(xs[0]) == k {
      assert Only(r, key, k) == [xs[0]] + Only(rest, key, k);
      assert Only(xs, key, k) == [xs[0]] + Only(xs[1..], key, k);
    } else {
      assert Only(r, key, k) == Only(rest, key, k);
      assert Only(xs, key, k) == Only(xs[1..], key, k);
    }
  }

  /** Python's sort with `reverse=True` is stable: within each key class the
      sorted output keeps the input order. */
  lemma {:induction false} SortDescStable<T>(xs: seq<T>, key: T -> real)
    ensures Stable(SortDesc(xs, key), xs, key)
    decreases |xs|
  {
    forall k
      ensures Only(SortDesc(xs, key), key, k) == Only(xs, key, k)
    {
      SortDescOnly(xs, key, k);
    }
  }

  lemma {:induction false} SortDescOnly<T>(xs: seq<T>, key: T -> real, k: real)
    ensures Only(SortDesc(xs, key), key, k) == Only(xs, key, k)
    decreases |xs|
  {
    if |xs| > 0 {
      var p, x := xs[..|xs| - 1], xs[|xs| - 1];
      assert xs == p + [x];
      SortDescOnly(p, key, k);
      InsertOnly(x, SortDesc(p, key), key, k);
      OnlyAppend(p, [x], key, k);
      assert [x][1..] == [];
    }
  }

  lemma OnlyHead<T>(xs: seq<T>, key: T -> real)
    ensures |xs| > 0 ==> Only(xs, key, key(xs[0])) == [xs[0]] + Only(xs[1..], key, key(xs[0]))
  {
  }

  /** A non-increasing sequence is determined by its key classes. */
  lemma {:induction false} SortedByClasses<T>(a: seq<T>, b: seq<T>, key: T -> real)
    requires SortedDesc(a, key) && SortedDesc(b, key)
    requires forall k :: Only(a, key, k) == Only(b, key, k)
    ensures a == b
    decreases |a| + |b|
  {
    if |a| == 0 && |b| == 0 {
    } else if |a| == 0 {
      OnlyHead(b, key);
      assert false;
    } else if |b| == 0 {
      OnlyHead(a, key);
      assert false;
    } else {
      var ka, kb := key(a[0]), key(b[0]);
      if ka > kb {
        OnlyEmpty(b, key, ka);
        assert false;
      } else if kb > ka {
        OnlyEmpty(a, key, kb);
        assert false;
      } else {
        assert Only(a, key, ka) == [a[0]] + Only(a[1..], key, ka);
        assert Only(b, key, ka) == [b[0]] + Only(b[1..], key, ka);
        assert Only(a, key, ka) == Only(b, key, ka);
        assert Only(a, key, ka)[0] == a[0] && Only(b, key, ka)[0] == b[0];
        assert a[0] == b[0];
        forall k
          ensures Only(a[1..], key, k) == Only(b[1..], key, k)
        {
          assert Only(a, key, k) == Only(b, key, k);
          if k == ka {
            assert Only(a, key, k) == [a[0]] + Only(a[1..], key, k);
            assert Only(b, key, k) == [b[0]] + Only(b[1..], key, k);
            assert Only(a, key, k)[1..] == Only(a[1..], key, k);
            assert Only(b, key, k)[1..] == Only(b[1..], key, k);
          } else {
            assert Only(a, key, k) == Only(a[1..], key, k);
            assert Only(b, key, k) == Only(b[1..], key, k);
          }
        }
        SortedByClasses(a[1..], b[1..], key);
        assert a == [a[0]] + a[1..] && b == [b[0]] + b[1..];
      }
    }
  }

  /** `SortDesc` is the only stable ordering into non-increasing keys: any
      sequence sorted by `key` that keeps every key class of `xs` in order
      is `SortDesc(xs, key)`. */
  lemma StableSortUnique<T>(xs: seq<T>, ys: seq<T>, key: T -> real)
    requires SortedDesc(ys, key)
    requires Stable(ys, xs, key)
    ensures ys == SortDesc(xs, key)
  {
    SortDescStable(xs, key);
    SortedByClasses(ys, SortDesc(xs, key), key);
  }
}
