/** Sequence operations behind the program's list comprehensions and its
    calls to `list.sort(key=...)`. */
module Seqs {
  import opened Wrappers
  import opened Text

  /** `[g(x) for x in s if g(x) is not None]`: the kept results, in input order. */
  function Selected<T, U>(s: seq<T>, g: T -> Option<U>): (r: seq<U>)
    ensures |r| <= |s|
  {
    if s == [] then []
    else Selected(s[..|s| - 1], g) + (match g(s[|s| - 1]) case Some(u) => [u] case None => [])
  }

  lemma {:induction false} SelectedAppend<T, U>(a: seq<T>, b: seq<T>, g: T -> Option<U>)
    ensures Selected(a + b, g) == Selected(a, g) + Selected(b, g)
    decreases |b|
  {
    if b == [] {
      assert a + b == a;
    } else {
      var b' := b[..|b| - 1];
      assert (a + b)[..|a + b| - 1] == a + b';
      SelectedAppend(a, b', g);
    }
  }

  /** One more input adds its result, if it has one, at the end. */
  lemma SelectedSnoc<T, U>(s: seq<T>, x: T, g: T -> Option<U>)
    ensures Selected(s + [x], g) == Selected(s, g) + (if g(x).Some? then [g(x).value] else [])
  {
    assert (s + [x])[..|s|] == s;
  }

  /** When every input has a result, all of them are kept, in order. */
  lemma {:induction false} SelectedAllSome<T, U>(s: seq<T>, g: T -> Option<U>)
    requires forall i :: 0 <= i < |s| ==> g(s[i]).Some?
    ensures Selected(s, g) == seq(|s|, i requires 0 <= i < |s| => g(s[i]).value)
    decreases |s|
  {
    if s != [] {
      var n := |s| - 1;
      assert forall i :: 0 <= i < n ==> s[..n][i] == s[i];
      SelectedAllSome(s[..n], g);
    }
  }

  /** Inputs that all fail give no results. */
  lemma {:induction false} SelectedAllNone<T, U>(s: seq<T>, g: T -> Option<U>)
    requires forall i :: 0 <= i < |s| ==> g(s[i]).None?
    ensures Selected(s, g) == []
    decreases |s|
  {
    if s != [] {
      var n := |s| - 1;
      assert forall i :: 0 <= i < n ==> s[..n][i] == s[i];
      SelectedAllNone(s[..n], g);
    }
  }

  /** When input `i` has result `rows[i]` for every `i`, the results are `rows`. */
  lemma {:induction false} SelectedExactly<T, U>(s: seq<T>, g: T -> Option<U>, rows: seq<U>)
    requires |rows| == |s|
    requires forall i :: 0 <= i < |s| ==> g(s[i]) == Some(rows[i])
    ensures Selected(s, g) == rows
    decreases |s|
  {
    if s != [] {
      var n := |s| - 1;
      assert forall i :: 0 <= i < n ==> s[..n][i] == s[i] && rows[..n][i] == rows[i];
      SelectedExactly(s[..n], g, rows[..n]);
      assert rows == rows[..n] + [rows[n]];
    }
  }

  predicate Increasing(idx: seq<nat>) {
    forall i, j :: 0 <= i < j < |idx| ==> idx[i] < idx[j]
  }

  /** The positions of the inputs that have a result. */
  function Origins<T, U>(s: seq<T>, g: T -> Option<U>): seq<nat>
  {
    if s == [] then [] else Origins(s[..|s| - 1], g) + (if g(s[|s| - 1]).Some? then [|s| - 1] else [])
  }

  lemma {:induction false} OriginsBounded<T, U>(s: seq<T>, g: T -> Option<U>)
    ensures |Origins(s, g)| == |Selected(s, g)|
    ensures forall j :: 0 <= j < |Origins(s, g)| ==> Origins(s, g)[j] < |s|
    decreases |s|
  {
    if s != [] {
      OriginsBounded(s[..|s| - 1], g);
    }
  }

  lemma {:induction false} OriginsIncreasing<T, U>(s: seq<T>, g: T -> Option<U>)
    ensures Increasing(Origins(s, g))
    decreases |s|
  {
    if s != [] {
      var n := |s| - 1;
      OriginsIncreasing(s[..n], g);
      OriginsBounded(s[..n], g);
    }
  }

  lemma {:induction false} OriginsHit<T, U>(s: seq<T>, g: T -> Option<U>)
    ensures |Origins(s, g)| == |Selected(s, g)|
    ensures forall j :: 0 <= j < |Origins(s, g)| ==>
      Origins(s, g)[j] < |s| && g(s[Origins(s, g)[j]]) == Some(Selected(s, g)[j])
    decreases |s|
  {
    OriginsBounded(s, g);
    if s != [] {
      var n := |s| - 1;
      var init := s[..n];
      OriginsHit(init, g);
      var prev := Origins(init, g);
      forall j | 0 <= j < |prev|
        ensures g(s[prev[j]]) == Some(Selected(s, g)[j])
      {
        assert s[prev[j]] == init[prev[j]];
      }
    }
  }

  lemma {:induction false} OriginsCover<T, U>(s: seq<T>, g: T -> Option<U>)
    ensures forall i :: 0 <= i < |s| && g(s[i]).Some? ==> i in Origins(s, g)
    decreases |s|
  {
    if s != [] {
      var n := |s| - 1;
      var init := s[..n];
      OriginsCover(init, g);
      forall i | 0 <= i < n && g(s[i]).Some?
        ensures i in Origins(s, g)
      {
        assert init[i] == s[i];
      }
    }
  }

  /** The kept results are exactly the `Some` values of the inputs, in the
      inputs' order: output `j` comes from input `idx[j]`, the indices
      rise, and every input with a result has its index in `idx`. */
  lemma SelectedOrigins<T, U>(s: seq<T>, g: T -> Option<U>) returns (idx: seq<nat>)
    ensures |idx| == |Selected(s, g)| && Increasing(idx)
    ensures forall j :: 0 <= j < |idx| ==> idx[j] < |s| && g(s[idx[j]]) == Some(Selected(s, g)[j])
    ensures forall i :: 0 <= i < |s| && g(s[i]).Some? ==> i in idx
  {
    idx := Origins(s, g);
    OriginsIncreasing(s, g);
    OriginsHit(s, g);
    OriginsCover(s, g);
  }

  // ---------------------------------------------------------------------
  // Stable insertion sort by an integer key

  predicate SortedByInt<T>(s: seq<T>, key: T -> int) {
    forall i, j :: 0 <= i < j < |s| ==> key(s[i]) <= key(s[j])
  }

  /** Puts `x` before the first element whose key is not smaller. */
  function InsertByInt<T>(x: T, s: seq<T>, key: T -> int): (r: seq<T>)
    ensures multiset(r) == multiset(s) + multiset{x}
  {
    if s == [] then [x]
    else if key(x) <= key(s[0]) then [x] + s
    else
      var rest := InsertByInt(x, s[1..], key);
      assert s == [s[0]] + s[1..];
      [s[0]] + rest
  }

  /** An element no greater than any of a sorted sequence can go in front. */
  lemma SortedByIntCons<T>(x: T, s: seq<T>, key: T -> int)
    requires SortedByInt(s, key)
    requires forall y :: y in s ==> key(x) <= key(y)
    ensures SortedByInt([x] + s, key)
  {
    var r := [x] + s;
    forall i, j | 0 <= i < j < |r|
      ensures key(r[i]) <= key(r[j])
    {
      assert r[j] == s[j - 1];
      if i > 0 {
        assert r[i] == s[i - 1];
      }
    }
  }

  lemma {:induction false} InsertByIntSorted<T>(x: T, s: seq<T>, key: T -> int)
    requires SortedByInt(s, key)
    ensures SortedByInt(InsertByInt(x, s, key), key)
    decreases |s|
  {
    if s == [] {
    } else if key(x) <= key(s[0]) {
      forall y | y in s
        ensures key(x) <= key(y)
      {
        var k :| 0 <= k < |s| && s[k] == y;
      }
      SortedByIntCons(x, s, key);
    } else {
      var tail := s[1..];
      assert SortedByInt(tail, key);
      InsertByIntSorted(x, tail, key);
      var rest := InsertByInt(x, tail, key);
      forall y | y in rest
        ensures key(s[0]) <= key(y)
      {
        assert y in multiset(rest);
        if y != x {
          assert y in multiset(tail);
          var k :| 0 <= k < |tail| && tail[k] == y;
          assert s[k + 1] == y;
        }
      }
      SortedByIntCons(s[0], rest, key);
    }
  }

  /** `sorted(s, key=key)`; stable, as Python's sort is. */
  function SortByInt<T>(s: seq<T>, key: T -> int): (r: seq<T>)
    ensures |r| == |s|
  {
    if s == [] then [] else
      var r := InsertByInt(s[0], SortByInt(s[1..], key), key);
      assert |r| == |multiset(r)|;
      r
  }

  lemma {:induction false} SortByIntSorted<T>(s: seq<T>, key: T -> int)
    ensures SortedByInt(SortByInt(s, key), key)
    decreases |s|
  {
    if s != [] {
      SortByIntSorted(s[1..], key);
      InsertByIntSorted(s[0], SortByInt(s[1..], key), key);
    }
  }

  lemma {:induction false} SortByIntPermutes<T>(s: seq<T>, key: T -> int)
    ensures multiset(SortByInt(s, key)) == multiset(s)
    decreases |s|
  {
    if s != [] {
      SortByIntPermutes(s[1..], key);
      assert s == [s[0]] + s[1..];
    }
  }

  /** The sort orders by the key and keeps every element. */
  lemma SortByIntCorrect<T>(s: seq<T>, key: T -> int)
    ensures SortedByInt(SortByInt(s, key), key)
    ensures multiset(SortByInt(s, key)) == multiset(s)
  {
    SortByIntSorted(s, key);
    SortByIntPermutes(s, key);
  }

  // ---------------------------------------------------------------------
  // Stable insertion sort by a string key

  predicate SortedByText<T>(s: seq<T>, key: T -> string) {
    forall i, j :: 0 <= i < j < |s| ==> LexLe(key(s[i]), key(s[j]))
  }

  function InsertByText<T>(x: T, s: seq<T>, key: T -> string): (r: seq<T>)
    ensures multiset(r) == multiset(s) + multiset{x}
  {
    if s == [] then [x]
    else if LexLe(key(x), key(s[0])) then [x] + s
    else
      var rest := InsertByText(x, s[1..], key);
      assert s == [s[0]] + s[1..];
      [s[0]] + rest
  }

  /** An element no greater than any of a sorted sequence can go in front. */
  lemma SortedByTextCons<T>(x: T, s: seq<T>, key: T -> string)
    requires SortedByText(s, key)
    requires forall y :: y in s ==> LexLe(key(x), key(y))
    ensures SortedByText([x] + s, key)
  {
    var r := [x] + s;
    forall i, j | 0 <= i < j < |r|
      ensures LexLe(key(r[i]), key(r[j]))
    {
      assert r[j] == s[j - 1];
      if i > 0 {
        assert r[i] == s[i - 1];
      }
    }
  }

  lemma {:induction false} InsertByTextSorted<T>(x: T, s: seq<T>, key: T -> string)
    requires SortedByText(s, key)
    ensures SortedByText(InsertByText(x, s, key), key)
    decreases |s|
  {
    if s == [] {
    } else if LexLe(key(x), key(s[0])) {
      forall y | y in s
        ensures LexLe(key(x), key(y))
      {
        var k :| 0 <= k < |s| && s[k] == y;
        if k > 0 {
          LexLeTransitive(key(x), key(s[0]), key(y));
        }
      }
      SortedByTextCons(x, s, key);
    } else {
      LexLeTotal(key(x), key(s[0]));
      var tail := s[1..];
      assert SortedByText(tail, key);
      InsertByTextSorted(x, tail, key);
      var rest := InsertByText(x, tail, key);
      forall y | y in rest
        ensures LexLe(key(s[0]), key(y))
      {
        assert y in multiset(rest);
        if y != x {
          assert y in multiset(tail);
          var k :| 0 <= k < |tail| && tail[k] == y;
          assert s[k + 1] == y;
        }
      }
      SortedByTextCons(s[0], rest, key);
    }
  }

  /** `sorted(s, key=key)` for a string key, compared code point by code point. */
  function SortByText<T>(s: seq<T>, key: T -> string): (r: seq<T>)
    ensures |r| == |s|
  {
    if s == [] then [] else
      var r := InsertByText(s[0], SortByText(s[1..], key), key);
      assert |r| == |multiset(r)|;
      r
  }

  lemma {:induction false} SortByTextSorted<T>(s: seq<T>, key: T -> string)
    ensures SortedByText(SortByText(s, key), key)
    decreases |s|
  {
    if s != [] {
      SortByTextSorted(s[1..], key);
      InsertByTextSorted(s[0], SortByText(s[1..], key), key);
    }
  }

  lemma {:induction false} SortByTextPermutes<T>(s: seq<T>, key: T -> string)
    ensures multiset(SortByText(s, key)) == multiset(s)
    decreases |s|
  {
    if s != [] {
      SortByTextPermutes(s[1..], key);
      assert s == [s[0]] + s[1..];
    }
  }

  /** The sort orders by the key and keeps every element. */
  lemma SortByTextCorrect<T>(s: seq<T>, key: T -> string)
    ensures SortedByText(SortByText(s, key), key)
    ensures multiset(SortByText(s, key)) == multiset(s)
  {
    SortByTextSorted(s, key);
    SortByTextPermutes(s, key);
  }

  // ---------------------------------------------------------------------
  // Distinct elements

  predicate Distinct<T(==)>(s: seq<T>) {
    forall i, j :: 0 <= i < j < |s| ==> s[i] != s[j]
  }

  lemma {:induction false} DistinctCount<T>(s: seq<T>, x: T)
    requires Distinct(s)
    ensures multiset(s)[x] <= 1
    decreases |s|
  {
    if s != [] {
      assert s == [s[0]] + s[1..];
      assert Distinct(s[1..]) by {
        forall i, j | 0 <= i < j < |s[1..]|
          ensures s[1..][i] != s[1..][j]
        {
          assert s[1..][i] == s[i + 1] && s[1..][j] == s[j + 1];
        }
      }
      DistinctCount(s[1..], x);
      if x == s[0] {
        assert x !in s[1..];
      }
    }
  }

  lemma RepeatedCount<T>(s: seq<T>, i: int, j: int)
    requires 0 <= i < j < |s| && s[i] == s[j]
    ensures multiset(s)[s[i]] >= 2
  {
    assert s == s[..j] + s[j..];
    assert s[i] in s[..j] && s[j] in s[j..];
  }

  /** Reordering keeps the elements distinct. */
  lemma DistinctPermutation<T>(a: seq<T>, b: seq<T>)
    requires multiset(a) == multiset(b) && Distinct(a)
    ensures Distinct(b)
  {
    forall i, j | 0 <= i < j < |b|
      ensures b[i] != b[j]
    {
      if b[i] == b[j] {
        RepeatedCount(b, i, j);
        DistinctCount(a, b[i]);
      }
    }
  }
}
