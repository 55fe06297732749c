/**
 * The orderings the core relies on: Python's stable `list.sort(key=...)`,
 * `sorted()` over a set of strings, and `sorted(set(...))` over dates.
 */
module Sorting {

  // ---------------------------------------------------------------------
  // Stable sort by an integer key
  // ---------------------------------------------------------------------

  ghost predicate SortedBy<T>(s: seq<T>, key: T -> int) {
    forall i, j :: 0 <= i < j < |s| ==> key(s[i]) <= key(s[j])
  }

  /** The subsequence of `s` whose elements have key `k`, in their order in `s`. */
  function WithKey<T>(s: seq<T>, key: T -> int, k: int): seq<T> {
    if s == [] then []
    else WithKey(s[..|s| - 1], key, k) + (if key(s[|s| - 1]) == k then [s[|s| - 1]] else [])
  }

  /**
   * A stable sort of `s`: `r` is sorted, is a permutation of `s`, and for every
   * key the elements carrying it appear in `r` in the order they had in `s`.
   */
  ghost predicate StablySorted<T>(r: seq<T>, s: seq<T>, key: T -> int) {
    && SortedBy(r, key)
    && multiset(r) == multiset(s)
    && forall k :: WithKey(r, key, k) == WithKey(s, key, k)
  }

  /** A stable sort keeps the length and exactly the elements of its input. */
  lemma StablySortedKeepsElements<T>(r: seq<T>, s: seq<T>, key: T -> int)
    requires StablySorted(r, s, key)
    ensures |r| == |s|
    ensures forall x :: x in r <==> x in s
  {
    assert |r| == |multiset(r)| == |multiset(s)| == |s|;
    forall x ensures x in r <==> x in s {
      assert x in r <==> x in multiset(r);
      assert x in s <==> x in multiset(s);
    }
  }

  lemma {:induction false} WithKeyAppend<T>(a: seq<T>, b: seq<T>, key: T -> int, k: int)
    ensures WithKey(a + b, key, k) == WithKey(a, key, k) + WithKey(b, key, k)
    decreases |b|
  {
    if b == [] {
      assert a + b == a;
    } else {
      var b' := b[..|b| - 1];
      assert (a + b)[..|a + b| - 1] == a + b';
      WithKeyAppend(a, b', key, k);
    }
  }

  lemma WithKeySingle<T>(x: T, key: T -> int, k: int)
    ensures WithKey([x], key, k) == if key(x) == k then [x] else []
  {
    assert [x][..0] == [];
  }

  /** No element of a sequence whose keys all exceed `k` carries key `k`. */
  lemma {:induction false} WithKeyAbove<T>(s: seq<T>, key: T -> int, k: int)
    requires forall i :: 0 <= i < |s| ==> key(s[i]) > k
    ensures WithKey(s, key, k) == []
    decreases |s|
  {
    if s != [] {
      WithKeyAbove(s[..|s| - 1], key, k);
    }
  }

  /** Insert `x` after every element whose key is at most `key(x)`. */
  function Insert<T>(s: seq<T>, x: T, key: T -> int): (r: seq<T>)
    ensures |r| == |s| + 1
  {
    if s == [] then [x]
    else if key(x) < key(s[0]) then [x] + s
    else [s[0]] + Insert(s[1..], x, key)
  }

  lemma {:induction false} InsertMultiset<T>(s: seq<T>, x: T, key: T -> int)
    ensures multiset(Insert(s, x, key)) == multiset(s) + multiset{x}
    decreases |s|
  {
    if s != [] && key(x) >= key(s[0]) {
      assert s == [s[0]] + s[1..];
      InsertMultiset(s[1..], x, key);
    }
  }

  lemma {:induction false} InsertSorted<T>(s: seq<T>, x: T, key: T -> int)
    requires SortedBy(s, key)
    ensures SortedBy(Insert(s, x, key), key)
    decreases |s|
  {
    if s != [] && key(x) >= key(s[0]) {
      var t := s[1..];
      InsertSorted(t, x, key);
      InsertMultiset(t, x, key);
      var rt := Insert(t, x, key);
      forall i | 0 <= i < |rt| ensures key(s[0]) <= key(rt[i]) {
        assert rt[i] in multiset(rt);
        if rt[i] != x {
          assert rt[i] in multiset(t);
          var j :| 0 <= j < |t| && t[j] == rt[i];
          assert t[j] == s[j + 1];
        }
      }
      assert Insert(s, x, key) == [s[0]] + rt;
    }
  }

  /** Inserting in front of larger keys appends `x` to its own key's subsequence. */
  lemma InsertFrontWithKey<T>(s: seq<T>, x: T, key: T -> int, k: int)
    requires SortedBy(s, key) && s != [] && key(x) < key(s[0])
    ensures WithKey([x] + s, key, k) == WithKey(s, key, k) + WithKey([x], key, k)
  {
    WithKeyAppend([x], s, key, k);
    WithKeySingle(x, key, k);
    if key(x) == k {
      assert forall i :: 0 <= i < |s| ==> key(s[i]) > k by {
        forall i | 0 <= i < |s| ensures key(s[i]) > k {
          assert key(s[0]) <= key(s[i]);
        }
      }
      WithKeyAbove(s, key, k);
    }
  }

  lemma TailSorted<T>(s: seq<T>, key: T -> int)
    requires SortedBy(s, key) && s != []
    ensures SortedBy(s[1..], key)
  {
    var t := s[1..];
    forall i, j | 0 <= i < j < |t| ensures key(t[i]) <= key(t[j]) {
      assert t[i] == s[i + 1] && t[j] == s[j + 1];
    }
  }

  lemma {:induction false} InsertWithKey<T>(s: seq<T>, x: T, key: T -> int, k: int)
    requires SortedBy(s, key)
    ensures WithKey(Insert(s, x, key), key, k) == WithKey(s, key, k) + WithKey([x], key, k)
    decreases |s|
  {
    if s == [] {
      assert WithKey(s, key, k) == [];
    } else if key(x) < key(s[0]) {
      InsertFrontWithKey(s, x, key, k);
    } else {
      var t := s[1..];
      assert s == [s[0]] + t;
      TailSorted(s, key);
      InsertWithKey(t, x, key, k);
      WithKeyAppend([s[0]], Insert(t, x, key), key, k);
      WithKeyAppend([s[0]], t, key, k);
    }
  }

  /** Python's `list.sort(key=...)`: a stable insertion sort. */
  method StableSort<T>(s: seq<T>, key: T -> int) returns (r: seq<T>)
    ensures StablySorted(r, s, key)
  {
    r := [];
    for i := 0 to |s|
      invariant SortedBy(r, key)
      invariant multiset(r) == multiset(s[..i])
      invariant forall k :: WithKey(r, key, k) == WithKey(s[..i], key, k)
    {
      InsertSorted(r, s[i], key);
      InsertMultiset(r, s[i], key);
      assert s[..i + 1] == s[..i] + [s[i]];
      forall k ensures WithKey(Insert(r, s[i], key), key, k) == WithKey(s[..i + 1], key, k) {
        InsertWithKey(r, s[i], key, k);
        WithKeyAppend(s[..i], [s[i]], key, k);
      }
      r := Insert(r, s[i], key);
    }
    assert s[..|s|] == s;
  }

  // ---------------------------------------------------------------------
  // Python's `<` on str: lexicographic by code point
  // ---------------------------------------------------------------------

  predicate StrLess(a: string, b: string) {
    if a == [] then b != []
    else if b == [] then false
    else if a[0] != b[0] then a[0] < b[0]
    else StrLess(a[1..], b[1..])
  }

  lemma {:induction false} StrLessIrreflexive(a: string)
    ensures !StrLess(a, a)
  {
    if a != [] {
      StrLessIrreflexive(a[1..]);
    }
  }

  lemma {:induction false} StrLessTransitive(a: string, b: string, c: string)
    requires StrLess(a, b) && StrLess(b, c)
    ensures StrLess(a, c)
  {
    if a != [] && b != [] && c != [] && a[0] == b[0] && b[0] == c[0] {
      StrLessTransitive(a[1..], b[1..], c[1..]);
    }
  }

  lemma {:induction false} StrLessTotal(a: string, b: string)
    requires a != b
    ensures StrLess(a, b) || StrLess(b, a)
  {
    if a != [] && b != [] && a[0] == b[0] {
      assert a == [a[0]] + a[1..] && b == [b[0]] + b[1..];
      StrLessTotal(a[1..], b[1..]);
    }
  }

  ghost predicate StrictlyIncreasing(s: seq<string>) {
    forall i, j :: 0 <= i < j < |s| ==> StrLess(s[i], s[j])
  }

  predicate IsLeastString(m: string, s: set<string>) {
    m in s && forall y :: y in s && y != m ==> StrLess(m, y)
  }

  lemma {:induction false} LeastStringExists(s: set<string>)
    requires s != {}
    ensures exists m :: IsLeastString(m, s)
    decreases |s|
  {
    var x :| x in s;
    var rest := s - {x};
    if rest == {} {
      assert s == {x};
      assert IsLeastString(x, s);
    } else {
      LeastStringExists(rest);
      var m :| IsLeastString(m, rest);
      if StrLess(m, x) {
        assert IsLeastString(m, s) by {
          forall y | y in s && y != m ensures StrLess(m, y) {
            if y != x {
              assert y in rest;
            }
          }
        }
      } else {
        StrLessTotal(m, x);
        assert IsLeastString(x, s) by {
          forall y | y in s && y != x ensures StrLess(x, y) {
            if y != m {
              assert y in rest;
              StrLessTransitive(x, m, y);
            }
          }
        }
      }
    }
  }

  /** Python's `sorted(symbols)` over a set of strings. */
  method SortStrings(s: set<string>) returns (r: seq<string>)
    ensures StrictlyIncreasing(r)
    ensures |r| == |s|
    ensures forall x :: x in s <==> x in r
  {
    r := [];
    var rest := s;
    while rest != {}
      invariant rest <= s
      invariant StrictlyIncreasing(r)
      invariant forall x :: x in s <==> x in r || x in rest
      invariant forall x :: x in r ==> x !in rest
      invariant forall i, y :: 0 <= i < |r| && y in rest ==> StrLess(r[i], y)
      invariant |r| + |rest| == |s|
      decreases |rest|
    {
      LeastStringExists(rest);
      var m :| IsLeastString(m, rest);
      r := r + [m];
      rest := rest - {m};
    }
  }

  // ---------------------------------------------------------------------
  // Python's `sorted(set(...))` over dates
  // ---------------------------------------------------------------------

  ghost predicate Increasing(s: seq<int>) {
    forall i, j :: 0 <= i < j < |s| ==> s[i] < s[j]
  }

  predicate IsLeast(m: int, s: set<int>) {
    m in s && forall y :: y in s ==> m <= y
  }

  lemma {:induction false} LeastIntExists(s: set<int>)
    requires s != {}
    ensures exists m :: IsLeast(m, s)
    decreases |s|
  {
    assert exists x :: x in s by {
      if forall x :: x !in s {
        assert false;
      }
    }
    var x :| x in s;
    var rest := s - {x};
    if rest == {} {
      assert IsLeast(x, s) by {
        forall y | y in s ensures x <= y {
          assert y !in rest;
        }
      }
    } else {
      LeastIntExists(rest);
      var m :| IsLeast(m, rest);
      var least := if x < m then x else m;
      assert IsLeast(least, s) by {
        forall y | y in s ensures least <= y {
          if y != x {
            assert y in rest;
          }
        }
      }
    }
  }

  /** The elements of a finite set of dates, ascending and without repeats. */
  function SortedSet(s: set<int>): (r: seq<int>)
    ensures Increasing(r)
    ensures |r| == |s|
    ensures forall x :: x in s <==> x in r
    decreases |s|
  {
    if s == {} then []
    else
      LeastIntExists(s);
      var m :| IsLeast(m, s);
      [m] + SortedSet(s - {m})
  }
}
