/**
 * Python's `list.sort(key=...)` and `list.sort(key=..., reverse=True)`,
 * which are stable: elements with equal keys keep their original order,
 * also under `reverse=True`. The sort is modelled as the insertion sort
 * that inserts each element after every element whose key is not greater,
 * and its three properties are proved: the result is ordered by key, it is
 * a permutation of the input, and for every key the elements carrying
 * that key appear in the same order as in the input.
 */
module Sorting {

  ghost predicate SortedBy<T>(s: seq<T>, key: T -> real) {
    forall i, j :: 0 <= i < j < |s| ==> key(s[i]) <= key(s[j])
  }

  /** The elements of `s` whose key is `k`, in their order in `s`. */
  function WithKey<T>(s: seq<T>, key: T -> real, k: real): seq<T> {
    if s == [] then []
    else (if key(s[0]) == k then [s[0]] else []) + WithKey(s[1..], key, k)
  }

  /** The key that `reverse=True` sorts ascending by. */
  function Negated<T>(key: T -> real): T -> real {
    x => -key(x)
  }

  /** Inserts `x` after every leading element whose key is not greater. */
  function InsertBy<T>(x: T, s: seq<T>, key: T -> real): seq<T> {
    if s == [] then [x]
    else if key(x) < key(s[0]) then [x] + s
    else [s[0]] + InsertBy(x, s[1..], key)
  }

  /** `list.sort(key=key)` */
  function SortBy<T>(s: seq<T>, key: T -> real): seq<T> {
    if s == [] then [] else InsertBy(s[|s| - 1], SortBy(s[..|s| - 1], key), key)
  }

  /** `list.sort(key=key, reverse=True)` */
  function SortDescBy<T>(s: seq<T>, key: T -> real): seq<T> {
    SortBy(s, Negated(key))
  }

  lemma {:induction false} WithKeyAppend<T>(s: seq<T>, x: T, key: T -> real, k: real)
    ensures WithKey(s + [x], key, k) == WithKey(s, key, k) + (if key(x) == k then [x] else [])
  {
    if s != [] {
      assert (s + [x])[1..] == s[1..] + [x];
      WithKeyAppend(s[1..], x, key, k);
    }
  }

  lemma {:induction false} WithKeyAbove<T>(s: seq<T>, key: T -> real, k: real)
    requires forall i :: 0 <= i < |s| ==> k < key(s[i])
    ensures WithKey(s, key, k) == []
  {
    if s != [] {
      WithKeyAbove(s[1..], key, k);
    }
  }

  lemma {:induction false} WithKeyNegated<T>(s: seq<T>, key: T -> real, k: real)
    ensures WithKey(s, Negated(key), -k) == WithKey(s, key, k)
  {
    if s != [] {
      WithKeyNegated(s[1..], key, k);
    }
  }

  lemma {:induction false} InsertByPermutes<T>(x: T, s: seq<T>, key: T -> real)
    ensures multiset(InsertBy(x, s, key)) == multiset(s) + multiset{x}
  {
    if s != [] && key(s[0]) <= key(x) {
      InsertByPermutes(x, s[1..], key);
      assert s == [s[0]] + s[1..];
    }
  }

  lemma {:induction false} InsertBySorted<T>(x: T, s: seq<T>, key: T -> real)
    requires SortedBy(s, key)
    ensures SortedBy(InsertBy(x, s, key), key)
  {
    if s != [] && key(s[0]) <= key(x) {
      var t := InsertBy(x, s[1..], key);
      InsertBySorted(x, s[1..], key);
      InsertByPermutes(x, s[1..], key);
      forall j | 0 <= j < |t| ensures key(s[0]) <= key(t[j]) {
        assert t[j] in multiset(t);
      }
    }
  }

  lemma {:induction false} InsertByWithKey<T>(x: T, s: seq<T>, key: T -> real, k: real)
    requires SortedBy(s, key)
    ensures WithKey(InsertBy(x, s, key), key, k)
         == WithKey(s, key, k) + (if key(x) == k then [x] else [])
  {
    if s == [] {
    } else if key(x) < key(s[0]) {
      if key(x) == k {
        WithKeyAbove(s, key, k);
      }
      assert ([x] + s)[1..] == s;
    } else {
      InsertByWithKey(x, s[1..], key, k);
      assert ([s[0]] + InsertBy(x, s[1..], key))[1..] == InsertBy(x, s[1..], key);
    }
  }

  /** The sort orders by key, permutes its input, and is stable. */
  lemma {:induction false} SortBySpec<T>(s: seq<T>, key: T -> real)
    ensures SortedBy(SortBy(s, key), key)
    ensures multiset(SortBy(s, key)) == multiset(s)
    ensures |SortBy(s, key)| == |s|
    ensures forall k :: WithKey(SortBy(s, key), key, k) == WithKey(s, key, k)
  {
    if s != [] {
      var init, last := s[..|s| - 1], s[|s| - 1];
      assert s == init + [last];
      SortBySpec(init, key);
      InsertBySorted(last, SortBy(init, key), key);
      InsertByPermutes(last, SortBy(init, key), key);
      forall k ensures WithKey(SortBy(s, key), key, k) == WithKey(s, key, k) {
        InsertByWithKey(last, SortBy(init, key), key, k);
        WithKeyAppend(init, last, key, k);
      }
    }
  }

  /** The descending sort orders by non-increasing key, permutes its input,
      and keeps elements with equal keys in their input order. */
  lemma SortDescBySpec<T>(s: seq<T>, key: T -> real)
    ensures forall i, j :: 0 <= i < j < |SortDescBy(s, key)| ==>
              key(SortDescBy(s, key)[i]) >= key(SortDescBy(s, key)[j])
    ensures multiset(SortDescBy(s, key)) == multiset(s)
    ensures |SortDescBy(s, key)| == |s|
    ensures forall k :: WithKey(SortDescBy(s, key), key, k) == WithKey(s, key, k)
  {
    var r := SortDescBy(s, key);
    SortBySpec(s, Negated(key));
    forall i, j | 0 <= i < j < |r| ensures key(r[i]) >= key(r[j]) {
      assert Negated(key)(r[i]) <= Negated(key)(r[j]);
    }
    forall k ensures WithKey(r, key, k) == WithKey(s, key, k) {
      WithKeyNegated(r, key, k);
      WithKeyNegated(s, key, k);
    }
  }

  // ---------------------------------------------------------------------
  // `sorted()` on names: Python orders strings by code point,
  // lexicographically, a proper prefix first.

  predicate LexLe(a: string, b: string) {
    a == [] || (b != [] && (a[0] < b[0] || (a[0] == b[0] && LexLe(a[1..], b[1..]))))
  }

  lemma {:induction false} LexLeTotal(a: string, b: string)
    ensures LexLe(a, b) || LexLe(b, a)
  {
    if a != [] && b != [] && a[0] == b[0] {
      LexLeTotal(a[1..], b[1..]);
    }
  }

  lemma {:induction false} LexLeTrans(a: string, b: string, c: string)
    requires LexLe(a, b) && LexLe(b, c)
    ensures LexLe(a, c)
  {
    if a != [] && b != [] && c != [] && a[0] == b[0] && b[0] == c[0] {
      LexLeTrans(a[1..], b[1..], c[1..]);
    }
  }

  lemma {:induction false} LexLeAntisym(a: string, b: string)
    requires LexLe(a, b) && LexLe(b, a)
    ensures a == b
  {
    if a != [] {
      LexLeAntisym(a[1..], b[1..]);
      assert a == [a[0]] + a[1..] && b == [b[0]] + b[1..];
    }
  }

  ghost predicate SortedByName<T>(s: seq<T>, name: T -> string) {
    forall i, j :: 0 <= i < j < |s| ==> LexLe(name(s[i]), name(s[j]))
  }

  /** Inserts `x` before the first element whose name is greater. */
  function InsertByName<T>(x: T, s: seq<T>, name: T -> string): seq<T> {
    if s == [] then [x]
    else if !LexLe(name(s[0]), name(x)) then [x] + s
    else [s[0]] + InsertByName(x, s[1..], name)
  }

  /** `sorted(items)` by name. */
  function SortByName<T>(s: seq<T>, name: T -> string): seq<T> {
    if s == [] then [] else InsertByName(s[|s| - 1], SortByName(s[..|s| - 1], name), name)
  }

  lemma {:induction false} InsertByNamePermutes<T>(x: T, s: seq<T>, name: T -> string)
    ensures multiset(InsertByName(x, s, name)) == multiset(s) + multiset{x}
  {
    if s != [] && LexLe(name(s[0]), name(x)) {
      InsertByNamePermutes(x, s[1..], name);
      assert s == [s[0]] + s[1..];
    }
  }

  lemma {:induction false} InsertByNameSorted<T>(x: T, s: seq<T>, name: T -> string)
    requires SortedByName(s, name)
    ensures SortedByName(InsertByName(x, s, name), name)
  {
    if s == [] {
    } else if !LexLe(name(s[0]), name(x)) {
      LexLeTotal(name(s[0]), name(x));
      forall j | 0 <= j < |s| ensures LexLe(name(x), name(s[j])) {
        if j > 0 {
          LexLeTrans(name(x), name(s[0]), name(s[j]));
        }
      }
    } else {
      var t := InsertByName(x, s[1..], name);
      InsertByNameSorted(x, s[1..], name);
      InsertByNamePermutes(x, s[1..], name);
      forall j | 0 <= j < |t| ensures LexLe(name(s[0]), name(t[j])) {
        assert t[j] in multiset(t);
      }
    }
  }

  /** Sorting by name orders the names and permutes the input. */
  lemma {:induction false} SortByNameSpec<T>(s: seq<T>, name: T -> string)
    ensures SortedByName(SortByName(s, name), name)
    ensures multiset(SortByName(s, name)) == multiset(s)
    ensures |SortByName(s, name)| == |s|
  {
    if s != [] {
      var init, last := s[..|s| - 1], s[|s| - 1];
      assert s == init + [last];
      SortByNameSpec(init, name);
      InsertByNameSorted(last, SortByName(init, name), name);
      InsertByNamePermutes(last, SortByName(init, name), name);
    }
  }
}
