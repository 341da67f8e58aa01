/**
 * First occurrences under a key: the elements of a sequence that no
 * earlier element shares a key with, in input order. Both the company
 * deduplication of `sec_unique.py` and the candidate-domain deduplication
 * of `sec_domain_inference.py` keep exactly these.
 */
module Occurrences {
  /** No element before `s[i]` has its key. */
  predicate IsFirst<T, K(==)>(s: seq<T>, i: nat, key: T -> K)
    requires i < |s|
  {
    forall j :: 0 <= j < i ==> key(s[j]) != key(s[i])
  }

  /** The elements among the first `n` that are the first with their key,
      in input order. */
  function FirstOccurrences<T, K(==)>(s: seq<T>, n: nat, key: T -> K): seq<T>
    requires n <= |s|
  {
    if n == 0 then []
    else FirstOccurrences(s, n - 1, key) + (if IsFirst(s, n - 1, key) then [s[n - 1]] else [])
  }

  ghost predicate KeysDistinct<T, K>(u: seq<T>, key: T -> K) {
    forall i, j :: 0 <= i < j < |u| ==> key(u[i]) != key(u[j])
  }

  /** Every key among the first `n` of `s` is the key of an element of `u`. */
  ghost predicate KeysCovered<T, K>(s: seq<T>, n: nat, key: T -> K, u: seq<T>)
    requires n <= |s|
  {
    forall i :: 0 <= i < n ==> exists j :: 0 <= j < |u| && key(u[j]) == key(s[i])
  }

  /** Every element of `u` is one of the first `n` of `s` that is the first
      with its key. */
  ghost predicate AllFirst<T, K>(s: seq<T>, n: nat, key: T -> K, u: seq<T>)
    requires n <= |s|
  {
    forall j :: 0 <= j < |u| ==> exists i {:trigger s[i]} :: 0 <= i < n && u[j] == s[i] && IsFirst(s, i, key)
  }

  /** The `j`-th kept element is some `s[i]` that is first with its key. */
  lemma {:induction false} FirstOccurrenceAt<T, K>(s: seq<T>, n: nat, key: T -> K, j: nat)
    requires n <= |s| && j < |FirstOccurrences(s, n, key)|
    ensures exists i {:trigger s[i]} :: 0 <= i < n && FirstOccurrences(s, n, key)[j] == s[i] && IsFirst(s, i, key)
  {
    var u := FirstOccurrences(s, n - 1, key);
    var v := FirstOccurrences(s, n, key);
    if j < |u| {
      FirstOccurrenceAt(s, n - 1, key, j);
      var i :| 0 <= i < n - 1 && u[j] == s[i] && IsFirst(s, i, key);
      assert v[j] == s[i];
    } else {
      assert IsFirst(s, n - 1, key) && v[j] == s[n - 1];
    }
  }

  lemma FirstOccurrencesAreFirst<T, K>(s: seq<T>, n: nat, key: T -> K)
    requires n <= |s|
    ensures AllFirst(s, n, key, FirstOccurrences(s, n, key))
  {
    forall j | 0 <= j < |FirstOccurrences(s, n, key)|
      ensures exists i {:trigger s[i]} :: 0 <= i < n && FirstOccurrences(s, n, key)[j] == s[i] && IsFirst(s, i, key)
    {
      FirstOccurrenceAt(s, n, key, j);
    }
  }

  lemma {:induction false} FirstOccurrencesDistinct<T, K>(s: seq<T>, n: nat, key: T -> K)
    requires n <= |s|
    ensures KeysDistinct(FirstOccurrences(s, n, key), key)
  {
    var v := FirstOccurrences(s, n, key);
    if n == 0 {
      assert v == [];
    } else {
      FirstOccurrencesDistinct(s, n - 1, key);
      FirstOccurrencesAreFirst(s, n - 1, key);
      var u := FirstOccurrences(s, n - 1, key);
      forall i, j | 0 <= i < j < |v| ensures key(v[i]) != key(v[j]) {
        assert v[i] == u[i];
        if j == |u| {
          var i' :| 0 <= i' < n - 1 && u[i] == s[i'] && IsFirst(s, i', key);
          assert IsFirst(s, n - 1, key) && v[j] == s[n - 1];
        } else {
          assert v[j] == u[j];
        }
      }
      assert KeysDistinct(v, key);
    }
  }

  lemma {:induction false} FirstOccurrencesCover<T, K>(s: seq<T>, n: nat, key: T -> K)
    requires n <= |s|
    ensures KeysCovered(s, n, key, FirstOccurrences(s, n, key))
  {
    if n > 0 {
      FirstOccurrencesCover(s, n - 1, key);
      var u := FirstOccurrences(s, n - 1, key);
      var v := FirstOccurrences(s, n, key);
      forall i | 0 <= i < n ensures exists j :: 0 <= j < |v| && key(v[j]) == key(s[i]) {
        if i < n - 1 {
          var j :| 0 <= j < |u| && key(u[j]) == key(s[i]);
          assert v[j] == u[j];
        } else if IsFirst(s, n - 1, key) {
          assert v[|u|] == s[n - 1];
        } else {
          var i0 :| 0 <= i0 < n - 1 && key(s[i0]) == key(s[n - 1]);
          var j :| 0 <= j < |u| && key(u[j]) == key(s[i0]);
          assert v[j] == u[j];
        }
      }
      assert KeysCovered(s, n, key, v);
    }
  }

  /** What is kept has pairwise distinct keys, covers every key of the
      input, and consists of first occurrences only. */
  lemma FirstOccurrencesSpec<T, K>(s: seq<T>, key: T -> K)
    ensures var u := FirstOccurrences(s, |s|, key);
      KeysDistinct(u, key) && KeysCovered(s, |s|, key, u) && AllFirst(s, |s|, key, u)
  {
    FirstOccurrencesDistinct(s, |s|, key);
    FirstOccurrencesCover(s, |s|, key);
    FirstOccurrencesAreFirst(s, |s|, key);
  }

  /** A list whose keys are pairwise distinct is its own first
      occurrences. */
  lemma {:induction false} FirstOccurrencesOfDistinct<T, K>(s: seq<T>, n: nat, key: T -> K)
    requires n <= |s|
    requires KeysDistinct(s, key)
    ensures FirstOccurrences(s, n, key) == s[..n]
  {
    if n == 0 {
      assert FirstOccurrences(s, n, key) == [];
    } else {
      FirstOccurrencesOfDistinct(s, n - 1, key);
      assert IsFirst(s, n - 1, key);
      assert s[..n] == s[..n - 1] + [s[n - 1]];
    }
  }
}
