/**
 * `sec_unique.py`: a second deduplication pass over the target companies.
 * Two records are the same company when their normalised name, phone
 * and joined address agree; the first record with a key is kept, later
 * ones are counted as duplicates, and the first five duplicates are
 * reported with the index of the record they repeat.
 */
module Unique {
  import opened Common
  import opened Records
  import opened Occurrences

  // ---------------------------------------------------------------------
  // `normalize_field` and `create_dedup_key`

  /** `None` is `""`; a string is stripped and lower-cased. */
  function NormalizeField(value: Option<string>): string {
    match value
    case None => ""
    case Some(s) => Lower(Strip(s))
  }

  /** A normalised field has no surrounding whitespace, no upper-case
      letters, and normalising it again changes nothing. */
  lemma NormalizeFieldSpec(value: Option<string>)
    ensures var r := NormalizeField(value);
      && NoEdgeSpaces(r)
      && (forall i :: 0 <= i < |r| ==> !IsUpperAscii(r[i]))
      && NormalizeField(Some(r)) == r
  {
    if value.Some? {
      var t := Strip(value.value);
      var r := Lower(t);
      assert NoEdgeSpaces(r);
      StripNoEdgeSpaces(r);
      assert Lower(r) == r;
    }
  }

  /** The key that decides whether two records are the same company. */
  datatype DedupKey = DedupKey(name: string, phone: string, address: string)

  /** The normalised street1, street2, city, state and zip, in that order. */
  function AddressParts(a: Address): seq<string> {
    [NormalizeField(a.street1), NormalizeField(a.street2), NormalizeField(a.city),
     NormalizeField(a.state), NormalizeField(a.zip)]
  }

  /** `create_dedup_key`: the address is the single-space join of the
      non-empty normalised address parts. */
  function CreateDedupKey(r: Record): DedupKey {
    var a := r.company.address;
    DedupKey(NormalizeField(r.company.name), NormalizeField(a.phone), Join(NonEmpty(AddressParts(a)), " "))
  }

  /** Each part of the key is in normal form, and the address is empty
      exactly when every address part normalises to nothing. */
  lemma CreateDedupKeySpec(r: Record)
    ensures var key := CreateDedupKey(r);
      && NormalizeField(Some(key.name)) == key.name
      && NormalizeField(Some(key.phone)) == key.phone
      && (key.address == "" <==> forall i :: 0 <= i < 5 ==> AddressParts(r.company.address)[i] == "")
  {
    NormalizeFieldSpec(r.company.name);
    NormalizeFieldSpec(r.company.address.phone);
    var parts := AddressParts(r.company.address);
    JoinNonEmptyIsNonEmpty(NonEmpty(parts));
    NonEmptyIsEmpty(parts);
  }

  lemma {:induction false} NonEmptyIsEmpty(parts: seq<string>)
    ensures NonEmpty(parts) == [] <==> forall i :: 0 <= i < |parts| ==> parts[i] == ""
  {
    if parts != [] {
      NonEmptyIsEmpty(parts[1..]);
      assert forall i :: 1 <= i < |parts| ==> parts[i] == parts[1..][i - 1];
    }
  }

  /** Records that differ only in the case or the surrounding whitespace
      of their name are the same company. */
  lemma NameCaseIgnored(r: Record, name: string)
    requires r.company.name.Some?
    requires Lower(Strip(name)) == Lower(Strip(r.company.name.value))
    ensures CreateDedupKey(r.(company := r.company.(name := Some(name)))) == CreateDedupKey(r)
  {
  }

  // ---------------------------------------------------------------------
  // `deduplicate_companies`

  /** One reported duplicate: its name, the index of the record it repeats
      and its own index. */
  datatype DuplicateExample = DuplicateExample(name: Option<string>, originalIndex: nat, duplicateIndex: nat)

  const MaxExamples: nat := 5

  /** The loop's variables: `seen_keys`, `unique_companies`,
      `duplicate_count`, `duplicate_examples`. */
  datatype DedupState = DedupState(
    seen: map<DedupKey, nat>, unique: seq<Record>, duplicates: nat, examples: seq<DuplicateExample>)

  /** The loop's state after the first `n` records, with records told
      apart by `key` (`CreateDedupKey` in the script). */
  function DedupRun(s: seq<Record>, n: nat, key: Record -> DedupKey): DedupState
    requires n <= |s|
  {
    if n == 0 then DedupState(map[], [], 0, [])
    else
      var st := DedupRun(s, n - 1, key);
      var k := key(s[n - 1]);
      if k in st.seen then
        st.(duplicates := st.duplicates + 1,
            examples := if |st.examples| < MaxExamples
              then st.examples + [DuplicateExample(s[n - 1].company.name, st.seen[k], n - 1)]
              else st.examples)
      else st.(seen := st.seen[k := n - 1], unique := st.unique + [s[n - 1]])
  }

  // ---------------------------------------------------------------------
  // What the loop computes

  /** `seen_keys` maps exactly the keys met so far, each to the first index
      that has it. */
  ghost predicate SeenIsFirstIndex(s: seq<Record>, n: nat, key: Record -> DedupKey, seen: map<DedupKey, nat>)
    requires n <= |s|
  {
    && (forall i :: 0 <= i < n ==> key(s[i]) in seen)
    && (forall k :: k in seen ==> seen[k] < n && key(s[seen[k]]) == k && IsFirst(s, seen[k], key))
  }

  /** A reported duplicate repeats the first record with its key, which
      comes strictly before it, and carries the duplicate's name. */
  ghost predicate ExampleValid(s: seq<Record>, n: nat, key: Record -> DedupKey, e: DuplicateExample)
    requires n <= |s|
  {
    && e.originalIndex < e.duplicateIndex < n
    && key(s[e.originalIndex]) == key(s[e.duplicateIndex])
    && IsFirst(s, e.originalIndex, key)
    && e.name == s[e.duplicateIndex].company.name
  }

  lemma {:induction false} DedupRunSeen(s: seq<Record>, n: nat, key: Record -> DedupKey)
    requires n <= |s|
    ensures SeenIsFirstIndex(s, n, key, DedupRun(s, n, key).seen)
  {
    if n == 0 {
      assert DedupRun(s, n, key).seen == map[];
    } else {
      DedupRunSeen(s, n - 1, key);
      var st := DedupRun(s, n - 1, key);
      var k := key(s[n - 1]);
      if k !in st.seen {
        var seen := st.seen[k := n - 1];
        assert IsFirst(s, n - 1, key) by {
          forall j | 0 <= j < n - 1 ensures key(s[j]) != k {
            assert key(s[j]) in st.seen;
          }
        }
        assert SeenIsFirstIndex(s, n, key, seen);
      }
    }
  }

  /** `seen_keys` has one entry per kept record, and the kept records are
      the first occurrences. */
  lemma {:induction false} DedupRunUnique(s: seq<Record>, n: nat, key: Record -> DedupKey)
    requires n <= |s|
    ensures |DedupRun(s, n, key).seen| == |DedupRun(s, n, key).unique|
    ensures DedupRun(s, n, key).unique == FirstOccurrences(s, n, key)
  {
    if n == 0 {
      assert DedupRun(s, n, key).seen == map[];
    } else {
      DedupRunUnique(s, n - 1, key);
      DedupRunSeen(s, n - 1, key);
      var st := DedupRun(s, n - 1, key);
      var k := key(s[n - 1]);
      if k in st.seen {
        assert !IsFirst(s, n - 1, key) by {
          assert key(s[st.seen[k]]) == k;
        }
      } else {
        assert IsFirst(s, n - 1, key) by {
          forall j | 0 <= j < n - 1 ensures key(s[j]) != k {
            assert key(s[j]) in st.seen;
          }
        }
      }
    }
  }

  /** Every record is either kept or counted as a duplicate, and one valid
      example is reported for each of the first five duplicates, in index
      order. */
  lemma {:induction false} DedupRunCounts(s: seq<Record>, n: nat, key: Record -> DedupKey)
    requires n <= |s|
    ensures var st := DedupRun(s, n, key);
      && |st.unique| + st.duplicates == n
      && |st.examples| == (if st.duplicates < MaxExamples then st.duplicates else MaxExamples)
      && (forall k :: 0 <= k < |st.examples| ==> ExampleValid(s, n, key, st.examples[k]))
      && (forall k, l :: 0 <= k < l < |st.examples| ==> st.examples[k].duplicateIndex < st.examples[l].duplicateIndex)
  {
    DedupRunSizes(s, n, key);
    DedupRunExamples(s, n, key);
    DedupRunExamplesOrdered(s, n, key);
  }

  /** The examples name duplicates in increasing index order. */
  lemma {:induction false} DedupRunExamplesOrdered(s: seq<Record>, n: nat, key: Record -> DedupKey)
    requires n <= |s|
    ensures var ex := DedupRun(s, n, key).examples;
      && (forall k :: 0 <= k < |ex| ==> ex[k].duplicateIndex < n)
      && (forall k, l :: 0 <= k < l < |ex| ==> ex[k].duplicateIndex < ex[l].duplicateIndex)
  {
    if n > 0 {
      DedupRunExamplesOrdered(s, n - 1, key);
      var st := DedupRun(s, n - 1, key);
      var ex := DedupRun(s, n, key).examples;
      assert var e0 := DedupRun(s, n - 1, key).examples;
        forall k :: 0 <= k < |e0| ==> e0[k].duplicateIndex < n - 1;
      if key(s[n - 1]) in st.seen && |st.examples| < MaxExamples {
        assert ex == st.examples + [DuplicateExample(s[n - 1].company.name, st.seen[key(s[n - 1])], n - 1)];
        forall k | 0 <= k < |ex| ensures ex[k].duplicateIndex < n {
          if k < |st.examples| {
            assert ex[k] == st.examples[k];
          }
        }
        forall k, l | 0 <= k < l < |ex| ensures ex[k].duplicateIndex < ex[l].duplicateIndex {
          assert ex[k] == st.examples[k];
          if l < |st.examples| {
            assert ex[l] == st.examples[l];
          }
        }
      } else {
        assert ex == st.examples;
      }
    }
  }

  /** Duplicate `i` is named by one of the examples. */
  ghost predicate Listed(ex: seq<DuplicateExample>, i: nat)
  {
    exists k :: 0 <= k < |ex| && ex[k].duplicateIndex == i
  }

  /** Duplicate `i` had to be reported: fewer than five examples were
      collected, or it comes no later than the last one collected. */
  ghost predicate MustBeListed(s: seq<Record>, key: Record -> DedupKey, ex: seq<DuplicateExample>, i: nat)
    requires i < |s|
  {
    && !IsFirst(s, i, key)
    && (|ex| < MaxExamples || i <= ex[|ex| - 1].duplicateIndex)
  }

  /** The examples are the first duplicates: every repeated record before
      the last example, or any repeated record at all while fewer than five
      are reported, is among them. */
  lemma {:induction false} DedupRunExamplesFirst(s: seq<Record>, n: nat, key: Record -> DedupKey)
    requires n <= |s|
    ensures var ex := DedupRun(s, n, key).examples;
      forall i :: 0 <= i < n && MustBeListed(s, key, ex, i) ==> Listed(ex, i)
  {
    if n > 0 {
      DedupRunExamplesFirst(s, n - 1, key);
      var st := DedupRun(s, n - 1, key);
      var ex := DedupRun(s, n, key).examples;
      assert var e0 := DedupRun(s, n - 1, key).examples;
        forall i :: 0 <= i < n - 1 && MustBeListed(s, key, e0, i) ==> Listed(e0, i);
      var k := key(s[n - 1]);
      if k in st.seen && |st.examples| < MaxExamples {
        assert ex == st.examples + [DuplicateExample(s[n - 1].company.name, st.seen[k], n - 1)];
        forall i | 0 <= i < n && MustBeListed(s, key, ex, i) ensures Listed(ex, i) {
          if i == n - 1 {
            assert ex[|st.examples|].duplicateIndex == i;
          } else {
            assert MustBeListed(s, key, st.examples, i);
            var m :| 0 <= m < |st.examples| && st.examples[m].duplicateIndex == i;
            assert ex[m] == st.examples[m];
          }
        }
      } else if k in st.seen {
        assert ex == st.examples;
        forall i | 0 <= i < n && MustBeListed(s, key, ex, i) ensures Listed(ex, i) {
          DedupRunExamplesOrdered(s, n - 1, key);
          assert ex[|ex| - 1].duplicateIndex < n - 1;
        }
      } else {
        assert ex == st.examples;
        DedupRunSeen(s, n - 1, key);
        assert IsFirst(s, n - 1, key) by {
          forall j | 0 <= j < n - 1 ensures key(s[j]) != k {
            assert key(s[j]) in st.seen;
          }
        }
      }
    }
  }

  lemma {:induction false} DedupRunSizes(s: seq<Record>, n: nat, key: Record -> DedupKey)
    requires n <= |s|
    ensures var st := DedupRun(s, n, key);
      && |st.unique| + st.duplicates == n
      && |st.examples| == (if st.duplicates < MaxExamples then st.duplicates else MaxExamples)
  {
    if n > 0 {
      DedupRunSizes(s, n - 1, key);
    }
  }

  lemma {:induction false} DedupRunExamples(s: seq<Record>, n: nat, key: Record -> DedupKey)
    requires n <= |s|
    ensures forall k :: 0 <= k < |DedupRun(s, n, key).examples| ==>
      ExampleValid(s, n, key, DedupRun(s, n, key).examples[k])
  {
    if n > 0 {
      DedupRunExamples(s, n - 1, key);
      DedupRunSeen(s, n - 1, key);
      var st := DedupRun(s, n - 1, key);
      forall k | 0 <= k < |st.examples| ensures ExampleValid(s, n, key, st.examples[k]) {
        assert ExampleValid(s, n - 1, key, st.examples[k]);
      }
    }
  }

  /** Deduplicating the output again keeps every record and finds no
      duplicate. */
  lemma DedupIdempotent(s: seq<Record>, key: Record -> DedupKey)
    ensures var u := DedupRun(s, |s|, key).unique;
      DedupRun(u, |u|, key).unique == u && DedupRun(u, |u|, key).duplicates == 0
  {
    var u := DedupRun(s, |s|, key).unique;
    DedupRunUnique(s, |s|, key);
    FirstOccurrencesDistinct(s, |s|, key);
    DedupRunUnique(u, |u|, key);
    FirstOccurrencesOfDistinct(u, |u|, key);
    assert u[..|u|] == u;
    DedupRunCounts(u, |u|, key);
  }

  /** What `deduplicate_companies` reports besides the list. */
  datatype DedupStats = DedupStats(duplicateExamples: seq<DuplicateExample>, uniqueKeys: nat)

  /** `deduplicate_companies`. The kept list is the first record of each
      key in input order, kept and duplicate counts add up to the input
      length, `unique_keys` is the number of kept records, and one valid
      example is reported for each of the first five duplicates, in index
      order. */
  method DeduplicateCompanies(companies: seq<Record>)
    returns (unique: seq<Record>, duplicateCount: nat, stats: DedupStats)
    ensures unique == FirstOccurrences(companies, |companies|, CreateDedupKey)
    ensures |unique| + duplicateCount == |companies|
    ensures stats.uniqueKeys == |unique|
    ensures |stats.duplicateExamples| == if duplicateCount < MaxExamples then duplicateCount else MaxExamples
    ensures forall k :: 0 <= k < |stats.duplicateExamples| ==>
      ExampleValid(companies, |companies|, CreateDedupKey, stats.duplicateExamples[k])
    ensures forall k, l :: 0 <= k < l < |stats.duplicateExamples| ==>
      stats.duplicateExamples[k].duplicateIndex < stats.duplicateExamples[l].duplicateIndex
  {
    var st := DedupWith(companies, CreateDedupKey);
    unique, duplicateCount, stats := st.unique, st.duplicates, DedupStats(st.examples, |st.seen|);
    DedupRunUnique(companies, |companies|, CreateDedupKey);
    DedupRunCounts(companies, |companies|, CreateDedupKey);
  }

  /** The loop of `deduplicate_companies`, with records told apart by
      `key`: its final variables are the fold `DedupRun`. */
  method DedupWith(companies: seq<Record>, key: Record -> DedupKey) returns (st: DedupState)
    ensures st == DedupRun(companies, |companies|, key)
  {
    var seen: map<DedupKey, nat> := map[];
    var unique: seq<Record> := [];
    var duplicateCount: nat := 0;
    var examples: seq<DuplicateExample> := [];
    for idx := 0 to |companies|
      invariant DedupRun(companies, idx, key) == DedupState(seen, unique, duplicateCount, examples)
    {
      var company := companies[idx];
      var k := key(company);
      if k in seen {
        duplicateCount := duplicateCount + 1;
        if |examples| < MaxExamples {
          var originalIdx := seen[k];
          examples := examples + [DuplicateExample(company.company.name, originalIdx, idx)];
        }
        continue;
      }
      seen := seen[k := idx];
      unique := unique + [company];
    }
    st := DedupState(seen, unique, duplicateCount, examples);
  }
}
