/**
 * Shared vocabulary of the SEC Form D pipeline model: optional values,
 * the string operations the Python scripts use (strip, lower, upper,
 * isalpha, ' '.join, truthiness), order-preserving filtering and counting,
 * and an insertion-ordered counter standing for a `defaultdict(int)`.
 *
 * Characters are Unicode scalar values; case mapping and `isalpha` are
 * modelled on ASCII letters, whitespace on the code points below U+0100
 * that Python's `str.isspace` accepts.
 */
module Common {

  datatype Option<T> = None | Some(value: T)

  /** Python truthiness of an optional string: not `None` and not `""`. */
  predicate Truthy(o: Option<string>) {
    o.Some? && o.value != ""
  }

  // ---------------------------------------------------------------------
  // Characters

  predicate IsSpace(c: char) {
    var n := c as int;
    n == 32 || 9 <= n <= 13 || 28 <= n <= 31 || n == 0x85 || n == 0xA0
  }

  predicate IsUpperAscii(c: char) { 'A' <= c <= 'Z' }
  predicate IsLowerAscii(c: char) { 'a' <= c <= 'z' }
  predicate IsLetter(c: char) { IsUpperAscii(c) || IsLowerAscii(c) }
  predicate IsDigit(c: char) { '0' <= c <= '9' }

  function LowerChar(c: char): (r: char)
    ensures !IsUpperAscii(r)
    ensures IsLetter(r) <==> IsLetter(c)
    ensures IsSpace(r) <==> IsSpace(c)
    ensures !IsUpperAscii(c) ==> r == c
  {
    if IsUpperAscii(c) then (c as int + 32) as char else c
  }

  function UpperChar(c: char): (r: char)
    ensures !IsLowerAscii(r)
    ensures IsLetter(r) <==> IsLetter(c)
    ensures IsSpace(r) <==> IsSpace(c)
    ensures !IsLowerAscii(c) ==> r == c
  {
    if IsLowerAscii(c) then (c as int - 32) as char else c
  }

  // ---------------------------------------------------------------------
  // Strings

  /** `str.lower()` on ASCII letters. */
  function Lower(s: string): (r: string)
    ensures |r| == |s|
    ensures forall i :: 0 <= i < |s| ==> r[i] == LowerChar(s[i])
  {
    seq(|s|, i requires 0 <= i < |s| => LowerChar(s[i]))
  }

  /** `str.upper()` on ASCII letters. */
  function Upper(s: string): (r: string)
    ensures |r| == |s|
    ensures forall i :: 0 <= i < |s| ==> r[i] == UpperChar(s[i])
  {
    seq(|s|, i requires 0 <= i < |s| => UpperChar(s[i]))
  }

  /** `str.isalpha()`: non-empty and every character a letter. */
  predicate IsAlpha(s: string) {
    |s| > 0 && forall i :: 0 <= i < |s| ==> IsLetter(s[i])
  }

  function TrimLeft(s: string): (r: string)
    ensures |r| <= |s|
    ensures r == [] || !IsSpace(r[0])
    ensures forall i :: 0 <= i < |s| - |r| ==> IsSpace(s[i])
  {
    if s != [] && IsSpace(s[0]) then TrimLeft(s[1..]) else s
  }

  function TrimRight(s: string): (r: string)
    ensures |r| <= |s|
    ensures r == [] || !IsSpace(r[|r| - 1])
    ensures forall i :: |r| <= i < |s| ==> IsSpace(s[i])
  {
    if s != [] && IsSpace(s[|s| - 1]) then TrimRight(s[..|s| - 1]) else s
  }

  /** What `TrimLeft` keeps is a suffix of its input. */
  lemma {:induction false} TrimLeftSuffix(s: string)
    ensures TrimLeft(s) == s[|s| - |TrimLeft(s)|..]
  {
    if s != [] && IsSpace(s[0]) {
      TrimLeftSuffix(s[1..]);
    }
  }

  /** What `TrimRight` keeps is a prefix of its input. */
  lemma {:induction false} TrimRightPrefix(s: string)
    ensures TrimRight(s) == s[..|TrimRight(s)|]
  {
    if s != [] && IsSpace(s[|s| - 1]) {
      TrimRightPrefix(s[..|s| - 1]);
    }
  }

  predicate NoEdgeSpaces(s: string) {
    s == [] || (!IsSpace(s[0]) && !IsSpace(s[|s| - 1]))
  }

  /** `str.strip()`: the longest infix with no whitespace at either end. */
  function Strip(s: string): (r: string)
    ensures |r| <= |s|
    ensures NoEdgeSpaces(r)
  {
    var t := TrimLeft(s);
    TrimRightPrefix(t);
    TrimRight(t)
  }

  /** Only an all-whitespace string strips to nothing. */
  lemma StripEmpty(s: string)
    ensures Strip(s) == [] <==> forall i :: 0 <= i < |s| ==> IsSpace(s[i])
  {
    TrimLeftSuffix(s);
    TrimRightPrefix(TrimLeft(s));
  }

  /** `Strip(s)` is `s` with its leading and trailing whitespace cut off:
      an infix whose two cut-off ends are all whitespace and whose own ends
      are not, which makes it the longest such infix. */
  lemma StripSpec(s: string)
    ensures exists i, j ::
      && 0 <= i <= j <= |s| && Strip(s) == s[i..j]
      && (forall k :: 0 <= k < i ==> IsSpace(s[k]))
      && (forall k :: j <= k < |s| ==> IsSpace(s[k]))
      && NoEdgeSpaces(s[i..j])
  {
    var t := TrimLeft(s);
    TrimLeftSuffix(s);
    TrimRightPrefix(t);
    var i := |s| - |t|;
    var j := i + |Strip(s)|;
    assert Strip(s) == s[i..j];
    forall k | j <= k < |s| ensures IsSpace(s[k]) {
      assert s[k] == t[k - i];
    }
  }

  /** A string with no whitespace at either end is its own strip. */
  lemma StripNoEdgeSpaces(s: string)
    requires NoEdgeSpaces(s)
    ensures Strip(s) == s
  {
    if s != [] {
      assert TrimLeft(s) == s;
    }
  }

  /** `sep.join(parts)`. */
  function Join(parts: seq<string>, sep: string): string {
    if |parts| == 0 then ""
    else if |parts| == 1 then parts[0]
    else parts[0] + sep + Join(parts[1..], sep)
  }

  /** `[p for p in parts if p]` over optional strings. */
  function KeepTruthy(parts: seq<Option<string>>): (r: seq<string>)
    ensures |r| <= |parts|
    ensures forall x :: x in r ==> x != "" && Some(x) in parts
  {
    if parts == [] then []
    else (if Truthy(parts[0]) then [parts[0].value] else []) + KeepTruthy(parts[1..])
  }

  lemma {:induction false} KeepTruthyAppend(parts: seq<Option<string>>, x: Option<string>)
    ensures KeepTruthy(parts + [x]) == KeepTruthy(parts) + (if Truthy(x) then [x.value] else [])
  {
    if parts != [] {
      assert (parts + [x])[1..] == parts[1..] + [x];
      KeepTruthyAppend(parts[1..], x);
    }
  }

  lemma {:induction false} KeepTruthyEmpty(parts: seq<Option<string>>)
    ensures KeepTruthy(parts) == [] <==> forall i :: 0 <= i < |parts| ==> !Truthy(parts[i])
  {
    if parts != [] {
      KeepTruthyEmpty(parts[1..]);
      assert forall i :: 1 <= i < |parts| ==> parts[i] == parts[1..][i - 1];
    }
  }

  /** `filter(None, parts)` over strings. */
  function NonEmpty(parts: seq<string>): (r: seq<string>)
    ensures |r| <= |parts|
    ensures forall x :: x in r ==> x != "" && x in parts
    ensures forall x :: x in parts && x != "" ==> x in r
  {
    if parts == [] then []
    else (if parts[0] != "" then [parts[0]] else []) + NonEmpty(parts[1..])
  }

  /** One more part is kept, at the end, exactly when it is non-empty, so
      the kept parts are the non-empty ones in their order. */
  lemma {:induction false} NonEmptyAppend(parts: seq<string>, x: string)
    ensures NonEmpty(parts + [x]) == NonEmpty(parts) + (if x != "" then [x] else [])
  {
    if parts != [] {
      assert (parts + [x])[1..] == parts[1..] + [x];
      NonEmptyAppend(parts[1..], x);
    }
  }

  /** `s.startswith(p)` */
  predicate StartsWith(s: string, p: string) {
    |p| <= |s| && s[..|p|] == p
  }

  /** `s.endswith(p)` */
  predicate EndsWith(s: string, p: string) {
    |p| <= |s| && s[|s| - |p|..] == p
  }

  predicate Contains(s: string, c: char) {
    exists i :: 0 <= i < |s| && s[i] == c
  }

  // ---------------------------------------------------------------------
  // Sequences

  /** The elements of `s` satisfying `p`, in their order in `s`. */
  function Filter<T>(s: seq<T>, p: T -> bool): (r: seq<T>)
    ensures |r| <= |s|
    ensures forall x :: x in r ==> x in s && p(x)
    ensures forall x :: x in s && p(x) ==> x in r
  {
    if s == [] then [] else (if p(s[0]) then [s[0]] else []) + Filter(s[1..], p)
  }

  /** The number of elements of `s` satisfying `p`. */
  function Count<T>(s: seq<T>, p: T -> bool): nat {
    if s == [] then 0 else (if p(s[0]) then 1 else 0) + Count(s[1..], p)
  }

  lemma {:induction false} FilterAppend<T>(s: seq<T>, x: T, p: T -> bool)
    ensures Filter(s + [x], p) == Filter(s, p) + (if p(x) then [x] else [])
  {
    if s != [] {
      assert (s + [x])[1..] == s[1..] + [x];
      FilterAppend(s[1..], x, p);
    }
  }

  lemma {:induction false} CountAppend<T>(s: seq<T>, x: T, p: T -> bool)
    ensures Count(s + [x], p) == Count(s, p) + (if p(x) then 1 else 0)
  {
    if s != [] {
      assert (s + [x])[1..] == s[1..] + [x];
      CountAppend(s[1..], x, p);
    }
  }

  lemma FilterLast<T>(s: seq<T>, p: T -> bool)
    requires s != []
    ensures Filter(s, p) == Filter(s[..|s| - 1], p) + (if p(s[|s| - 1]) then [s[|s| - 1]] else [])
  {
    FilterAppend(s[..|s| - 1], s[|s| - 1], p);
    assert s[..|s| - 1] + [s[|s| - 1]] == s;
  }

  /** `FilterLast` on the prefix `s[..n]`. */
  lemma FilterPrefix<T>(s: seq<T>, n: nat, p: T -> bool)
    requires 0 < n <= |s|
    ensures Filter(s[..n], p) == Filter(s[..n - 1], p) + (if p(s[n - 1]) then [s[n - 1]] else [])
  {
    FilterLast(s[..n], p);
    assert s[..n][..n - 1] == s[..n - 1];
  }

  /** `CountLast` on the prefix `s[..n]`. */
  lemma CountPrefix<T>(s: seq<T>, n: nat, p: T -> bool)
    requires 0 < n <= |s|
    ensures Count(s[..n], p) == Count(s[..n - 1], p) + (if p(s[n - 1]) then 1 else 0)
  {
    CountLast(s[..n], p);
    assert s[..n][..n - 1] == s[..n - 1];
  }

  /** `CountLast` on the slice `s[a..b]`. */
  lemma CountSlice<T>(s: seq<T>, a: nat, b: nat, p: T -> bool)
    requires a < b <= |s|
    ensures Count(s[a..b], p) == Count(s[a..b - 1], p) + (if p(s[b - 1]) then 1 else 0)
  {
    CountLast(s[a..b], p);
    assert s[a..b][..b - 1 - a] == s[a..b - 1];
  }

  lemma CountLast<T>(s: seq<T>, p: T -> bool)
    requires s != []
    ensures Count(s, p) == Count(s[..|s| - 1], p) + (if p(s[|s| - 1]) then 1 else 0)
  {
    CountAppend(s[..|s| - 1], s[|s| - 1], p);
    assert s[..|s| - 1] + [s[|s| - 1]] == s;
  }

  lemma {:induction false} FilterLength<T>(s: seq<T>, p: T -> bool)
    ensures |Filter(s, p)| == Count(s, p)
  {
    if s != [] {
      FilterLength(s[1..], p);
    }
  }

  /** Filtering keeps a sequence whose every element passes. */
  lemma {:induction false} FilterAll<T>(s: seq<T>, p: T -> bool)
    requires forall i :: 0 <= i < |s| ==> p(s[i])
    ensures Filter(s, p) == s
  {
    if s != [] {
      FilterAll(s[1..], p);
    }
  }

  /** Sum of `f` over `s`, e.g. the total number of related persons. */
  function SumOf<T>(s: seq<T>, f: T -> nat): nat {
    if s == [] then 0 else f(s[0]) + SumOf(s[1..], f)
  }

  lemma {:induction false} SumOfAppend<T>(s: seq<T>, x: T, f: T -> nat)
    ensures SumOf(s + [x], f) == SumOf(s, f) + f(x)
  {
    if s != [] {
      assert (s + [x])[1..] == s[1..] + [x];
      SumOfAppend(s[1..], x, f);
    }
  }

  predicate Distinct<T(==)>(s: seq<T>) {
    forall i, j :: 0 <= i < j < |s| ==> s[i] != s[j]
  }

  /** Python's `l[:n]`: a negative bound counts from the end. */
  function SliceTo<T>(s: seq<T>, n: int): (r: seq<T>)
    ensures 0 <= n ==> |r| == if n < |s| then n else |s|
    ensures n < 0 ==> |r| == if |s| + n < 0 then 0 else |s| + n
    ensures r == s[..|r|]
  {
    if n >= 0 then s[..if n < |s| then n else |s|]
    else s[..if |s| + n < 0 then 0 else |s| + n]
  }

  // ---------------------------------------------------------------------
  // Insertion-ordered counter: a `defaultdict(int)` that is only ever
  // incremented by one.

  datatype Counter<K(==)> = Counter(keys: seq<K>, counts: map<K, nat>) {

    ghost predicate Valid() {
      && Distinct(keys)
      && (forall k :: k in counts ==> k in keys)
      && (forall i :: 0 <= i < |keys| ==> keys[i] in counts)
    }

    function Get(k: K): nat {
      if k in counts then counts[k] else 0
    }

    /** `d[k] += 1` */
    function Inc(k: K): Counter<K> {
      if k in counts then Counter(keys, counts[k := counts[k] + 1])
      else Counter(keys + [k], counts[k := 1])
    }

    /** `sum(d.values())` */
    function Total(): nat {
      SumCounts(keys, counts)
    }
  }

  function EmptyCounter<K(==)>(): (c: Counter<K>)
    ensures c.Valid() && c.Total() == 0
  {
    Counter([], map[])
  }

  function SumCounts<K(==)>(keys: seq<K>, m: map<K, nat>): nat {
    if keys == [] then 0
    else (if keys[0] in m then m[keys[0]] else 0) + SumCounts(keys[1..], m)
  }

  lemma {:induction false} SumCountsAppend<K>(keys: seq<K>, k: K, m: map<K, nat>)
    ensures SumCounts(keys + [k], m) == SumCounts(keys, m) + (if k in m then m[k] else 0)
  {
    if keys != [] {
      assert (keys + [k])[1..] == keys[1..] + [k];
      SumCountsAppend(keys[1..], k, m);
    }
  }

  lemma {:induction false} SumCountsUpdateOutside<K>(keys: seq<K>, m: map<K, nat>, k: K, v: nat)
    requires k !in keys
    ensures SumCounts(keys, m[k := v]) == SumCounts(keys, m)
  {
    if keys != [] {
      SumCountsUpdateOutside(keys[1..], m, k, v);
    }
  }

  lemma {:induction false} SumCountsBump<K>(keys: seq<K>, m: map<K, nat>, k: K)
    requires Distinct(keys) && k in keys && k in m
    ensures SumCounts(keys, m[k := m[k] + 1]) == SumCounts(keys, m) + 1
  {
    if keys[0] == k {
      assert k !in keys[1..];
      SumCountsUpdateOutside(keys[1..], m, k, m[k] + 1);
    } else {
      SumCountsBump(keys[1..], m, k);
    }
  }

  /** Incrementing a key raises that key's count by one and leaves every
      other count alone, well formed or not. */
  lemma IncGet<K>(c: Counter<K>, k: K)
    ensures c.Inc(k).Get(k) == c.Get(k) + 1
    ensures forall j :: j != k ==> c.Inc(k).Get(j) == c.Get(j)
  {
  }

  /** Incrementing a key keeps the counter well formed, raises that key's
      count and the total by one, and leaves every other count alone. */
  lemma IncSpec<K>(c: Counter<K>, k: K)
    requires c.Valid()
    ensures c.Inc(k).Valid()
    ensures c.Inc(k).Total() == c.Total() + 1
    ensures c.Inc(k).Get(k) == c.Get(k) + 1
    ensures forall j :: j != k ==> c.Inc(k).Get(j) == c.Get(j)
  {
    if k in c.counts {
      SumCountsBump(c.keys, c.counts, k);
    } else {
      SumCountsAppend(c.keys, k, c.counts[k := 1]);
      SumCountsUpdateOutside(c.keys, c.counts, k, 1);
    }
  }
}
