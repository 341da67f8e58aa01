/**
 * `sec_domain_inference.py`: candidate web domains for each company.
 * A company name is lower-cased, stripped, cut of its legal-form suffixes
 * and reduced to a hyphenated stem; the stem is combined with the first
 * few domain patterns, a hyphen-free `.com` candidate is put second when
 * the stem has hyphens, and duplicates are dropped. A resumable loop
 * attaches the candidates to every company from a resume cursor on.
 *
 * Regular expressions are modelled over the same character classes as
 * `Common`: `\s` is `IsSpace`, `\w` is an ASCII letter, digit or `_`.
 */
module Domain {
  import opened Common
  import opened Records
  import opened Occurrences

  // ---------------------------------------------------------------------
  // `COMPANY_SUFFIXES` and one `re.sub(pattern, '', s)`

  /** A suffix pattern `,?\s+(w1|w2|...)$` (`comma` says whether the
      optional leading comma is part of it); each word alternative is
      spelled out, so `inc\.?` is the two words `inc` and `inc.`. */
  datatype SuffixPattern = SuffixPattern(comma: bool, words: seq<string>)

  function Plain(words: seq<string>): SuffixPattern { SuffixPattern(false, words) }

  /** The suffix patterns, in the order they are applied. */
  const CompanySuffixes: seq<SuffixPattern> := [
    Plain(["inc", "inc."]),
    Plain(["incorporated"]),
    Plain(["llc", "llc."]),
    Plain(["ltd", "ltd."]),
    Plain(["limited"]),
    Plain(["corp", "corp."]),
    Plain(["corporation"]),
    Plain(["co", "co."]),
    Plain(["company"]),
    Plain(["lp", "lp.", "l.p", "l.p."]),
    Plain(["lp"]),
    Plain(["plc", "plc."]),
    Plain(["group"]),
    Plain(["holding", "holdings"]),
    Plain(["venture", "ventures"]),
    Plain(["partner", "partners"]),
    Plain(["investment", "investments"]),
    Plain(["capital"]),
    Plain(["fund"]),
    Plain(["technologies"]),
    Plain(["technology"]),
    Plain(["tech"]),
    Plain(["solution", "solutions"]),
    Plain(["service", "services"]),
    Plain(["enterprise", "enterprises"]),
    SuffixPattern(true, ["llc", "llc."]),
    SuffixPattern(true, ["inc", "inc."])
  ]

  predicate AllSpaces(g: string) {
    forall i :: 0 <= i < |g| ==> IsSpace(g[i])
  }

  /** `g` is what `,?\s+` matches: at least one whitespace character,
      optionally preceded by a comma when the pattern allows one. */
  predicate SpacesWithComma(g: string, comma: bool) {
    (|g| >= 1 && AllSpaces(g)) || (comma && |g| >= 2 && g[0] == ',' && AllSpaces(g[1..]))
  }

  /** The whole of `t` is matched by the pattern body before `$`. */
  predicate MatchesBody(t: string, p: SuffixPattern) {
    MatchesSomeWord(t, p.comma, p.words)
  }

  /** `t` is `,?\s+` followed by one of `words`. */
  predicate MatchesSomeWord(t: string, comma: bool, words: seq<string>) {
    words != [] && (MatchesWord(t, comma, words[0]) || MatchesSomeWord(t, comma, words[1..]))
  }

  predicate MatchesWord(t: string, comma: bool, w: string) {
    |w| < |t| && t[|t| - |w|..] == w && SpacesWithComma(t[..|t| - |w|], comma)
  }

  /** Where a match starting at `i` ends: `$` holds at the end of the
      string and also just before a final newline. */
  predicate MatchAt(s: string, p: SuffixPattern, i: nat, e: nat) {
    i <= e <= |s| && (e == |s| || (e == |s| - 1 && s[e] == '\n')) && MatchesBody(s[i..e], p)
  }

  datatype Span = Span(start: nat, end: nat)

  /** The leftmost match starting at or after `i`. */
  function FindMatch(s: string, p: SuffixPattern, i: nat): (r: Option<Span>)
    requires i <= |s|
    ensures r.Some? ==> i <= r.value.start <= r.value.end <= |s|
    decreases |s| - i
  {
    if MatchesBody(s[i..], p) then Some(Span(i, |s|))
    else if 0 < |s| && i < |s| && s[|s| - 1] == '\n' && MatchesBody(s[i..|s| - 1], p) then Some(Span(i, |s| - 1))
    else if i == |s| then None
    else FindMatch(s, p, i + 1)
  }

  /** `re.sub(pattern, '', s)`: a match needs whitespace and ends at `$`,
      so the leftmost match is the only one, and it is cut out. */
  function SubSuffix(s: string, p: SuffixPattern): string {
    match FindMatch(s, p, 0)
    case None => s
    case Some(m) => s[..m.start] + s[m.end..]
  }

  /** No match starts at `i` that ends anywhere. */
  predicate NoMatchFrom(s: string, p: SuffixPattern, i: nat) {
    forall e :: i <= e <= |s| ==> !MatchAt(s, p, i, e)
  }

  lemma NoMatchAt(s: string, p: SuffixPattern, i: nat)
    requires i <= |s|
    requires !MatchesBody(s[i..], p)
    requires !(0 < |s| && i < |s| && s[|s| - 1] == '\n' && MatchesBody(s[i..|s| - 1], p))
    ensures NoMatchFrom(s, p, i)
  {
    assert s[i..|s|] == s[i..];
  }

  /** Without a result, no match starts at or after `i`. */
  lemma {:induction false} FindMatchNone(s: string, p: SuffixPattern, i: nat)
    requires i <= |s| && FindMatch(s, p, i).None?
    ensures forall j :: i <= j <= |s| ==> NoMatchFrom(s, p, j)
    decreases |s| - i
  {
    FindMatchNoneHere(s, p, i);
    if i < |s| {
      assert FindMatch(s, p, i + 1).None?;
      FindMatchNone(s, p, i + 1);
      forall j | i <= j <= |s| ensures NoMatchFrom(s, p, j) {
        if j != i {
          assert i + 1 <= j;
        }
      }
    }
  }

  lemma FindMatchNoneHere(s: string, p: SuffixPattern, i: nat)
    requires i <= |s| && FindMatch(s, p, i).None?
    ensures NoMatchFrom(s, p, i)
  {
    NoMatchAt(s, p, i);
  }

  /** A result is a match, and none starts between `i` and it. */
  lemma FindMatchSome(s: string, p: SuffixPattern, i: nat)
    requires i <= |s| && FindMatch(s, p, i).Some?
    ensures MatchAt(s, p, FindMatch(s, p, i).value.start, FindMatch(s, p, i).value.end)
    ensures forall j :: i <= j < FindMatch(s, p, i).value.start ==> NoMatchFrom(s, p, j)
  {
    FindMatchIsMatch(s, p, i);
    FindMatchLeftmost(s, p, i);
  }

  lemma {:induction false} FindMatchIsMatch(s: string, p: SuffixPattern, i: nat)
    requires i <= |s| && FindMatch(s, p, i).Some?
    ensures MatchAt(s, p, FindMatch(s, p, i).value.start, FindMatch(s, p, i).value.end)
    decreases |s| - i
  {
    if MatchesBody(s[i..], p) {
      assert s[i..|s|] == s[i..];
    } else if 0 < |s| && i < |s| && s[|s| - 1] == '\n' && MatchesBody(s[i..|s| - 1], p) {
    } else {
      assert FindMatch(s, p, i) == FindMatch(s, p, i + 1);
      FindMatchIsMatch(s, p, i + 1);
    }
  }

  lemma {:induction false} FindMatchLeftmost(s: string, p: SuffixPattern, i: nat)
    requires i <= |s| && FindMatch(s, p, i).Some?
    ensures forall j :: i <= j < FindMatch(s, p, i).value.start ==> NoMatchFrom(s, p, j)
    decreases |s| - i
  {
    var m := FindMatch(s, p, i).value;
    if m.start != i {
      assert FindMatch(s, p, i) == FindMatch(s, p, i + 1);
      NoMatchAt(s, p, i);
      FindMatchLeftmost(s, p, i + 1);
    }
  }

  /** One substitution removes exactly the leftmost match, if there is
      one, and changes nothing otherwise. */
  lemma SubSuffixSpec(s: string, p: SuffixPattern)
    ensures (forall j :: 0 <= j <= |s| ==> NoMatchFrom(s, p, j)) ==> SubSuffix(s, p) == s
    ensures SubSuffix(s, p) == s || exists j, e :: (0 <= j <= e <= |s| && MatchAt(s, p, j, e)
      && SubSuffix(s, p) == s[..j] + s[e..] && forall j' :: 0 <= j' < j ==> NoMatchFrom(s, p, j'))
  {
    if FindMatch(s, p, 0).None? {
      FindMatchNone(s, p, 0);
    } else {
      FindMatchSome(s, p, 0);
      var m := FindMatch(s, p, 0).value;
      assert !NoMatchFrom(s, p, m.start);
    }
  }

  /** The first `k` suffix patterns applied one after the other. */
  function SubSuffixes(s: string, k: nat): string
    requires k <= |CompanySuffixes|
  {
    if k == 0 then s else SubSuffix(SubSuffixes(s, k - 1), CompanySuffixes[k - 1])
  }

  // ---------------------------------------------------------------------
  // The character clean-up after suffix removal

  /** `\w`: an ASCII letter, a digit or `_`. */
  predicate IsWordChar(c: char) { IsLetter(c) || IsDigit(c) || c == '_' }

  /** The characters `[^\w\s-]` does not match, which stay. */
  predicate IsKeptChar(c: char) { IsWordChar(c) || IsSpace(c) || c == '-' }

  /** The two character classes whose runs become a single hyphen. */
  datatype Separators = SpacesOrUnderscores | Hyphens

  predicate IsSeparator(c: char, cls: Separators) {
    match cls
    case SpacesOrUnderscores => IsSpace(c) || c == '_'
    case Hyphens => c == '-'
  }

  /** `re.sub(r'[\s_]+', '-', s)` or `re.sub(r'-+', '-', s)`: every
      maximal run of separators becomes one hyphen. `inRun` says that the
      character before `s` was a separator of the same run. */
  function Squeeze(s: string, cls: Separators, inRun: bool): string {
    if s == [] then []
    else if IsSeparator(s[0], cls) then (if inRun then [] else ['-']) + Squeeze(s[1..], cls, true)
    else [s[0]] + Squeeze(s[1..], cls, false)
  }

  function DropLeadingHyphens(s: string): string {
    if s != [] && s[0] == '-' then DropLeadingHyphens(s[1..]) else s
  }

  function DropTrailingHyphens(s: string): string {
    if s != [] && s[|s| - 1] == '-' then DropTrailingHyphens(s[..|s| - 1]) else s
  }

  /** `s.strip('-')`. */
  function StripHyphens(s: string): string {
    DropTrailingHyphens(DropLeadingHyphens(s))
  }

  /** The four steps after suffix removal. */
  function Tidy(t: string): string {
    StripHyphens(Squeeze(Squeeze(Filter(t, IsKeptChar), SpacesOrUnderscores, false), Hyphens, false))
  }

  /** `clean_company_name`. */
  function CleanName(name: string): string {
    if name == [] then [] else Tidy(SubSuffixes(Strip(Lower(name)), |CompanySuffixes|))
  }

  // ---------------------------------------------------------------------
  // What a cleaned name looks like

  /** A lower-case ASCII letter, a digit or a hyphen. */
  predicate IsStemChar(c: char) { IsLowerAscii(c) || IsDigit(c) || c == '-' }

  predicate NoDoubleHyphen(s: string) {
    forall i :: 0 <= i < |s| - 1 ==> !(s[i] == '-' && s[i + 1] == '-')
  }

  /** The shape of every cleaned name: stem characters only, no two
      hyphens in a row and none at either end. */
  predicate IsStem(s: string) {
    && (forall i :: 0 <= i < |s| ==> IsStemChar(s[i]))
    && NoDoubleHyphen(s)
    && (s == [] || (s[0] != '-' && s[|s| - 1] != '-'))
  }

  predicate NoUpper(s: string) {
    forall i :: 0 <= i < |s| ==> !IsUpperAscii(s[i])
  }

  /** A substitution only removes characters. */
  lemma SubSuffixChars(s: string, p: SuffixPattern)
    ensures forall c :: c in SubSuffix(s, p) ==> c in s
  {
    match FindMatch(s, p, 0)
    case None =>
    case Some(m) =>
      assert forall c :: c in s[..m.start] + s[m.end..] ==> c in s[..m.start] || c in s[m.end..];
  }

  lemma {:induction false} SubSuffixesNoUpper(s: string, k: nat)
    requires k <= |CompanySuffixes| && NoUpper(s)
    ensures NoUpper(SubSuffixes(s, k))
  {
    if k > 0 {
      SubSuffixesNoUpper(s, k - 1);
      var t := SubSuffixes(s, k - 1);
      SubSuffixChars(t, CompanySuffixes[k - 1]);
      var r := SubSuffixes(s, k);
      forall i | 0 <= i < |r| ensures !IsUpperAscii(r[i]) {
        assert r[i] in t;
      }
    }
  }

  predicate StemChars(s: string) {
    forall i :: 0 <= i < |s| ==> IsStemChar(s[i])
  }

  /** Squeezing a string of stem characters and separators leaves stem
      characters only. */
  lemma {:induction false} SqueezeStemChars(s: string, cls: Separators, inRun: bool)
    requires forall i :: 0 <= i < |s| ==> IsStemChar(s[i]) || IsSeparator(s[i], cls)
    ensures StemChars(Squeeze(s, cls, inRun))
  {
    if s != [] {
      SqueezeStemChars(s[1..], cls, IsSeparator(s[0], cls));
    }
  }

  /** Squeezing hyphen runs leaves no two hyphens in a row, and none first
      when the previous character was already a hyphen. */
  lemma {:induction false} SqueezeHyphens(s: string, inRun: bool)
    ensures var r := Squeeze(s, Hyphens, inRun);
      NoDoubleHyphen(r) && (inRun ==> r == [] || r[0] != '-')
  {
    if s != [] {
      SqueezeHyphens(s[1..], s[0] == '-');
    }
  }

  lemma {:induction false} DropLeadingHyphensSpec(s: string)
    ensures var r := DropLeadingHyphens(s);
      && (r == [] || r[0] != '-')
      && (StemChars(s) ==> StemChars(r))
      && (NoDoubleHyphen(s) ==> NoDoubleHyphen(r))
  {
    if s != [] && s[0] == '-' {
      DropLeadingHyphensSpec(s[1..]);
    }
  }

  lemma {:induction false} DropTrailingHyphensSpec(s: string)
    ensures var r := DropTrailingHyphens(s);
      && (r == [] || r[|r| - 1] != '-')
      && (r == [] || s == [] || r[0] == s[0])
      && (StemChars(s) ==> StemChars(r))
      && (NoDoubleHyphen(s) ==> NoDoubleHyphen(r))
  {
    if s != [] && s[|s| - 1] == '-' {
      DropTrailingHyphensSpec(s[..|s| - 1]);
    }
  }

  /** The clean-up steps turn any string without upper-case letters into
      a stem. */
  lemma TidySpec(t: string)
    requires NoUpper(t)
    ensures IsStem(Tidy(t))
  {
    var a := Filter(t, IsKeptChar);
    var b := Squeeze(a, SpacesOrUnderscores, false);
    var c := Squeeze(b, Hyphens, false);
    forall i | 0 <= i < |a| ensures IsStemChar(a[i]) || IsSeparator(a[i], SpacesOrUnderscores) {
      assert a[i] in a;
    }
    SqueezeStemChars(a, SpacesOrUnderscores, false);
    SqueezeStemChars(b, Hyphens, false);
    SqueezeHyphens(b, false);
    var d := DropLeadingHyphens(c);
    DropLeadingHyphensSpec(c);
    DropTrailingHyphensSpec(d);
  }

  lemma StripNoUpper(s: string)
    requires NoUpper(s)
    ensures NoUpper(Strip(s))
  {
    TrimLeftSuffix(s);
    TrimRightPrefix(TrimLeft(s));
  }

  /** A cleaned name is empty for an empty name, and is always a stem: no
      whitespace, no underscore, no upper-case letter, no doubled hyphen
      and no hyphen at either end. */
  lemma CleanNameSpec(name: string)
    ensures name == [] ==> CleanName(name) == []
    ensures IsStem(CleanName(name))
    ensures forall i :: 0 <= i < |CleanName(name)| ==> !IsSpace(CleanName(name)[i]) && CleanName(name)[i] != '_'
  {
    if name != [] {
      var l := Lower(name);
      assert NoUpper(l);
      StripNoUpper(l);
      SubSuffixesNoUpper(Strip(l), |CompanySuffixes|);
      TidySpec(SubSuffixes(Strip(l), |CompanySuffixes|));
    }
  }

  /** A match always begins with whitespace, or with a comma and then
      whitespace. */
  lemma {:induction false} MatchesSomeWordSpace(t: string, comma: bool, words: seq<string>)
    requires MatchesSomeWord(t, comma, words)
    ensures 0 < |t| && (IsSpace(t[0]) || (1 < |t| && IsSpace(t[1])))
  {
    if !MatchesWord(t, comma, words[0]) {
      MatchesSomeWordSpace(t, comma, words[1..]);
    } else {
      var g := t[..|t| - |words[0]|];
      assert g[0] == t[0];
      if !AllSpaces(g) {
        assert g[1] == t[1];
      }
    }
  }

  predicate NoSpace(s: string) {
    forall i :: 0 <= i < |s| ==> !IsSpace(s[i])
  }

  lemma SubSuffixNoSpace(s: string, p: SuffixPattern)
    requires NoSpace(s)
    ensures SubSuffix(s, p) == s
  {
    if FindMatch(s, p, 0).Some? {
      FindMatchSome(s, p, 0);
      var m := FindMatch(s, p, 0).value;
      var t := s[m.start..m.end];
      MatchesSomeWordSpace(t, p.comma, p.words);
    }
  }

  lemma {:induction false} SubSuffixesNoSpace(s: string, k: nat)
    requires k <= |CompanySuffixes| && NoSpace(s)
    ensures SubSuffixes(s, k) == s
  {
    if k > 0 {
      SubSuffixesNoSpace(s, k - 1);
      SubSuffixNoSpace(s, CompanySuffixes[k - 1]);
    }
  }

  lemma {:induction false} SqueezeNoSeparator(s: string, cls: Separators, inRun: bool)
    requires forall i :: 0 <= i < |s| ==> !IsSeparator(s[i], cls)
    ensures Squeeze(s, cls, inRun) == s
  {
    if s != [] {
      SqueezeNoSeparator(s[1..], cls, false);
    }
  }

  lemma {:induction false} SqueezeSingleHyphens(s: string, inRun: bool)
    requires NoDoubleHyphen(s) && (inRun ==> s == [] || s[0] != '-')
    ensures Squeeze(s, Hyphens, inRun) == s
  {
    if s != [] {
      if s[0] == '-' && 1 < |s| {
        assert s[1] != '-';
      }
      SqueezeSingleHyphens(s[1..], s[0] == '-');
    }
  }

  /** Cleaning a stem gives it back. */
  lemma StemIsFixpoint(r: string)
    requires IsStem(r)
    ensures CleanName(r) == r
  {
    if r != [] {
      assert Lower(r) == r;
      StripNoEdgeSpaces(r);
      SubSuffixesNoSpace(r, |CompanySuffixes|);
      FilterAll(r, IsKeptChar);
      SqueezeNoSeparator(r, SpacesOrUnderscores, false);
      SqueezeSingleHyphens(r, false);
    }
  }

  /** `clean_company_name` is idempotent. */
  lemma CleanNameIdempotent(name: string)
    ensures CleanName(CleanName(name)) == CleanName(name)
  {
    CleanNameSpec(name);
    StemIsFixpoint(CleanName(name));
  }

  /** `clean_company_name`. */
  method CleanCompanyName(name: string) returns (cleaned: string)
    ensures cleaned == CleanName(name)
    ensures name == [] ==> cleaned == []
    ensures IsStem(cleaned)
  {
    CleanNameSpec(name);
    if name == [] {
      return "";
    }
    cleaned := RemoveSuffixes(Strip(Lower(name)));
    cleaned := Filter(cleaned, IsKeptChar);
    cleaned := Squeeze(cleaned, SpacesOrUnderscores, false);
    cleaned := Squeeze(cleaned, Hyphens, false);
    cleaned := StripHyphens(cleaned);
  }

  /** The loop over `COMPANY_SUFFIXES`: one substitution per pattern, in
      list order. */
  method RemoveSuffixes(s: string) returns (cleaned: string)
    ensures cleaned == SubSuffixes(s, |CompanySuffixes|)
  {
    cleaned := s;
    for k := 0 to |CompanySuffixes|
      invariant cleaned == SubSuffixes(s, k)
    {
      cleaned := SubSuffix(cleaned, CompanySuffixes[k]);
    }
  }

  // ---------------------------------------------------------------------
  // `infer_domain`

  /** `DOMAIN_PATTERNS`, in order of likelihood. */
  const DomainPatterns: seq<string> := [
    ".com", ".io", ".co", ".ai", ".tech", ".bio", "-bio.com", "bio.com",
    ".health", ".app", ".dev", ".net", ".org"]

  /** The default `max_patterns`. */
  const DefaultMaxPatterns: int := 5

  /** What a pattern adds to the stem: patterns starting with `-` or `.`
      are appended as they are, any other after a dot. */
  function PatternTail(pattern: string): string {
    if pattern != [] && pattern[0] == '-' then pattern
    else if pattern != [] && pattern[0] == '.' then pattern
    else "." + pattern
  }

  /** The candidates built from the patterns, one per pattern, in order. */
  function Candidates(stem: string, patterns: seq<string>): (r: seq<string>)
    ensures |r| == |patterns|
    ensures forall i :: 0 <= i < |patterns| ==> r[i] == stem + PatternTail(patterns[i])
  {
    seq(|patterns|, i requires 0 <= i < |patterns| => stem + PatternTail(patterns[i]))
  }

  /** Each candidate is the stem, then a `-` or a `.`, and ends with its
      pattern; no candidate adds more than one character besides. */
  lemma CandidatesShape(stem: string, patterns: seq<string>)
    ensures var r := Candidates(stem, patterns);
      forall i :: 0 <= i < |patterns| ==>
        && StartsWith(r[i], stem) && EndsWith(r[i], patterns[i])
        && |r[i]| > |stem| && r[i][|stem|] in "-."
        && |r[i]| <= |stem| + |patterns[i]| + 1
  {
    var r := Candidates(stem, patterns);
    forall i | 0 <= i < |patterns|
      ensures StartsWith(r[i], stem) && EndsWith(r[i], patterns[i])
    {
      var t := PatternTail(patterns[i]);
      assert r[i] == stem + t;
      assert r[i][..|stem|] == stem;
      if t == "." + patterns[i] {
        assert r[i][|r[i]| - |patterns[i]|..] == patterns[i];
      } else {
        assert r[i][|r[i]| - |patterns[i]|..] == patterns[i];
      }
    }
  }

  predicate IsNotHyphen(c: char) { c != '-' }

  /** `s.replace('-', '')`. */
  function RemoveHyphens(s: string): string {
    Filter(s, IsNotHyphen)
  }

  /** `list.insert(i, x)`: an index past the end appends. */
  function InsertAt<T>(s: seq<T>, i: nat, x: T): (r: seq<T>)
    ensures |r| == |s| + 1
    ensures var m := if i <= |s| then i else |s|;
      r[m] == x && r[..m] + r[m + 1..] == s
  {
    if i <= |s| then s[..i] + [x] + s[i..] else s + [x]
  }

  /** The candidate list before duplicates are dropped: the hyphen-free
      `.com` candidate goes second when the stem has a hyphen and `.com`
      is among the patterns tried. */
  function RawCandidates(stem: string, maxPatterns: int): seq<string> {
    var patterns := SliceTo(DomainPatterns, maxPatterns);
    var domains := Candidates(stem, patterns);
    if '-' in stem && ".com" in patterns then InsertAt(domains, 1, RemoveHyphens(stem) + ".com")
    else domains
  }

  /** Domains are told apart by themselves. */
  function Itself(d: string): string { d }

  /** `infer_domain(company_name, max_patterns)`; a missing name is `None`. */
  function InferDomains(name: Option<string>, maxPatterns: int): seq<string> {
    if !Truthy(name) then []
    else
      var stem := CleanName(name.value);
      if stem == [] then []
      else
        var raw := RawCandidates(stem, maxPatterns);
        FirstOccurrences(raw, |raw|, Itself)
  }

  /** The tails of the thirteen patterns are pairwise different. */
  lemma PatternTailsDistinct()
    ensures forall i, j :: 0 <= i < j < |DomainPatterns| ==> PatternTail(DomainPatterns[i]) != PatternTail(DomainPatterns[j])
  {
    var tails := [".com", ".io", ".co", ".ai", ".tech", ".bio", "-bio.com", ".bio.com",
      ".health", ".app", ".dev", ".net", ".org"];
    assert forall i :: 0 <= i < |DomainPatterns| ==> PatternTail(DomainPatterns[i]) == tails[i];
  }

  lemma InsertDistinct<T>(s: seq<T>, i: nat, x: T)
    requires Distinct(s) && x !in s
    ensures Distinct(InsertAt(s, i, x))
  {
    var r := InsertAt(s, i, x);
    if i <= |s| {
      assert forall a :: 0 <= a < |r| ==> r[a] == if a < i then s[a] else if a == i then x else s[a - 1];
    }
  }

  /** The candidates before deduplication are already pairwise different:
      the patterns have different tails, and the hyphen-free candidate is
      the only one without a hyphen. */
  lemma RawCandidatesDistinct(stem: string, maxPatterns: int)
    ensures Distinct(RawCandidates(stem, maxPatterns))
  {
    var patterns := SliceTo(DomainPatterns, maxPatterns);
    var domains := Candidates(stem, patterns);
    PatternTailsDistinct();
    forall a, b | 0 <= a < b < |domains| ensures domains[a] != domains[b] {
      var ta, tb := PatternTail(patterns[a]), PatternTail(patterns[b]);
      assert patterns[a] == DomainPatterns[a] && patterns[b] == DomainPatterns[b];
      assert (stem + ta)[|stem|..] == ta && (stem + tb)[|stem|..] == tb;
    }
    if '-' in stem && ".com" in patterns {
      var x := RemoveHyphens(stem) + ".com";
      assert '-' !in x;
      forall a | 0 <= a < |domains| ensures domains[a] != x {
        assert '-' in domains[a];
      }
      InsertDistinct(domains, 1, x);
    }
  }

  /** `infer_domain` returns no candidate for a missing, empty or
      uncleanable name, or when no pattern is tried; otherwise it returns
      every raw candidate, none twice, so at most `max_patterns + 1` of them. */
  lemma InferDomainsSpec(name: Option<string>, maxPatterns: int)
    ensures var r := InferDomains(name, maxPatterns);
      && Distinct(r)
      && (r == [] <==> !Truthy(name) || CleanName(name.value) == [] || SliceTo(DomainPatterns, maxPatterns) == [])
      && (Truthy(name) && CleanName(name.value) != [] ==> r == RawCandidates(CleanName(name.value), maxPatterns))
      && (0 <= maxPatterns ==> |r| <= maxPatterns + 1)
  {
    if Truthy(name) && CleanName(name.value) != [] {
      var raw := RawCandidates(CleanName(name.value), maxPatterns);
      RawCandidatesDistinct(CleanName(name.value), maxPatterns);
      assert KeysDistinct(raw, Itself);
      FirstOccurrencesOfDistinct(raw, |raw|, Itself);
      assert raw[..|raw|] == raw;
    }
  }

  /** With the default five patterns, a hyphen-free stem gives exactly the
      five most likely domains, in pattern order. */
  lemma InferDomainsDefault(name: Option<string>)
    requires Truthy(name)
    requires CleanName(name.value) != [] && '-' !in CleanName(name.value)
    ensures var stem := CleanName(name.value);
      InferDomains(name, DefaultMaxPatterns) == [stem + ".com", stem + ".io", stem + ".co", stem + ".ai", stem + ".tech"]
  {
    InferDomainsSpec(name, DefaultMaxPatterns);
    RawCandidatesDefault(CleanName(name.value));
  }

  lemma RawCandidatesDefault(stem: string)
    requires '-' !in stem
    ensures RawCandidates(stem, DefaultMaxPatterns) == [stem + ".com", stem + ".io", stem + ".co", stem + ".ai", stem + ".tech"]
  {
    var patterns := SliceTo(DomainPatterns, DefaultMaxPatterns);
    assert patterns == [".com", ".io", ".co", ".ai", ".tech"];
    assert PatternTail(".com") == ".com" && PatternTail(".io") == ".io" && PatternTail(".co") == ".co";
    assert PatternTail(".ai") == ".ai" && PatternTail(".tech") == ".tech";
  }

  /** A hyphenated stem gets its hyphen-free `.com` domain second, right
      after the hyphenated one, whenever `.com` is tried. */
  lemma InferDomainsHyphenated(name: Option<string>, maxPatterns: int)
    requires Truthy(name)
    requires '-' in CleanName(name.value) && ".com" in SliceTo(DomainPatterns, maxPatterns)
    ensures var stem := CleanName(name.value);
      var r := InferDomains(name, maxPatterns);
      |r| >= 2 && r[0] == stem + ".com" && r[1] == RemoveHyphens(stem) + ".com"
  {
    InferDomainsSpec(name, maxPatterns);
    RawCandidatesHyphenated(CleanName(name.value), maxPatterns);
  }

  lemma RawCandidatesHyphenated(stem: string, maxPatterns: int)
    requires '-' in stem && ".com" in SliceTo(DomainPatterns, maxPatterns)
    ensures var r := RawCandidates(stem, maxPatterns);
      |r| >= 2 && r[0] == stem + ".com" && r[1] == RemoveHyphens(stem) + ".com"
  {
    var patterns := SliceTo(DomainPatterns, maxPatterns);
    assert patterns[0] == ".com";
    assert PatternTail(".com") == ".com";
  }

  /** `infer_domain`, with its two loops. */
  method InferDomain(companyName: Option<string>, maxPatterns: int) returns (domains: seq<string>)
    ensures domains == InferDomains(companyName, maxPatterns)
  {
    if !Truthy(companyName) {
      return [];
    }
    var cleaned := CleanCompanyName(companyName.value);
    if cleaned == [] {
      return [];
    }
    var patterns := SliceTo(DomainPatterns, maxPatterns);
    var candidates := BuildCandidates(cleaned, patterns);
    if '-' in cleaned && ".com" in patterns {
      candidates := InsertAt(candidates, 1, RemoveHyphens(cleaned) + ".com");
    }
    domains := UniqueDomains(candidates);
  }

  /** The loop over the patterns tried. */
  method BuildCandidates(cleaned: string, patterns: seq<string>) returns (domains: seq<string>)
    ensures domains == Candidates(cleaned, patterns)
  {
    domains := [];
    for k := 0 to |patterns|
      invariant |domains| == k
      invariant forall i :: 0 <= i < k ==> domains[i] == cleaned + PatternTail(patterns[i])
    {
      var pattern := patterns[k];
      var domain;
      if pattern != [] && pattern[0] == '-' {
        domain := cleaned + pattern;
      } else if pattern != [] && pattern[0] == '.' {
        domain := cleaned + pattern;
      } else {
        domain := cleaned + "." + pattern;
      }
      domains := domains + [domain];
    }
  }

  /** The order-preserving duplicate removal with a `seen` set. */
  method UniqueDomains(candidates: seq<string>) returns (unique: seq<string>)
    ensures unique == FirstOccurrences(candidates, |candidates|, Itself)
  {
    var seen: set<string> := {};
    unique := [];
    for k := 0 to |candidates|
      invariant unique == FirstOccurrences(candidates, k, Itself)
      invariant forall d :: d in seen <==> d in candidates[..k]
    {
      var d := candidates[k];
      assert IsFirst(candidates, k, Itself) <==> d !in candidates[..k];
      if d !in seen {
        seen := seen + {d};
        unique := unique + [d];
      }
      assert candidates[..k + 1] == candidates[..k] + [d];
    }
  }

  // ---------------------------------------------------------------------
  // The resumable enrichment run

  /** The entry already carries `inferred_domains`. */
  predicate Processed(e: Record) { e.inferredDomains.Some? }

  /** One past the last processed entry, or 0 when none is. */
  function LastProcessed(s: seq<Record>): nat {
    if s == [] then 0
    else if Processed(s[|s| - 1]) then |s|
    else LastProcessed(s[..|s| - 1])
  }

  /** The resume cursor is within the list, the entry before it is
      processed, and no entry at or after it is. */
  lemma {:induction false} LastProcessedSpec(s: seq<Record>)
    ensures LastProcessed(s) <= |s|
    ensures LastProcessed(s) > 0 ==> Processed(s[LastProcessed(s) - 1])
    ensures forall j :: LastProcessed(s) <= j < |s| ==> !Processed(s[j])
  {
    if s != [] && !Processed(s[|s| - 1]) {
      LastProcessedSpec(s[..|s| - 1]);
    }
  }

  /** `find_last_processed_index`: a backward scan that stops at the first
      processed entry it meets. */
  method FindLastProcessedIndex(companies: seq<Record>) returns (r: nat)
    ensures r == LastProcessed(companies)
  {
    var i := |companies|;
    assert companies[..i] == companies;
    while i > 0
      invariant 0 <= i <= |companies|
      invariant LastProcessed(companies) == LastProcessed(companies[..i])
    {
      i := i - 1;
      assert companies[..i + 1][..i] == companies[..i];
      if Processed(companies[i]) {
        return i + 1;
      }
    }
    return 0;
  }

  /** An entry after processing: its inferred domains, unverified and
      unchecked, stamped with the clock reading `at`. */
  function Enriched(e: Record, at: string): Record {
    e.(inferredDomains := Some(DomainInference(InferDomains(e.company.name, DefaultMaxPatterns), None, false, at)))
  }

  /** The entry's name yields at least one candidate domain. */
  predicate HasCandidates(e: Record) { InferDomains(e.company.name, DefaultMaxPatterns) != [] }

  /** The loop of `main` from `start`: every entry from `start` on is
      replaced by its enriched form, entries before `start` stay as they
      are, and the count is the number of entries from `start` on whose
      name yields a candidate. `clock(i)` is the time read while
      processing entry `i`. */
  method EnrichFrom(companies: array<Record>, start: nat, clock: nat -> string) returns (withDomains: nat)
    modifies companies
    ensures forall i :: 0 <= i < companies.Length ==>
      companies[i] == if i < start then old(companies[i]) else Enriched(old(companies[i]), clock(i))
    ensures withDomains == if start <= companies.Length then Count(old(companies[..])[start..], HasCandidates) else 0
  {
    withDomains := 0;
    if companies.Length < start {
      return;  // `range(start_index, total_companies)` is empty
    }
    ghost var entries := companies[..];
    for i := start to companies.Length
      invariant forall j :: 0 <= j < companies.Length ==>
        companies[j] == if j < start || i <= j then entries[j] else Enriched(entries[j], clock(j))
      invariant withDomains == Count(entries[start..i], HasCandidates)
    {
      var found := EnrichAt(companies, i, clock(i));
      CountSlice(entries, start, i + 1, HasCandidates);
      if found {
        withDomains := withDomains + 1;
      }
    }
    assert entries[start..companies.Length] == entries[start..];
  }

  /** The body of the loop for entry `i`: it gets its inferred domains,
      stamped `at`; the result says whether there is any. */
  method EnrichAt(companies: array<Record>, i: nat, at: string) returns (found: bool)
    requires i < companies.Length
    modifies companies
    ensures companies[i] == Enriched(old(companies[i]), at)
    ensures forall j :: 0 <= j < companies.Length && j != i ==> companies[j] == old(companies[j])
    ensures found <==> HasCandidates(old(companies[i]))
  {
    var entry := companies[i];
    var domains := InferDomain(entry.company.name, DefaultMaxPatterns);
    companies[i] := entry.(inferredDomains := Some(DomainInference(domains, None, false, at)));
    found := domains != [];
  }

  /** The resumed run of `main` over the list read back: the cursor is
      found, every entry from it on is enriched, and afterwards a
      non-empty list has nothing left to resume. */
  method ResumeRun(companies: array<Record>, clock: nat -> string) returns (start: nat, withDomains: nat)
    modifies companies
    ensures start == LastProcessed(old(companies[..])) && start <= companies.Length
    ensures forall i :: 0 <= i < companies.Length ==>
      companies[i] == if i < start then old(companies[i]) else Enriched(old(companies[i]), clock(i))
    ensures withDomains == Count(old(companies[..])[start..], HasCandidates)
    ensures 0 < companies.Length ==> LastProcessed(companies[..]) == companies.Length
  {
    start := FindLastProcessedIndex(companies[..]);
    LastProcessedSpec(companies[..]);
    withDomains := EnrichFrom(companies, start, clock);
    if 0 < companies.Length {
      assert Processed(companies[companies.Length - 1]);
    }
  }
}
