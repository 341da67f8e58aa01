/**
 * `sec_filter.py`: narrows the master company list to target companies.
 * Each company runs through four tests in a fixed order (US address,
 * funding, target state, industry exclusion); the first failing test's
 * removal counter is bumped and the company dropped, and a company that
 * passes all four is kept and counted by state, funding range and
 * industry.
 */
module CompanyFilter {
  import opened Common
  import opened Records

  // ---------------------------------------------------------------------
  // Parameters

  const DefaultStates: seq<string> := ["MA", "CA", "NY", "WA", "TX", "IL"]
  const DefaultMinFunding: real := 1000000.0

  /** The state list in force: the default when none is given, and every
      entry upper-cased before use. */
  function TargetStatesOf(given: Option<seq<string>>): (r: seq<string>)
    ensures var l := if given.None? then DefaultStates else given.value;
      |r| == |l| && forall i :: 0 <= i < |l| ==> r[i] == Upper(l[i])
  {
    var l := if given.None? then DefaultStates else given.value;
    seq(|l|, i requires 0 <= i < |l| => Upper(l[i]))
  }

  /** The default list is already upper case, so it is used as written. */
  lemma DefaultStatesUnchanged()
    ensures TargetStatesOf(None) == DefaultStates
  {
    var r := TargetStatesOf(None);
    forall i | 0 <= i < |DefaultStates|
      ensures r[i] == DefaultStates[i]
    {
      var s := DefaultStates[i];
      assert |s| == 2 && !IsLowerAscii(s[0]) && !IsLowerAscii(s[1]);
    }
  }

  /** The state list in force, for a caller: as many entries as given
      (or the default list unchanged), each the same length as its source
      and free of small letters, and an entry already in upper case is
      used as written. */
  lemma TargetStatesSpec(given: Option<seq<string>>)
    ensures var l := if given.None? then DefaultStates else given.value;
      var r := TargetStatesOf(given);
      && |r| == |l|
      && (given.None? ==> r == DefaultStates)
      && (forall i, k :: 0 <= i < |r| && 0 <= k < |r[i]| ==> !IsLowerAscii(r[i][k]))
      && (forall i :: 0 <= i < |r| ==> |r[i]| == |l[i]|)
      && (forall i :: 0 <= i < |r| && (forall k :: 0 <= k < |l[i]| ==> !IsLowerAscii(l[i][k])) ==> r[i] == l[i])
  {
    if given.None? {
      DefaultStatesUnchanged();
    }
  }

  // ---------------------------------------------------------------------
  // `normalize_state`

  /** `""` for an empty state, otherwise stripped and upper-cased. */
  function NormalizeState(state: string): string {
    if state == "" then "" else Upper(Strip(state))
  }

  /** The normal form is no longer than the input, has no edge spaces and
      no lower-case letters, and is empty iff the input is all spaces. */
  lemma NormalizeStateSpec(state: string)
    ensures var r := NormalizeState(state);
      && |r| <= |state|
      && NoEdgeSpaces(r)
      && (forall i :: 0 <= i < |r| ==> !IsLowerAscii(r[i]))
      && (r == [] <==> forall i :: 0 <= i < |state| ==> IsSpace(state[i]))
  {
    StripEmpty(state);
  }

  /** Normalising twice is normalising once. */
  lemma NormalizeStateIdempotent(state: string)
    ensures NormalizeState(NormalizeState(state)) == NormalizeState(state)
  {
    var r := NormalizeState(state);
    if r != "" {
      StripNoEdgeSpaces(r);
      assert Upper(r) == r;
    }
  }

  // ---------------------------------------------------------------------
  // `is_excluded_industry`

  const ExcludedKeywords: seq<string> := [
    "real estate", "realty", "property", "reit", "residential",
    "pooled investment", "hedge fund", "private equity", "investment fund",
    "oil", "gas", "petroleum", "energy exploration",
    "agriculture", "farming", "agribusiness",
    "retail", "store", "shopping",
    "construction", "contractor", "building",
    "commercial",
    "restaurant", "food service", "hospitality"]

  /** Python's `k in s` on strings: `k` is a contiguous infix of `s`. */
  predicate Occurs(k: string, s: string) {
    exists i :: 0 <= i <= |s| - |k| && OccursAt(k, s, i)
  }

  predicate OccursAt(k: string, s: string, i: int) {
    0 <= i <= |s| - |k| && s[i..i + |k|] == k
  }

  /** `any(k in s for k in keys)` */
  function AnyOccurs(keys: seq<string>, s: string): (b: bool)
    ensures b <==> exists j :: 0 <= j < |keys| && Occurs(keys[j], s)
  {
    if keys == [] then false
    else
      assert forall j :: 1 <= j < |keys| ==> keys[j] == keys[1..][j - 1];
      Occurs(keys[0], s) || AnyOccurs(keys[1..], s)
  }

  /** A missing or empty name is never excluded; otherwise the name is
      excluded iff some keyword occurs in its lower-cased form. */
  function IsExcludedIndustry(industry: Option<string>): bool {
    Truthy(industry) && AnyOccurs(ExcludedKeywords, Lower(industry.value))
  }

  lemma IsExcludedIndustrySpec(industry: Option<string>)
    ensures !Truthy(industry) ==> !IsExcludedIndustry(industry)
    ensures Truthy(industry) ==> (IsExcludedIndustry(industry) <==>
      exists j :: 0 <= j < |ExcludedKeywords| && Occurs(ExcludedKeywords[j], Lower(industry.value)))
  {
  }

  lemma LowerAppend(a: string, b: string)
    ensures Lower(a + b) == Lower(a) + Lower(b)
  {
  }

  lemma OccursExtends(k: string, s: string, pre: string, post: string)
    requires Occurs(k, s)
    ensures Occurs(k, pre + s + post)
  {
    var i :| 0 <= i <= |s| - |k| && OccursAt(k, s, i);
    var t := pre + s + post;
    assert t[|pre| + i..|pre| + i + |k|] == s[i..i + |k|];
    assert OccursAt(k, t, |pre| + i);
  }

  /** An excluded name stays excluded whatever text is put around it, so
      "Oil & Gas" excludes "Offshore Oil & Gas Drilling" too. */
  lemma ExclusionSurvivesExtension(name: string, pre: string, post: string)
    requires IsExcludedIndustry(Some(name))
    ensures IsExcludedIndustry(Some(pre + name + post))
  {
    var j :| 0 <= j < |ExcludedKeywords| && Occurs(ExcludedKeywords[j], Lower(name));
    LowerAppend(pre, name);
    LowerAppend(pre + name, post);
    OccursExtends(ExcludedKeywords[j], Lower(name), Lower(pre), Lower(post));
  }

  /** The test ignores ASCII case: a name and its upper-case form are
      excluded alike. */
  lemma ExclusionIgnoresCase(name: string)
    ensures IsExcludedIndustry(Some(Upper(name))) == IsExcludedIndustry(Some(name))
  {
    assert Lower(Upper(name)) == Lower(name);
  }

  // ---------------------------------------------------------------------
  // `extract_funding_amount`

  /** `re.sub(r'[,$]', '', s)` */
  function Unformat(s: string): (r: string)
    ensures |r| <= |s|
    ensures forall i :: 0 <= i < |r| ==> r[i] != ',' && r[i] != '$'
    ensures forall c :: c != ',' && c != '$' ==> multiset(r)[c] == multiset(s)[c]
  {
    if s == [] then []
    else
      assert s == [s[0]] + s[1..];
      (if s[0] == ',' || s[0] == '$' then [] else [s[0]]) + Unformat(s[1..])
  }

  /** `float(cleaned)`, where a `ValueError` is caught and gives 0.0. */
  function TextAmount(s: string): real {
    match ParseFloat(Unformat(s))
    case Some(x) => x
    case None => 0.0
  }

  /** `total_offering_amount` decides whenever its key is present with a
      null, number, boolean or string: null is 0.0 (no fallback), numbers
      and booleans are themselves, strings are parsed without commas and
      dollar signs. Only an absent key, or a value of another type, falls
      back to a truthy numeric `total_amount_sold`, and to 0.0 after that. */
  function ExtractFundingAmount(f: Funding): (r: real)
    ensures f.totalOfferingAmount.JNull? ==> r == 0.0
    ensures f.totalOfferingAmount.JNumber? ==> r == f.totalOfferingAmount.x
    ensures f.totalOfferingAmount.JString? ==> r == TextAmount(f.totalOfferingAmount.s)
    ensures f.totalOfferingAmount == JBool(true) ==> r == 1.0
    ensures f.totalOfferingAmount == JBool(false) ==> r == 0.0
    ensures f.totalOfferingAmount.JAbsent? || f.totalOfferingAmount.JOther? ==>
      (r != 0.0 ==> f.totalAmountSold == JNumber(r) || (f.totalAmountSold == JBool(true) && r == 1.0))
  {
    match f.totalOfferingAmount
    case JNull => 0.0
    case JNumber(x) => x
    case JBool(b) => if b then 1.0 else 0.0
    case JString(s) => TextAmount(s)
    case _ =>
      match f.totalAmountSold
      case JNumber(x) => if x != 0.0 then x else 0.0
      case JBool(b) => if b then 1.0 else 0.0
      case _ => 0.0
  }

  /** Once the offering key holds a scalar, the amount sold is never
      consulted. */
  lemma OfferingKeyDecides(f: Funding, sold: Json)
    requires !f.totalOfferingAmount.JAbsent? && !f.totalOfferingAmount.JOther?
    ensures ExtractFundingAmount(f.(totalAmountSold := sold)) == ExtractFundingAmount(f)
  {
  }

  /** A null offering amount yields 0.0 however much was sold. */
  lemma NullOfferingIgnoresSold(f: Funding, x: real)
    requires f.totalOfferingAmount == JNull && f.totalAmountSold == JNumber(x)
    ensures ExtractFundingAmount(f) == 0.0
  {
  }

  /** With no offering key, a non-zero number sold is taken as it is. */
  lemma AbsentOfferingUsesSold(f: Funding, x: real)
    requires f.totalOfferingAmount == JAbsent && f.totalAmountSold == JNumber(x)
    ensures ExtractFundingAmount(f) == x
  {
  }

  // ---------------------------------------------------------------------
  // `is_us_company`

  const NonUsCodes: seq<string> := ["X0", "X1", "X2", "X3"]

  /** The international codes all contain a digit, so no alphabetic state
      is ever among them and the exclusion in `is_us_company` never
      fires. */
  lemma NonUsCodesUnreachable(st: string)
    requires IsAlpha(st)
    ensures st !in NonUsCodes
  {
    assert forall i :: 0 <= i < |NonUsCodes| ==> !IsLetter(NonUsCodes[i][1]);
  }

  /** `is_us_company`; `None` where a null state makes `.strip()` raise. */
  function IsUsCompany(r: Record): Option<bool> {
    match r.company.address.state
    case None => None
    case Some(state) =>
      var st := Upper(Strip(state));
      if st != "" && |st| == 2 && IsAlpha(st) then
        NonUsCodesUnreachable(st);
        Some(st !in NonUsCodes)
      else Some(false)
  }

  /** The test raises exactly on a null state, and otherwise holds iff the
      stripped, upper-cased state is two letters. */
  lemma IsUsCompanySpec(r: Record)
    ensures IsUsCompany(r).None? <==> r.company.address.state.None?
    ensures IsUsCompany(r).Some? ==> (IsUsCompany(r).value <==>
      var st := Upper(Strip(r.company.address.state.value)); |st| == 2 && IsAlpha(st))
  {
  }

  // ---------------------------------------------------------------------
  // The four tests

  /** The outcome for one company: `Raises` when its null state makes
      `is_us_company` raise, otherwise the first test it fails, or `Pass`. */
  datatype Verdict = Raises | NonUs | LowFunding | WrongState | ExcludedIndustry | Pass

  function Classify(r: Record, states: seq<string>, minFunding: real): Verdict {
    match IsUsCompany(r)
    case None => Raises
    case Some(us) =>
      if !us then NonUs
      else if ExtractFundingAmount(r.funding) < minFunding then LowFunding
      else if NormalizeState(r.company.address.state.value) !in states then WrongState
      else if IsExcludedIndustry(r.company.industry) then ExcludedIndustry
      else Pass
  }

  /** What a kept company is: a two-letter alphabetic upper-case state in
      the target list, funding at least the minimum, and an industry no
      keyword excludes. */
  predicate MeetsCriteria(r: Record, states: seq<string>, minFunding: real) {
    && r.company.address.state.Some?
    && var st := NormalizeState(r.company.address.state.value);
    && |st| == 2 && IsAlpha(st) && st in states
    && ExtractFundingAmount(r.funding) >= minFunding
    && !IsExcludedIndustry(r.company.industry)
  }

  /** For a present state, the US test holds iff the normalised state is
      two letters. */
  lemma UsStateNormalised(r: Record)
    requires r.company.address.state.Some?
    ensures var st := NormalizeState(r.company.address.state.value);
      IsUsCompany(r) == Some(|st| == 2 && IsAlpha(st))
  {
    var state := r.company.address.state.value;
    IsUsCompanySpec(r);
    if state == "" {
      assert Strip(state) == "";
    }
  }

  /** A company passes iff it meets every criterion, and the run aborts on
      exactly the companies with a null state. */
  lemma ClassifySpec(r: Record, states: seq<string>, minFunding: real)
    ensures Classify(r, states, minFunding) == Pass <==> MeetsCriteria(r, states, minFunding)
    ensures Classify(r, states, minFunding) == Raises <==> r.company.address.state.None?
  {
    if r.company.address.state.Some? {
      UsStateNormalised(r);
    }
  }

  /** What the loop needs to know about one company: its verdict, the
      normalised state, the funding amount and the industry. */
  datatype Assessment = Assessment(verdict: Verdict, state: string, funding: real, industry: Option<string>)

  /** The state a company is counted under: its normalised state. */
  function StateKey(r: Record): string {
    if r.company.address.state.Some? then NormalizeState(r.company.address.state.value) else ""
  }

  function Assess(r: Record, states: seq<string>, minFunding: real): (a: Assessment)
    ensures a.verdict == Classify(r, states, minFunding)
    ensures a.verdict == Raises <==> r.company.address.state.None?
    ensures a.verdict == Pass ==> a.state in states
  {
    Assessment(Classify(r, states, minFunding), StateKey(r), ExtractFundingAmount(r.funding), r.company.industry)
  }

  // ---------------------------------------------------------------------
  // Statistics

  datatype FundingRange = UpTo5M | UpTo10M | UpTo25M | UpTo50M | Over50M

  /** The funding-range bucket: `<5M`, `<10M`, `<25M`, `<50M`, else. */
  function RangeOf(amount: real): FundingRange {
    if amount < 5000000.0 then UpTo5M
    else if amount < 10000000.0 then UpTo10M
    else if amount < 25000000.0 then UpTo25M
    else if amount < 50000000.0 then UpTo50M
    else Over50M
  }

  function RangeRank(g: FundingRange): nat {
    match g
    case UpTo5M => 0
    case UpTo10M => 1
    case UpTo25M => 2
    case UpTo50M => 3
    case Over50M => 4
  }

  /** The buckets are ordered like the amounts. */
  lemma RangeMonotone(a: real, b: real)
    requires a <= b
    ensures RangeRank(RangeOf(a)) <= RangeRank(RangeOf(b))
  {
  }

  /** Each bucket holds exactly its half-open interval of amounts. */
  lemma RangeBounds(amount: real)
    ensures RangeOf(amount) == UpTo5M <==> amount < 5000000.0
    ensures RangeOf(amount) == UpTo10M <==> 5000000.0 <= amount < 10000000.0
    ensures RangeOf(amount) == UpTo25M <==> 10000000.0 <= amount < 25000000.0
    ensures RangeOf(amount) == UpTo50M <==> 25000000.0 <= amount < 50000000.0
    ensures RangeOf(amount) == Over50M <==> 50000000.0 <= amount
  {
  }

  predicate StatesPresent(s: seq<Record>) {
    forall i :: 0 <= i < |s| ==> s[i].company.address.state.Some?
  }

  /** `StatesPresent` of the first `n`, one company at a time. */
  predicate StatesPresentUpTo(s: seq<Record>, n: nat)
    requires n <= |s|
  {
    n == 0 || (StatesPresentUpTo(s, n - 1) && s[n - 1].company.address.state.Some?)
  }

  lemma {:induction false} StatesPresentUpToSpec(s: seq<Record>, n: nat)
    requires n <= |s|
    ensures StatesPresentUpTo(s, n) <==> forall i :: 0 <= i < n ==> s[i].company.address.state.Some?
  {
    if n > 0 {
      StatesPresentUpToSpec(s, n - 1);
    }
  }

  datatype FilterStats = FilterStats(
    initialCount: nat, removedByFunding: nat, removedByLocation: nat,
    removedByIndustry: nat, removedByCountry: nat, finalCount: nat,
    byState: Counter<string>, byFundingRange: Counter<FundingRange>, byIndustry: Counter<string>)

  datatype FilterResult = FilterResult(companies: seq<Record>, stats: FilterStats)

  // The loop is specified over any assessment function, so that the
  // counting arguments below never look inside the four tests.

  /** One turn of the filtering loop. */
  function Step(acc: FilterResult, r: Record, a: Assessment): FilterResult {
    var st := acc.stats;
    match a.verdict
    case Raises => acc
    case NonUs => acc.(stats := st.(removedByCountry := st.removedByCountry + 1))
    case LowFunding => acc.(stats := st.(removedByFunding := st.removedByFunding + 1))
    case WrongState => acc.(stats := st.(removedByLocation := st.removedByLocation + 1))
    case ExcludedIndustry => acc.(stats := st.(removedByIndustry := st.removedByIndustry + 1))
    case Pass =>
      FilterResult(acc.companies + [r], st.(
        byState := st.byState.Inc(a.state),
        byFundingRange := st.byFundingRange.Inc(RangeOf(a.funding)),
        byIndustry := if Truthy(a.industry) then st.byIndustry.Inc(a.industry.value) else st.byIndustry))
  }

  /** Nothing kept and nothing counted yet, out of `initial` companies. */
  function Start(initial: nat): FilterResult {
    FilterResult([], FilterStats(initial, 0, 0, 0, 0, 0, EmptyCounter(), EmptyCounter(), EmptyCounter()))
  }

  /** The loop's state after the first `n` of `s`. */
  function Run(s: seq<Record>, n: nat, assess: Record -> Assessment): FilterResult
    requires n <= |s|
  {
    if n == 0 then Start(|s|)
    else Step(Run(s, n - 1, assess), s[n - 1], assess(s[n - 1]))
  }

  /** The number of the first `n` of `s` with verdict `v`. */
  function CountVerdict(s: seq<Record>, n: nat, v: Verdict, assess: Record -> Assessment): nat
    requires n <= |s|
  {
    if n == 0 then 0
    else CountVerdict(s, n - 1, v, assess) + (if assess(s[n - 1]).verdict == v then 1 else 0)
  }

  /** Each removal counter counts the companies whose first failing test
      is its own, and as many companies are kept as pass. */
  lemma {:induction false} RunCounts(s: seq<Record>, n: nat, assess: Record -> Assessment)
    requires n <= |s|
    ensures var p := Run(s, n, assess);
      && p.stats.initialCount == |s| && p.stats.finalCount == 0
      && p.stats.removedByCountry == CountVerdict(s, n, NonUs, assess)
      && p.stats.removedByFunding == CountVerdict(s, n, LowFunding, assess)
      && p.stats.removedByLocation == CountVerdict(s, n, WrongState, assess)
      && p.stats.removedByIndustry == CountVerdict(s, n, ExcludedIndustry, assess)
      && |p.companies| == CountVerdict(s, n, Pass, assess)
  {
    if n > 0 {
      RunCounts(s, n - 1, assess);
    }
  }

  /** The verdict counts cover every company exactly once. */
  lemma {:induction false} VerdictsPartition(s: seq<Record>, n: nat, assess: Record -> Assessment)
    requires n <= |s|
    ensures CountVerdict(s, n, Raises, assess) + CountVerdict(s, n, NonUs, assess)
      + CountVerdict(s, n, LowFunding, assess) + CountVerdict(s, n, WrongState, assess)
      + CountVerdict(s, n, ExcludedIndustry, assess) + CountVerdict(s, n, Pass, assess) == n
  {
    if n > 0 {
      VerdictsPartition(s, n - 1, assess);
    }
  }

  /** No company raises, so none is counted as raising. */
  lemma {:induction false} NoneRaises(s: seq<Record>, n: nat, assess: Record -> Assessment)
    requires n <= |s|
    requires forall i :: 0 <= i < n ==> assess(s[i]).verdict != Raises
    ensures CountVerdict(s, n, Raises, assess) == 0
  {
    if n > 0 {
      NoneRaises(s, n - 1, assess);
    }
  }

  /** A turn appends the company exactly when it passes. */
  lemma StepCompanies(acc: FilterResult, r: Record, a: Assessment)
    ensures Step(acc, r, a).companies == acc.companies + (if a.verdict == Pass then [r] else [])
  {
  }

  /** The kept companies are the passing ones among the first `n`, in
      their input order. */
  lemma {:induction false} RunKept(s: seq<Record>, n: nat, assess: Record -> Assessment, keep: Record -> bool)
    requires n <= |s|
    requires forall i :: 0 <= i < n ==> keep(s[i]) == (assess(s[i]).verdict == Pass)
    ensures Run(s, n, assess).companies == Filter(s[..n], keep)
  {
    if n > 0 {
      RunKept(s, n - 1, assess, keep);
      StepCompanies(Run(s, n - 1, assess), s[n - 1], assess(s[n - 1]));
      FilterPrefix(s, n, keep);
    }
  }

  /** The companies whose `key` is `k`. */
  function KeyIs<K(==)>(key: Record -> K, k: K): Record -> bool {
    (c: Record) => key(c) == k
  }

  /** The companies whose `key` is the non-empty string `k`. */
  function TruthyKeyIs(key: Record -> Option<string>, k: string): Record -> bool {
    (c: Record) => Truthy(key(c)) && key(c).value == k
  }

  function FundingRangeOf(r: Record): FundingRange {
    RangeOf(ExtractFundingAmount(r.funding))
  }

  function IndustryOf(r: Record): Option<string> {
    r.company.industry
  }

  /** The kept companies in state `st`. */
  function StateIs(st: string): Record -> bool {
    KeyIs(StateKey, st)
  }

  /** The kept companies whose funding falls in range `g`. */
  function RangeIs(g: FundingRange): Record -> bool {
    KeyIs(FundingRangeOf, g)
  }

  /** The kept companies with the non-empty industry `ind`. */
  function IndustryIs(ind: string): Record -> bool {
    TruthyKeyIs(IndustryOf, ind)
  }

  /** The three counters are well formed; the state and range counters
      sum to the number kept and the industry counter, which skips kept
      companies without an industry, to no more; every counted state is
      the state of a passing company, hence a target state. What each key
      counts is stated by the `*Counts` lemmas below. */
  lemma {:induction false} RunCounters(s: seq<Record>, n: nat, assess: Record -> Assessment, states: seq<string>)
    requires n <= |s|
    requires forall i :: 0 <= i < n ==> assess(s[i]).verdict == Pass ==> assess(s[i]).state in states
    ensures var p := Run(s, n, assess);
      && p.stats.byState.Valid() && p.stats.byFundingRange.Valid() && p.stats.byIndustry.Valid()
      && p.stats.byState.Total() == |p.companies|
      && p.stats.byFundingRange.Total() == |p.companies|
      && p.stats.byIndustry.Total() <= |p.companies|
      && (forall k :: k in p.stats.byState.keys ==> k in states)
  {
    RunStateCounter(s, n, assess, states);
    RunRangeCounter(s, n, assess);
    RunIndustryCounter(s, n, assess);
  }

  lemma {:induction false} RunStateCounter(s: seq<Record>, n: nat, assess: Record -> Assessment, states: seq<string>)
    requires n <= |s|
    requires forall i :: 0 <= i < n ==> assess(s[i]).verdict == Pass ==> assess(s[i]).state in states
    ensures var p := Run(s, n, assess);
      && p.stats.byState.Valid() && p.stats.byState.Total() == |p.companies|
      && (forall k :: k in p.stats.byState.keys ==> k in states)
  {
    if n > 0 {
      RunStateCounter(s, n - 1, assess, states);
      var q := Run(s, n - 1, assess);
      var a := assess(s[n - 1]);
      if a.verdict == Pass {
        IncSpec(q.stats.byState, a.state);
      }
    }
  }

  /** `by_state[st]` is the number of kept companies whose state, as the
      assessment reports it (`key`), is `st`. */
  lemma {:induction false} RunStateCounts(s: seq<Record>, n: nat, assess: Record -> Assessment, key: Record -> string)
    requires n <= |s|
    requires forall i :: 0 <= i < n ==> assess(s[i]).state == key(s[i])
    ensures var p := Run(s, n, assess);
      forall st :: p.stats.byState.Get(st) == Count(p.companies, KeyIs(key, st))
  {
    if n > 0 {
      RunStateCounts(s, n - 1, assess, key);
      var q := Run(s, n - 1, assess);
      var r := s[n - 1];
      var a := assess(r);
      if a.verdict == Pass {
        IncGet(q.stats.byState, a.state);
        forall st ensures Count(q.companies + [r], KeyIs(key, st)) == Count(q.companies, KeyIs(key, st)) + (if a.state == st then 1 else 0) {
          CountAppend(q.companies, r, KeyIs(key, st));
        }
      }
    }
  }

  lemma {:induction false} RunRangeCounter(s: seq<Record>, n: nat, assess: Record -> Assessment)
    requires n <= |s|
    ensures var p := Run(s, n, assess);
      p.stats.byFundingRange.Valid() && p.stats.byFundingRange.Total() == |p.companies|
  {
    if n > 0 {
      RunRangeCounter(s, n - 1, assess);
      var q := Run(s, n - 1, assess);
      var a := assess(s[n - 1]);
      if a.verdict == Pass {
        IncSpec(q.stats.byFundingRange, RangeOf(a.funding));
      }
    }
  }

  /** `by_funding_range[g]` is the number of kept companies whose funding
      range (`key`) is `g`. */
  lemma {:induction false} RunRangeCounts(s: seq<Record>, n: nat, assess: Record -> Assessment, key: Record -> FundingRange)
    requires n <= |s|
    requires forall i :: 0 <= i < n ==> RangeOf(assess(s[i]).funding) == key(s[i])
    ensures var p := Run(s, n, assess);
      forall g :: p.stats.byFundingRange.Get(g) == Count(p.companies, KeyIs(key, g))
  {
    if n > 0 {
      RunRangeCounts(s, n - 1, assess, key);
      var q := Run(s, n - 1, assess);
      var r := s[n - 1];
      var a := assess(r);
      if a.verdict == Pass {
        IncGet(q.stats.byFundingRange, RangeOf(a.funding));
        forall g ensures Count(q.companies + [r], KeyIs(key, g)) == Count(q.companies, KeyIs(key, g)) + (if RangeOf(a.funding) == g then 1 else 0) {
          CountAppend(q.companies, r, KeyIs(key, g));
        }
      }
    }
  }

  lemma {:induction false} RunIndustryCounter(s: seq<Record>, n: nat, assess: Record -> Assessment)
    requires n <= |s|
    ensures var p := Run(s, n, assess);
      p.stats.byIndustry.Valid() && p.stats.byIndustry.Total() <= |p.companies|
  {
    if n > 0 {
      RunIndustryCounter(s, n - 1, assess);
      var q := Run(s, n - 1, assess);
      var a := assess(s[n - 1]);
      if a.verdict == Pass && Truthy(a.industry) {
        IncSpec(q.stats.byIndustry, a.industry.value);
      }
    }
  }

  /** `by_industry[ind]` is the number of kept companies whose industry
      (`key`) is the non-empty `ind`; kept companies without one are not
      counted. */
  lemma {:induction false} RunIndustryCounts(s: seq<Record>, n: nat, assess: Record -> Assessment, key: Record -> Option<string>)
    requires n <= |s|
    requires forall i :: 0 <= i < n ==> assess(s[i]).industry == key(s[i])
    ensures var p := Run(s, n, assess);
      forall ind :: p.stats.byIndustry.Get(ind) == Count(p.companies, TruthyKeyIs(key, ind))
  {
    if n > 0 {
      RunIndustryCounts(s, n - 1, assess, key);
      var q := Run(s, n - 1, assess);
      var r := s[n - 1];
      var a := assess(r);
      if a.verdict == Pass {
        if Truthy(a.industry) {
          IncGet(q.stats.byIndustry, a.industry.value);
        }
        forall ind ensures Count(q.companies + [r], TruthyKeyIs(key, ind))
          == Count(q.companies, TruthyKeyIs(key, ind)) + (if Truthy(a.industry) && a.industry.value == ind then 1 else 0)
        {
          CountAppend(q.companies, r, TruthyKeyIs(key, ind));
        }
      }
    }
  }

  function AssessBy(states: seq<string>, minFunding: real): Record -> Assessment {
    (r: Record) => Assess(r, states, minFunding)
  }

  /** The whole run, with `final_count` filled in at the end. */
  function FilterOf(s: seq<Record>, states: seq<string>, minFunding: real): FilterResult {
    var p := Run(s, |s|, AssessBy(states, minFunding));
    p.(stats := p.stats.(finalCount := |p.companies|))
  }

  /** What the run reports when no state is null: the removal counters and
      the final count partition the initial count, the kept companies are
      the input's passing companies in order, and the state and
      funding-range counters each sum to the final count and count only
      target states. */
  lemma FilterOfSpec(s: seq<Record>, states: seq<string>, minFunding: real)
    requires StatesPresent(s)
    ensures var out := FilterOf(s, states, minFunding);
      && out.stats.initialCount == |s|
      && out.stats.initialCount == out.stats.removedByCountry + out.stats.removedByFunding
           + out.stats.removedByLocation + out.stats.removedByIndustry + out.stats.finalCount
      && out.stats.finalCount == |out.companies|
      && out.companies == Filter(s, (r: Record) => Classify(r, states, minFunding) == Pass)
      && out.stats.byState.Total() == out.stats.finalCount
      && out.stats.byFundingRange.Total() == out.stats.finalCount
      && (forall k :: k in out.stats.byState.keys ==> k in states)
  {
    var assess := AssessBy(states, minFunding);
    RunCounts(s, |s|, assess);
    VerdictsPartition(s, |s|, assess);
    forall i | 0 <= i < |s| ensures assess(s[i]).verdict != Raises {
      ClassifySpec(s[i], states, minFunding);
    }
    NoneRaises(s, |s|, assess);
    RunKept(s, |s|, assess, (r: Record) => Classify(r, states, minFunding) == Pass);
    assert s[..|s|] == s;
    RunCounters(s, |s|, assess, states);
  }

  /** Each key of the three statistics counts the kept companies with that
      key: `by_state` by normalised state, `by_funding_range` by the range
      of the funding amount, `by_industry` by non-empty industry. */
  lemma FilterCountsSpec(s: seq<Record>, states: seq<string>, minFunding: real)
    ensures var out := FilterOf(s, states, minFunding);
      && (forall st :: out.stats.byState.Get(st) == Count(out.companies, StateIs(st)))
      && (forall g :: out.stats.byFundingRange.Get(g) == Count(out.companies, RangeIs(g)))
      && (forall ind :: out.stats.byIndustry.Get(ind) == Count(out.companies, IndustryIs(ind)))
  {
    var assess := AssessBy(states, minFunding);
    RunStateCounts(s, |s|, assess, StateKey);
    RunRangeCounts(s, |s|, assess, FundingRangeOf);
    RunIndustryCounts(s, |s|, assess, IndustryOf);
  }

  /** Every kept company meets every criterion, and every input company
      that meets them all is kept. */
  lemma KeptAreThoseMeetingCriteria(s: seq<Record>, states: seq<string>, minFunding: real)
    requires StatesPresent(s)
    ensures forall r :: r in FilterOf(s, states, minFunding).companies <==> r in s && MeetsCriteria(r, states, minFunding)
  {
    FilterOfSpec(s, states, minFunding);
    forall r | r in s {
      ClassifySpec(r, states, minFunding);
    }
    forall r | r in FilterOf(s, states, minFunding).companies ensures MeetsCriteria(r, states, minFunding) {
      ClassifySpec(r, states, minFunding);
    }
  }

  // ---------------------------------------------------------------------
  // `filter_companies`

  lemma NullStateFound(s: seq<Record>, k: nat)
    requires k < |s| && s[k].company.address.state.None?
    ensures !StatesPresent(s)
  {
  }

  /** The verdict reached at each exit of the loop body. */
  lemma VerdictNonUs(r: Record, states: seq<string>, minFunding: real)
    requires IsUsCompany(r) == Some(false)
    ensures Assess(r, states, minFunding).verdict == NonUs
  {}
  lemma VerdictLowFunding(r: Record, states: seq<string>, minFunding: real)
    requires IsUsCompany(r) == Some(true) && ExtractFundingAmount(r.funding) < minFunding
    ensures Assess(r, states, minFunding).verdict == LowFunding
  {}
  lemma VerdictWrongState(r: Record, states: seq<string>, minFunding: real)
    requires IsUsCompany(r) == Some(true) && ExtractFundingAmount(r.funding) >= minFunding
    requires NormalizeState(r.company.address.state.value) !in states
    ensures Assess(r, states, minFunding).verdict == WrongState
  {}
  lemma VerdictExcluded(r: Record, states: seq<string>, minFunding: real)
    requires IsUsCompany(r) == Some(true) && ExtractFundingAmount(r.funding) >= minFunding
    requires NormalizeState(r.company.address.state.value) in states
    requires IsExcludedIndustry(r.company.industry)
    ensures Assess(r, states, minFunding).verdict == ExcludedIndustry
  {}
  lemma VerdictPass(r: Record, states: seq<string>, minFunding: real)
    requires IsUsCompany(r) == Some(true) && ExtractFundingAmount(r.funding) >= minFunding
    requires NormalizeState(r.company.address.state.value) in states
    requires !IsExcludedIndustry(r.company.industry)
    ensures Assess(r, states, minFunding) ==
      Assessment(Pass, NormalizeState(r.company.address.state.value), ExtractFundingAmount(r.funding), r.company.industry)
  {}

  /** One turn of the loop body: the four tests in order, a failing test
      bumping its own removal counter and ending the turn, and a company
      that passes them all appended and counted by state, funding range
      and non-empty industry. `raised` where `is_us_company` raises on a
      null state. */
  method Visit(r: Record, filtered: seq<Record>, stats: FilterStats, states: seq<string>, minFunding: real)
    returns (raised: bool, filtered': seq<Record>, stats': FilterStats)
    ensures raised <==> r.company.address.state.None?
    ensures !raised ==>
      FilterResult(filtered', stats') == Step(FilterResult(filtered, stats), r, Assess(r, states, minFunding))
  {
    filtered', stats' := filtered, stats;
    var us := IsUsCompany(r);
    if us.None? {
      return true, filtered', stats';
    }
    raised := false;
    if !us.value {
      VerdictNonUs(r, states, minFunding);
      stats' := stats.(removedByCountry := stats.removedByCountry + 1);
      return;
    }
    var funding := ExtractFundingAmount(r.funding);
    if funding < minFunding {
      VerdictLowFunding(r, states, minFunding);
      stats' := stats.(removedByFunding := stats.removedByFunding + 1);
      return;
    }
    var state := NormalizeState(r.company.address.state.value);
    if state !in states {
      VerdictWrongState(r, states, minFunding);
      stats' := stats.(removedByLocation := stats.removedByLocation + 1);
      return;
    }
    var industry := r.company.industry;
    if IsExcludedIndustry(industry) {
      VerdictExcluded(r, states, minFunding);
      stats' := stats.(removedByIndustry := stats.removedByIndustry + 1);
      return;
    }
    VerdictPass(r, states, minFunding);
    filtered' := filtered + [r];
    stats' := stats'.(byState := stats'.byState.Inc(state));
    stats' := stats'.(byFundingRange := stats'.byFundingRange.Inc(RangeOf(funding)));
    if Truthy(industry) {
      stats' := stats'.(byIndustry := stats'.byIndustry.Inc(industry.value));
    }
  }

  /** One more company folded in by the assessment for `states` and
      `minFunding`. */
  lemma RunNext(s: seq<Record>, k: nat, states: seq<string>, minFunding: real)
    requires k < |s|
    ensures Run(s, k + 1, AssessBy(states, minFunding))
      == Step(Run(s, k, AssessBy(states, minFunding)), s[k], Assess(s[k], states, minFunding))
  {
  }

  /** The filtering loop. A company with a null state makes
      `is_us_company` raise, which ends the run without output (`None`). */
  method FilterCompanies(companies: seq<Record>, targetStates: Option<seq<string>>, minFunding: real)
    returns (out: Option<FilterResult>)
    ensures out.None? <==> !StatesPresent(companies)
    ensures out.Some? ==> out.value == FilterOf(companies, TargetStatesOf(targetStates), minFunding)
  {
    var states := TargetStatesOf(targetStates);
    out := FilterWith(companies, states, minFunding);
  }

  method FilterWith(companies: seq<Record>, states: seq<string>, minFunding: real)
    returns (out: Option<FilterResult>)
    ensures out.None? <==> !StatesPresent(companies)
    ensures out.Some? ==> out.value == FilterOf(companies, states, minFunding)
  {
    ghost var assess := AssessBy(states, minFunding);
    var acc := Start(|companies|);
    for k := 0 to |companies|
      invariant Progress(companies, k, assess, acc)
    {
      var raised;
      raised, acc := VisitAt(companies, k, acc, states, minFunding, assess);
      if raised {
        return None;
      }
    }
    ProgressDone(companies, states, minFunding, acc);
    out := Some(acc.(stats := acc.stats.(finalCount := |acc.companies|)));
  }

  /** The loop's invariant after `k` companies: none had a null state, and
      the kept list and the statistics are those of the run so far. */
  ghost predicate Progress(s: seq<Record>, k: nat, assess: Record -> Assessment, acc: FilterResult)
    requires k <= |s|
  {
    StatesPresentUpTo(s, k) && acc == Run(s, k, assess)
  }

  lemma ProgressDone(s: seq<Record>, states: seq<string>, minFunding: real, acc: FilterResult)
    requires Progress(s, |s|, AssessBy(states, minFunding), acc)
    ensures StatesPresent(s)
    ensures acc.(stats := acc.stats.(finalCount := |acc.companies|)) == FilterOf(s, states, minFunding)
  {
    StatesPresentUpToSpec(s, |s|);
  }

  /** The loop body at index `k`: the run over the first `k` companies
      becomes the run over the first `k + 1`, unless the company's state is
      null, which ends the run. */
  method VisitAt(companies: seq<Record>, k: nat, acc: FilterResult, states: seq<string>, minFunding: real,
                 ghost assess: Record -> Assessment)
    returns (raised: bool, acc': FilterResult)
    requires k < |companies| && assess == AssessBy(states, minFunding)
    requires Progress(companies, k, assess, acc)
    ensures raised ==> !StatesPresent(companies)
    ensures !raised ==> Progress(companies, k + 1, assess, acc')
  {
    var filtered, stats;
    raised, filtered, stats := Visit(companies[k], acc.companies, acc.stats, states, minFunding);
    acc' := FilterResult(filtered, stats);
    if raised {
      NullStateFound(companies, k);
    } else {
      RunNext(companies, k, states, minFunding);
    }
  }
}
