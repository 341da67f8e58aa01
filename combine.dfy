/**
 * `sec_combine_quarters.py`: concatenates the per-quarter company files,
 * keeps one record per accession number (the one with the fewest months
 * since funding, the earliest on ties), orders the result by months since
 * funding, and summarises it overall, by state and by industry.
 */
module Combine {
  import opened Common
  import opened Records
  import opened Sorting

  const FilePrefix: string := "companies_sec_"
  const FileSuffix: string := ".json"

  /** The months used when a record has none: "very old". */
  const NoMonths: int := 999

  const MinFunding: real := 5000000.0

  /** A file of the input directory; `companies` is `None` when the
      document has no `companies` key. */
  datatype QuarterFile = QuarterFile(name: string, quarter: string, companies: Option<seq<Record>>)

  function FileName(f: QuarterFile): string { f.name }

  predicate IsCompaniesFile(f: QuarterFile) {
    StartsWith(f.name, FilePrefix) && EndsWith(f.name, FileSuffix)
  }

  /** `data.get('companies', [])` */
  function CompaniesIn(f: QuarterFile): seq<Record> {
    if f.companies.None? then [] else f.companies.value
  }

  // ---------------------------------------------------------------------
  // Loading

  function AllCompanies(files: seq<QuarterFile>, n: nat): (r: seq<Record>)
    requires n <= |files|
  {
    if n == 0 then [] else AllCompanies(files, n - 1) + CompaniesIn(files[n - 1])
  }

  function QuartersOf(files: seq<QuarterFile>): (r: seq<string>)
    ensures |r| == |files|
    ensures forall i :: 0 <= i < |files| ==> r[i] == files[i].quarter
  {
    seq(|files|, i requires 0 <= i < |files| => files[i].quarter)
  }

  /** The loading loop: the companies of every file, in file order, and
      the quarter of every file. */
  method LoadAll(files: seq<QuarterFile>) returns (all: seq<Record>, quarters: seq<string>)
    ensures all == AllCompanies(files, |files|)
    ensures quarters == QuartersOf(files)
  {
    all, quarters := [], [];
    for k := 0 to |files|
      invariant all == AllCompanies(files, k)
      invariant |quarters| == k
      invariant forall i :: 0 <= i < k ==> quarters[i] == files[i].quarter
    {
      all := all + CompaniesIn(files[k]);
      quarters := quarters + [files[k].quarter];
    }
  }

  /** The combined list holds exactly the companies of the files, as many
      as all files together. */
  lemma {:induction false} AllCompaniesSpec(files: seq<QuarterFile>, n: nat)
    requires n <= |files|
    ensures |AllCompanies(files, n)| == SumOf(files[..n], (f: QuarterFile) => |CompaniesIn(f)|)
    ensures forall r :: r in AllCompanies(files, n) <==> exists i :: 0 <= i < n && r in CompaniesIn(files[i])
  {
    if n > 0 {
      AllCompaniesSpec(files, n - 1);
      assert files[..n] == files[..n - 1] + [files[n - 1]];
      SumOfAppend(files[..n - 1], files[n - 1], (f: QuarterFile) => |CompaniesIn(f)|);
    }
  }

  // ---------------------------------------------------------------------
  // Deduplication by accession number

  /** `months_since_funding`, with 999 for a missing value. */
  function MonthsKey(r: Record): int {
    if r.companyAge.monthsSinceFunding.None? then NoMonths else r.companyAge.monthsSinceFunding.value
  }

  /** The accession numbers of the first `n` records, in first-seen order:
      the key order of the `unique_companies` dict. */
  function Accessions(s: seq<Record>, n: nat): seq<string>
    requires n <= |s|
  {
    if n == 0 then []
    else
      var prev := Accessions(s, n - 1);
      if s[n - 1].accessionNumber in prev then prev else prev + [s[n - 1].accessionNumber]
  }

  /** The index of the record kept for accession `a` among the first `n`:
      a later record replaces the kept one only when its months are
      strictly fewer. -1 when `a` has not been seen. */
  function Kept(s: seq<Record>, n: nat, a: string): (b: int)
    requires n <= |s|
    ensures -1 <= b < n
  {
    if n == 0 then -1
    else
      var prev := Kept(s, n - 1, a);
      if s[n - 1].accessionNumber != a then prev
      else if prev == -1 || MonthsKey(s[n - 1]) < MonthsKey(s[prev]) then n - 1
      else prev
  }

  /** Every accession number is listed once, and exactly the ones that
      occur. */
  lemma {:induction false} AccessionsSpec(s: seq<Record>, n: nat)
    requires n <= |s|
    ensures Distinct(Accessions(s, n))
    ensures forall a :: a in Accessions(s, n) <==> exists i :: 0 <= i < n && s[i].accessionNumber == a
  {
    if n > 0 {
      AccessionsSpec(s, n - 1);
    }
  }

  /** The kept record carries the accession number, has the fewest months
      of all records with that number, and is the first to have them;
      nothing is kept for a number that does not occur. */
  lemma {:induction false} KeptSpec(s: seq<Record>, n: nat, a: string)
    requires n <= |s|
    ensures Kept(s, n, a) == -1 <==> forall i :: 0 <= i < n ==> s[i].accessionNumber != a
    ensures Kept(s, n, a) >= 0 ==>
      var b := Kept(s, n, a);
      && s[b].accessionNumber == a
      && (forall i :: 0 <= i < n && s[i].accessionNumber == a ==> MonthsKey(s[b]) <= MonthsKey(s[i]))
      && (forall i :: 0 <= i < b && s[i].accessionNumber == a ==> MonthsKey(s[b]) < MonthsKey(s[i]))
  {
    if n > 0 {
      KeptSpec(s, n - 1, a);
    }
  }

  /** A missing months value counts as 999 months, not as "never": a later
      record for the same accession number replaces it only when its months
      are fewer than 999. */
  lemma SentinelNotInfinity(a: Record, b: Record, m: int)
    requires a.accessionNumber == b.accessionNumber
    requires a.companyAge.monthsSinceFunding.None? && b.companyAge.monthsSinceFunding == Some(m)
    ensures Kept([a, b], 2, a.accessionNumber) == if m < NoMonths then 1 else 0
  {
  }

  /** `list(unique_companies.values())`: per accession number in
      first-seen order, its kept record. */
  function DedupOf(s: seq<Record>): (r: seq<Record>)
  {
    var order := Accessions(s, |s|);
    seq(|order|, i requires 0 <= i < |order| =>
      AccessionsSpec(s, |s|);
      assert order[i] in order;
      KeptSpec(s, |s|, order[i]);
      s[Kept(s, |s|, order[i])])
  }

  /** The deduplicated list has one record per accession number, each one
      the kept record for its number, and is no longer than the input. */
  lemma DedupOfSpec(s: seq<Record>)
    ensures |DedupOf(s)| <= |s|
    ensures forall i, j :: 0 <= i < j < |DedupOf(s)| ==> DedupOf(s)[i].accessionNumber != DedupOf(s)[j].accessionNumber
    ensures forall r :: r in s ==> exists i :: 0 <= i < |DedupOf(s)| && DedupOf(s)[i].accessionNumber == r.accessionNumber
    ensures forall i :: 0 <= i < |DedupOf(s)| ==>
      Kept(s, |s|, DedupOf(s)[i].accessionNumber) >= 0 && DedupOf(s)[i] == s[Kept(s, |s|, DedupOf(s)[i].accessionNumber)]
  {
    var order := Accessions(s, |s|);
    var d := DedupOf(s);
    AccessionsSpec(s, |s|);
    forall i | 0 <= i < |order| ensures d[i].accessionNumber == order[i] && Kept(s, |s|, order[i]) >= 0 {
      assert order[i] in order;
      KeptSpec(s, |s|, order[i]);
      assert d[i] == s[Kept(s, |s|, order[i])];
    }
    AccessionsBound(s, |s|);
    forall r | r in s ensures exists i :: 0 <= i < |d| && d[i].accessionNumber == r.accessionNumber {
      var k :| 0 <= k < |s| && s[k] == r;
      assert s[k].accessionNumber == r.accessionNumber;
      assert r.accessionNumber in order;
      var i :| 0 <= i < |order| && order[i] == r.accessionNumber;
      assert d[i].accessionNumber == r.accessionNumber;
    }
  }

  lemma {:induction false} AccessionsBound(s: seq<Record>, n: nat)
    requires n <= |s|
    ensures |Accessions(s, n)| <= n
  {
    if n > 0 {
      AccessionsBound(s, n - 1);
    }
  }

  /** The deduplication loop over a dict keyed by accession number. */
  method Deduplicate(all: seq<Record>) returns (unique: seq<Record>)
    ensures unique == DedupOf(all)
  {
    var order: seq<string> := [];
    var table: map<string, Record> := map[];
    for k := 0 to |all|
      invariant order == Accessions(all, k)
      invariant forall a :: a in table <==> a in order
      invariant forall a :: a in table ==> Kept(all, k, a) >= 0 && table[a] == all[Kept(all, k, a)]
    {
      order, table := DedupStep(all, k, order, table);
    }
    unique := TableValues(all, order, table);
  }

  /** One turn of the deduplication loop: a new accession number is
      recorded with its record, and a known one keeps the record with
      fewer months, the earlier one on a tie. */
  method DedupStep(all: seq<Record>, k: nat, order: seq<string>, table: map<string, Record>)
    returns (order': seq<string>, table': map<string, Record>)
    requires k < |all|
    requires order == Accessions(all, k)
    requires forall a :: a in table <==> a in order
    requires forall a :: a in table ==> Kept(all, k, a) >= 0 && table[a] == all[Kept(all, k, a)]
    ensures order' == Accessions(all, k + 1)
    ensures forall a :: a in table' <==> a in order'
    ensures forall a :: a in table' ==> Kept(all, k + 1, a) >= 0 && table'[a] == all[Kept(all, k + 1, a)]
  {
    order', table' := order, table;
    var company := all[k];
    var acc := company.accessionNumber;
    AccessionsSpec(all, k);
    KeptSpec(all, k, acc);
    if acc !in table' {
      table' := table'[acc := company];
      order' := order' + [acc];
    } else {
      var existing := table'[acc];
      var existingMonths := if existing.companyAge.monthsSinceFunding.None? then NoMonths else existing.companyAge.monthsSinceFunding.value;
      var companyMonths := if company.companyAge.monthsSinceFunding.None? then NoMonths else company.companyAge.monthsSinceFunding.value;
      if companyMonths < existingMonths {
        table' := table'[acc := company];
      }
    }
  }

  /** `list(unique_companies.values())` once every record is seen. */
  method TableValues(all: seq<Record>, order: seq<string>, table: map<string, Record>) returns (unique: seq<Record>)
    requires order == Accessions(all, |all|)
    requires forall a :: a in table <==> a in order
    requires forall a :: a in table ==> Kept(all, |all|, a) >= 0 && table[a] == all[Kept(all, |all|, a)]
    ensures unique == DedupOf(all)
  {
    AccessionsSpec(all, |all|);
    unique := seq(|order|, i requires 0 <= i < |order| => table[order[i]]);
  }

  function MonthsSortKey(r: Record): real { MonthsKey(r) as real }

  // ---------------------------------------------------------------------
  // Statistics

  /** `amount and amount >= 5_000_000` on `total_amount_sold`. The quarter
      builder writes it as a number or null. */
  predicate Over5M(r: Record) {
    r.funding.totalAmountSold.JNumber? && r.funding.totalAmountSold.x != 0.0
      && r.funding.totalAmountSold.x >= MinFunding
  }

  function StateOf(r: Record): Option<string> { r.company.address.state }
  function IndustryOf(r: Record): Option<string> { r.company.industry }

  /** The truthy group keys of the first `n` records, in first-seen order:
      the key order of the `defaultdict`. */
  function GroupKeys(s: seq<Record>, n: nat, key: Record -> Option<string>): seq<string>
    requires n <= |s|
  {
    if n == 0 then []
    else
      var prev := GroupKeys(s, n - 1, key);
      var k := key(s[n - 1]);
      if Truthy(k) && k.value !in prev then prev + [k.value] else prev
  }

  /** `counts[g]['total']` after the first `n` records. */
  function GroupTotal(s: seq<Record>, n: nat, key: Record -> Option<string>, g: string): nat
    requires n <= |s|
  {
    if n == 0 then 0
    else GroupTotal(s, n - 1, key, g) + (if key(s[n - 1]) == Some(g) then 1 else 0)
  }

  /** `counts[g]['over_5m']` after the first `n` records. */
  function GroupOver(s: seq<Record>, n: nat, key: Record -> Option<string>, g: string): nat
    requires n <= |s|
  {
    if n == 0 then 0
    else GroupOver(s, n - 1, key, g) + (if key(s[n - 1]) == Some(g) && Over5M(s[n - 1]) then 1 else 0)
  }

  /** The groups are the distinct non-empty keys that occur, each with at
      least one record, and a group never has more records over $5M than
      records. */
  lemma {:induction false} GroupKeysSpec(s: seq<Record>, n: nat, key: Record -> Option<string>)
    requires n <= |s|
    ensures Distinct(GroupKeys(s, n, key))
    ensures forall g :: g in GroupKeys(s, n, key) <==> g != "" && GroupTotal(s, n, key, g) > 0
    ensures forall g :: GroupOver(s, n, key, g) <= GroupTotal(s, n, key, g)
  {
    if n > 0 {
      GroupKeysSpec(s, n - 1, key);
    }
  }

  /** Sum of the totals of `groups`. */
  function SumTotals(groups: seq<string>, s: seq<Record>, n: nat, key: Record -> Option<string>): nat
    requires n <= |s|
  {
    if groups == [] then 0
    else SumTotals(groups[..|groups| - 1], s, n, key) + GroupTotal(s, n, key, groups[|groups| - 1])
  }

  lemma {:induction false} SumTotalsStep(groups: seq<string>, s: seq<Record>, n: nat, key: Record -> Option<string>)
    requires 0 < n <= |s| && Distinct(groups)
    ensures SumTotals(groups, s, n, key) == SumTotals(groups, s, n - 1, key)
      + (if key(s[n - 1]).Some? && key(s[n - 1]).value in groups then 1 else 0)
  {
    if groups != [] {
      var init := groups[..|groups| - 1];
      SumTotalsStep(init, s, n, key);
      assert groups == init + [groups[|groups| - 1]];
    }
  }

  /** Every record with a non-empty key is counted in exactly one group. */
  lemma {:induction false} GroupTotalsSum(s: seq<Record>, n: nat, key: Record -> Option<string>)
    requires n <= |s|
    ensures SumTotals(GroupKeys(s, n, key), s, n, key) == Count(s[..n], (r: Record) => Truthy(key(r)))
  {
    if n > 0 {
      GroupTotalsSum(s, n - 1, key);
      GroupKeysSpec(s, n - 1, key);
      GroupKeysSpec(s, n, key);
      var prev := GroupKeys(s, n - 1, key);
      var k := key(s[n - 1]);
      CountPrefix(s, n, (r: Record) => Truthy(key(r)));
      if Truthy(k) && k.value !in prev {
        SumTotalsStep(prev, s, n, key);
        assert GroupKeys(s, n, key)[..|prev|] == prev;
        assert GroupTotal(s, n - 1, key, k.value) == 0;
      } else {
        SumTotalsStep(prev, s, n, key);
      }
    }
  }

  /** The grouping loop: one pass over the records, counting per key. */
  method CountGroups(s: seq<Record>, key: Record -> Option<string>)
    returns (groups: seq<string>, totals: map<string, nat>, overs: map<string, nat>)
    ensures groups == GroupKeys(s, |s|, key)
    ensures forall g :: g in groups ==>
      (g in totals && g in overs && totals[g] == GroupTotal(s, |s|, key, g) && overs[g] == GroupOver(s, |s|, key, g))
  {
    groups, totals, overs := [], map[], map[];
    for k := 0 to |s|
      invariant groups == GroupKeys(s, k, key)
      invariant forall g :: g in totals <==> g in groups
      invariant forall g :: g in overs <==> g in groups
      invariant forall g :: g in groups ==> totals[g] == GroupTotal(s, k, key, g) && overs[g] == GroupOver(s, k, key, g)
    {
      groups, totals, overs := CountOne(s, k, key, groups, totals, overs);
    }
  }

  /** One turn of the grouping loop: the counts after `k` records become
      the counts after `k + 1`. */
  method CountOne(s: seq<Record>, k: nat, key: Record -> Option<string>,
                  groups: seq<string>, totals: map<string, nat>, overs: map<string, nat>)
    returns (groups': seq<string>, totals': map<string, nat>, overs': map<string, nat>)
    requires k < |s|
    requires groups == GroupKeys(s, k, key)
    requires forall g :: g in totals <==> g in groups
    requires forall g :: g in overs <==> g in groups
    requires forall g :: g in groups ==> totals[g] == GroupTotal(s, k, key, g) && overs[g] == GroupOver(s, k, key, g)
    ensures groups' == GroupKeys(s, k + 1, key)
    ensures forall g :: g in totals' <==> g in groups'
    ensures forall g :: g in overs' <==> g in groups'
    ensures forall g :: g in groups' ==> totals'[g] == GroupTotal(s, k + 1, key, g) && overs'[g] == GroupOver(s, k + 1, key, g)
  {
    GroupKeysSpec(s, k, key);
    groups', totals', overs' := groups, totals, overs;
    var c := s[k];
    var g := key(c);
    if g.Some? && g.value != "" {
      var name := g.value;
      if name !in totals' {
        totals' := totals'[name := 0];
        overs' := overs'[name := 0];
        groups' := groups' + [name];
      }
      totals' := totals'[name := totals'[name] + 1];
      var amount := c.funding.totalAmountSold;
      if amount.JNumber? && amount.x != 0.0 && amount.x >= MinFunding {
        overs' := overs'[name := overs'[name] + 1];
      }
    }
  }

  datatype StatCategory = Overall | ByState | ByIndustry

  /** One row of the statistics CSV; the percentage column is
      `over5m / total` formatted, or "0%" for an empty group. */
  datatype StatRow = StatRow(category: StatCategory, subcategory: string, total: nat, over5m: nat)

  function RowTotal(row: StatRow): real { row.total as real }

  function GroupRowsOf(category: StatCategory, s: seq<Record>, key: Record -> Option<string>): seq<StatRow> {
    var groups := GroupKeys(s, |s|, key);
    var rows := seq(|groups|, i requires 0 <= i < |groups| =>
      StatRow(category, groups[i], GroupTotal(s, |s|, key, groups[i]), GroupOver(s, |s|, key, groups[i])));
    SortDescBy(rows, RowTotal)
  }

  function StatisticsOf(companies: seq<Record>): seq<StatRow> {
    [StatRow(Overall, "All Companies", |companies|, Count(companies, Over5M))]
      + GroupRowsOf(ByState, companies, StateOf)
      + GroupRowsOf(ByIndustry, companies, IndustryOf)
  }

  /** The rows of one category, sorted by total, largest first. */
  method GroupRows(category: StatCategory, s: seq<Record>, key: Record -> Option<string>) returns (rows: seq<StatRow>)
    ensures rows == GroupRowsOf(category, s, key)
  {
    var groups, totals, overs := CountGroups(s, key);
    assert forall i :: 0 <= i < |groups| ==> groups[i] in groups;
    var items := seq(|groups|, i requires 0 <= i < |groups| => StatRow(category, groups[i], totals[groups[i]], overs[groups[i]]));
    assert items == seq(|groups|, i requires 0 <= i < |groups| =>
      StatRow(category, groups[i], GroupTotal(s, |s|, key, groups[i]), GroupOver(s, |s|, key, groups[i])));
    rows := SortDescBy(items, RowTotal);
  }

  /** `generate_statistics_csv` without the file. */
  method GenerateStatistics(companies: seq<Record>) returns (rows: seq<StatRow>)
    ensures rows == StatisticsOf(companies)
  {
    var overall := StatRow(Overall, "All Companies", |companies|, Count(companies, Over5M));
    var byState := GroupRows(ByState, companies, StateOf);
    var byIndustry := GroupRows(ByIndustry, companies, IndustryOf);
    rows := [overall] + byState + byIndustry;
  }

  /** Each category's rows are its groups, ordered by non-increasing
      total; no row counts more records over $5M than records; and the
      group totals add up to the records with a non-empty key. */
  lemma GroupRowsSpec(category: StatCategory, s: seq<Record>, key: Record -> Option<string>)
    ensures var rows := GroupRowsOf(category, s, key);
      && |rows| == |GroupKeys(s, |s|, key)|
      && (forall i, j :: 0 <= i < j < |rows| ==> rows[i].total >= rows[j].total)
      && (forall row :: row in rows ==>
            (row.category == category && row.over5m <= row.total
             && row.subcategory in GroupKeys(s, |s|, key) && row.total == GroupTotal(s, |s|, key, row.subcategory)))
    ensures SumTotals(GroupKeys(s, |s|, key), s, |s|, key) == Count(s, (r: Record) => Truthy(key(r)))
  {
    var groups := GroupKeys(s, |s|, key);
    var items := seq(|groups|, i requires 0 <= i < |groups| =>
      StatRow(category, groups[i], GroupTotal(s, |s|, key, groups[i]), GroupOver(s, |s|, key, groups[i])));
    var rows := SortDescBy(items, RowTotal);
    SortDescBySpec(items, RowTotal);
    GroupKeysSpec(s, |s|, key);
    forall i, j | 0 <= i < j < |rows| ensures rows[i].total >= rows[j].total {
      assert RowTotal(rows[i]) >= RowTotal(rows[j]);
    }
    forall row | row in rows
      ensures row.category == category && row.over5m <= row.total
      ensures row.subcategory in groups && row.total == GroupTotal(s, |s|, key, row.subcategory)
    {
      assert row in multiset(items);
    }
    GroupTotalsSum(s, |s|, key);
    assert s[..|s|] == s;
  }

  /** The overall row counts every company, and no more over $5M. */
  lemma OverallSpec(companies: seq<Record>)
    ensures StatisticsOf(companies)[0].category == Overall
    ensures StatisticsOf(companies)[0].total == |companies|
    ensures StatisticsOf(companies)[0].over5m <= |companies|
  {
    FilterLength(companies, Over5M);
  }

  // ---------------------------------------------------------------------
  // The whole run

  datatype MasterOutput = MasterOutput(
    generatedAt: string, quartersProcessed: seq<string>,
    totalCompanies: nat, totalExecutives: nat,
    earliestQuarter: Option<string>, latestQuarter: Option<string>,
    companies: seq<Record>)

  function JsonFilesOf(listing: seq<QuarterFile>): seq<QuarterFile> {
    SortByName(Filter(listing, IsCompaniesFile), FileName)
  }

  function MasterOf(files: seq<QuarterFile>, stamp: string): MasterOutput {
    var quarters := QuartersOf(files);
    var final := SortBy(DedupOf(AllCompanies(files, |files|)), MonthsSortKey);
    MasterOutput(stamp, quarters, |final|, SumOf(final, PersonCount),
      if quarters == [] then None else Some(quarters[0]),
      if quarters == [] then None else Some(quarters[|quarters| - 1]),
      final)
  }

  /** The master list is the deduplicated list ordered by months since
      funding (missing months last, as 999), with one record per
      accession number, counted in the metadata. */
  lemma MasterCompaniesSpec(files: seq<QuarterFile>, stamp: string)
    ensures var out := MasterOf(files, stamp);
      var all := AllCompanies(files, |files|);
      && multiset(out.companies) == multiset(DedupOf(all))
      && out.totalCompanies == |out.companies| <= |all|
      && (forall i, j :: 0 <= i < j < |out.companies| ==> MonthsKey(out.companies[i]) <= MonthsKey(out.companies[j]))
      && (forall i, j :: 0 <= i < j < |out.companies| ==> out.companies[i].accessionNumber != out.companies[j].accessionNumber)
  {
    var all := AllCompanies(files, |files|);
    var d := DedupOf(all);
    var final := SortBy(d, MonthsSortKey);
    assert MasterOf(files, stamp).companies == final;
    SortBySpec(d, MonthsSortKey);
    DedupOfSpec(all);
    forall i, j | 0 <= i < j < |final| ensures MonthsKey(final[i]) <= MonthsKey(final[j]) {
      assert MonthsSortKey(final[i]) <= MonthsSortKey(final[j]);
    }
    forall i, j | 0 <= i < j < |final| ensures final[i].accessionNumber != final[j].accessionNumber {
      DistinctAfterPermutation(d, final, i, j);
    }
  }

  /** The date range names the quarter of the first and of the last file. */
  lemma MasterQuartersSpec(files: seq<QuarterFile>, stamp: string)
    requires files != []
    ensures MasterOf(files, stamp).quartersProcessed == QuartersOf(files)
    ensures MasterOf(files, stamp).earliestQuarter == Some(files[0].quarter)
    ensures MasterOf(files, stamp).latestQuarter == Some(files[|files| - 1].quarter)
  {
  }

  /** Records at two positions of a permutation of a list with distinct
      accession numbers have distinct accession numbers. */
  lemma DistinctAfterPermutation(d: seq<Record>, p: seq<Record>, i: int, j: int)
    requires multiset(d) == multiset(p)
    requires forall x, y :: 0 <= x < y < |d| ==> d[x].accessionNumber != d[y].accessionNumber
    requires 0 <= i < j < |p|
    ensures p[i].accessionNumber != p[j].accessionNumber
  {
    if p[i].accessionNumber == p[j].accessionNumber {
      assert p[i] in multiset(d) && p[j] in multiset(d);
      var x :| 0 <= x < |d| && d[x] == p[i];
      var y :| 0 <= y < |d| && d[y] == p[j];
      if x == y {
        // p[i] == p[j] occurs twice in p but once in d
        var m := multiset(p);
        assert p == p[..i] + [p[i]] + p[i + 1..j] + [p[j]] + p[j + 1..];
        assert m[p[i]] >= 2;
        OccursOnce(d, x);
        assert false;
      }
    }
  }

  lemma OccursOnce(d: seq<Record>, x: int)
    requires forall a, b :: 0 <= a < b < |d| ==> d[a].accessionNumber != d[b].accessionNumber
    requires 0 <= x < |d|
    ensures multiset(d)[d[x]] == 1
  {
    assert d == d[..x] + [d[x]] + d[x + 1..];
    assert d[x] !in d[..x];
    assert d[x] !in d[x + 1..];
  }

  /** `combine_and_deduplicate` without the files: `None` when there is no
      company file; otherwise the master document and the statistics. */
  method CombineAndDeduplicate(listing: seq<QuarterFile>, stamp: string)
    returns (out: Option<(MasterOutput, seq<StatRow>)>)
    ensures JsonFilesOf(listing) == [] ==> out.None?
    ensures JsonFilesOf(listing) != [] ==>
      out == Some((MasterOf(JsonFilesOf(listing), stamp), StatisticsOf(MasterOf(JsonFilesOf(listing), stamp).companies)))
  {
    var jsonFiles := SortByName(Filter(listing, IsCompaniesFile), FileName);
    if jsonFiles == [] {
      return None;
    }
    var master := BuildMaster(jsonFiles, stamp);
    var stats := GenerateStatistics(master.companies);
    out := Some((master, stats));
  }

  /** Loading, deduplicating and ordering the companies of the listed
      files into the master document. */
  method BuildMaster(jsonFiles: seq<QuarterFile>, stamp: string) returns (master: MasterOutput)
    ensures master == MasterOf(jsonFiles, stamp)
  {
    var all, quarters := LoadAll(jsonFiles);
    var unique := Deduplicate(all);
    var final := SortBy(unique, MonthsSortKey);
    master := MasterOutput(stamp, quarters, |final|, SumOf(final, PersonCount),
      if quarters == [] then None else Some(quarters[0]),
      if quarters == [] then None else Some(quarters[|quarters| - 1]),
      final);
  }
}
