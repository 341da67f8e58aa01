/**
 * `sec_all_quarters.py`: turns one quarter's four Form D tables into
 * company records, and runs that over every quarter directory.
 *
 * "Now" is an injected `Clock` and `datetime.strptime` an injected
 * `DateParser` that yields a day number, so that the derived ages are
 * functions of their inputs.
 */
module Quarter {
  import opened Common
  import opened Records
  import opened Sorting

  const RequiredFiles: seq<string> := ["FORMDSUBMISSION.tsv", "ISSUERS.tsv", "OFFERING.tsv", "RELATEDPERSONS.tsv"]

  /** `'%d-%b-%Y'`, `'%Y-%m-%d'` and `'%m/%d/%Y'`. */
  datatype DateFormat = DayMonthNameYear | YearMonthDay | MonthDayYear

  const FilingDateFormats: seq<DateFormat> := [DayMonthNameYear, YearMonthDay, MonthDayYear]

  /** `datetime.strptime(s, fmt)` as a day number, `None` where it raises. */
  type DateParser = (DateFormat, string) -> Option<int>

  // ---------------------------------------------------------------------
  // Threshold tables

  /** How many of the thresholds `x` has reached. */
  function Passed(thresholds: seq<real>, x: real): (n: nat)
    ensures n <= |thresholds|
  {
    if thresholds == [] then 0
    else (if thresholds[0] <= x then 1 else 0) + Passed(thresholds[1..], x)
  }

  lemma {:induction false} PassedMonotone(thresholds: seq<real>, x: real, y: real)
    requires x <= y
    ensures Passed(thresholds, x) <= Passed(thresholds, y)
  {
    if thresholds != [] {
      PassedMonotone(thresholds[1..], x, y);
    }
  }

  const StageThresholds: seq<real> := [2000000.0, 5000000.0, 15000000.0, 40000000.0, 100000000.0]
  const StageLadder: seq<Stage> := [PreSeed, Seed, SeriesA, SeriesB, SeriesC, SeriesDPlus]

  function StageRank(s: Stage): nat {
    match s
    case PreSeed => 0
    case Seed => 1
    case SeriesA => 2
    case SeriesB => 3
    case SeriesC => 4
    case SeriesDPlus => 5
  }

  /** The stage estimate from the amount sold; a missing or zero amount
      (falsy in Python) gives no stage. */
  function StageOf(amountSold: Option<real>): (r: Option<Stage>)
    ensures r.None? <==> amountSold.None? || amountSold.value == 0.0
  {
    if amountSold.None? || amountSold.value == 0.0 then None
    else
      var a := amountSold.value;
      if a < 2000000.0 then Some(PreSeed)
      else if a < 5000000.0 then Some(Seed)
      else if a < 15000000.0 then Some(SeriesA)
      else if a < 40000000.0 then Some(SeriesB)
      else if a < 100000000.0 then Some(SeriesC)
      else Some(SeriesDPlus)
  }

  /** The stage is the rung of the ladder given by the number of half-open
      thresholds the amount has reached. */
  lemma StageByThresholds(a: real)
    requires a != 0.0
    ensures StageOf(Some(a)) == Some(StageLadder[Passed(StageThresholds, a)])
  {
    var t := StageThresholds;
    assert Passed(t[4..], a) == (if 100000000.0 <= a then 1 else 0) by {
      assert t[4..][1..] == [];
    }
    assert Passed(t[3..], a) == (if 40000000.0 <= a then 1 else 0) + Passed(t[4..], a) by {
      assert t[3..][1..] == t[4..];
    }
    assert Passed(t[2..], a) == (if 15000000.0 <= a then 1 else 0) + Passed(t[3..], a) by {
      assert t[2..][1..] == t[3..];
    }
    assert Passed(t[1..], a) == (if 5000000.0 <= a then 1 else 0) + Passed(t[2..], a) by {
      assert t[1..][1..] == t[2..];
    }
  }

  /** A larger non-zero amount never gets an earlier stage. */
  lemma StageMonotone(a: real, b: real)
    requires a != 0.0 && b != 0.0 && a <= b
    ensures StageRank(StageOf(Some(a)).value) <= StageRank(StageOf(Some(b)).value)
  {
    StageByThresholds(a);
    StageByThresholds(b);
    PassedMonotone(StageThresholds, a, b);
  }

  /** Each threshold opens the next bucket: exactly $5,000,000 is Series A. */
  lemma StageBoundaries()
    ensures forall k :: 0 <= k < |StageThresholds| ==>
      StageOf(Some(StageThresholds[k])) == Some(StageLadder[k + 1])
    ensures StageOf(Some(5000000.0)) == Some(SeriesA)
    ensures StageOf(Some(0.0)) == None
  {
  }

  const RecencyThresholds: seq<real> := [6.0, 12.0, 24.0]
  const RecencyLadder: seq<Recency> := [VeryRecent, Recent, Moderate, Older]

  function RecencyRank(r: Recency): nat {
    match r
    case VeryRecent => 0
    case Recent => 1
    case Moderate => 2
    case Older => 3
  }

  function RecencyOf(months: int): Recency {
    if months < 6 then VeryRecent
    else if months < 12 then Recent
    else if months < 24 then Moderate
    else Older
  }

  lemma RecencyByThresholds(months: int)
    ensures RecencyOf(months) == RecencyLadder[Passed(RecencyThresholds, months as real)]
  {
    var t := RecencyThresholds;
    var x := months as real;
    assert Passed(t[2..], x) == (if 24.0 <= x then 1 else 0) by {
      assert t[2..][1..] == [];
    }
    assert Passed(t[1..], x) == (if 12.0 <= x then 1 else 0) + Passed(t[2..], x) by {
      assert t[1..][1..] == t[2..];
    }
  }

  /** The recency bucket is a monotone function of the months. */
  lemma RecencyMonotone(m: int, n: int)
    requires m <= n
    ensures RecencyRank(RecencyOf(m)) <= RecencyRank(RecencyOf(n))
  {
    RecencyByThresholds(m);
    RecencyByThresholds(n);
    PassedMonotone(RecencyThresholds, m as real, n as real);
  }

  /** `(now - file_dt).days // 30`: Python floors, which for the divisor 30
      is Dafny's Euclidean division. */
  function MonthsSince(today: int, filed: int): (m: int)
    ensures 30 * m <= today - filed < 30 * m + 30
  {
    (today - filed) / 30
  }

  /** `current_year - year_inc`, or `None` when the year is missing or 0. */
  function YearsSinceIncorporation(yearInc: Option<int>, currentYear: int): (r: Option<int>)
    ensures r.None? <==> yearInc.None? || yearInc.value == 0
    ensures r.Some? ==> r.value + yearInc.value == currentYear
  {
    if yearInc.None? || yearInc.value == 0 then None else Some(currentYear - yearInc.value)
  }

  // ---------------------------------------------------------------------
  // Filing date: the first format that parses wins

  function FirstParse(formats: seq<DateFormat>, s: string, parse: DateParser): Option<int> {
    if formats == [] then None
    else if parse(formats[0], s).Some? then parse(formats[0], s)
    else FirstParse(formats[1..], s, parse)
  }

  /** `FirstParse` yields the value of the first format that parses, and
      `None` exactly when none does. */
  lemma {:induction false} FirstParseSpec(formats: seq<DateFormat>, s: string, parse: DateParser)
    ensures FirstParse(formats, s, parse).None? <==> forall k :: 0 <= k < |formats| ==> parse(formats[k], s).None?
    ensures FirstParse(formats, s, parse).Some? ==>
      exists k :: 0 <= k < |formats| && FirstParse(formats, s, parse) == parse(formats[k], s)
        && forall j :: 0 <= j < k ==> parse(formats[j], s).None?
  {
    if formats != [] {
      FirstParseSpec(formats[1..], s, parse);
      if parse(formats[0], s).None? && FirstParse(formats, s, parse).Some? {
        var k :| 0 <= k < |formats| - 1 && FirstParse(formats[1..], s, parse) == parse(formats[1..][k], s)
          && forall j :: 0 <= j < k ==> parse(formats[1..][j], s).None?;
        assert forall j :: 0 <= j < k + 1 ==> parse(formats[j], s).None? by {
          forall j | 0 <= j < k + 1 ensures parse(formats[j], s).None? {
            if j > 0 { assert formats[j] == formats[1..][j - 1]; }
          }
        }
      }
      if parse(formats[0], s).None? {
        assert forall k :: 1 <= k < |formats| ==> formats[k] == formats[1..][k - 1];
      }
    }
  }

  /** Months since funding and the recency bucket; both `None` when the
      filing date is missing or empty or no format parses it. */
  function FundingAge(filingDate: Option<string>, parse: DateParser, today: int): (Option<int>, Option<Recency>) {
    if !Truthy(filingDate) then (None, None)
    else match FirstParse(FilingDateFormats, filingDate.value, parse)
      case None => (None, None)
      case Some(filed) => (Some(MonthsSince(today, filed)), Some(RecencyOf(MonthsSince(today, filed))))
  }

  lemma FundingAgeSpec(filingDate: Option<string>, parse: DateParser, today: int)
    ensures FundingAge(filingDate, parse, today).0.None? <==> FundingAge(filingDate, parse, today).1.None?
    ensures FundingAge(filingDate, parse, today).0.None? <==>
      !Truthy(filingDate) || forall k :: 0 <= k < |FilingDateFormats| ==> parse(FilingDateFormats[k], filingDate.value).None?
    ensures FundingAge(filingDate, parse, today).0.Some? ==>
      FundingAge(filingDate, parse, today).1 == Some(RecencyOf(FundingAge(filingDate, parse, today).0.value))
  {
    if Truthy(filingDate) {
      FirstParseSpec(FilingDateFormats, filingDate.value, parse);
    }
  }

  /** The format-trying loop: formats in order, `break` on the first that
      parses, `continue` past the ones that raise. */
  method ComputeFundingAge(filingDate: Option<string>, parse: DateParser, today: int)
    returns (months: Option<int>, recency: Option<Recency>)
    ensures (months, recency) == FundingAge(filingDate, parse, today)
  {
    months, recency := None, None;
    if filingDate.Some? && filingDate.value != "" {
      var s := filingDate.value;
      var k := 0;
      while k < |FilingDateFormats|
        invariant 0 <= k <= |FilingDateFormats|
        invariant FirstParse(FilingDateFormats, s, parse) == FirstParse(FilingDateFormats[k..], s, parse)
        invariant months.None? && recency.None?
      {
        var parsed := parse(FilingDateFormats[k], s);
        if parsed.Some? {
          var m := (today - parsed.value) / 30;
          months := Some(m);
          if m < 6 {
            recency := Some(VeryRecent);
          } else if m < 12 {
            recency := Some(Recent);
          } else if m < 24 {
            recency := Some(Moderate);
          } else {
            recency := Some(Older);
          }
          return;
        }
        assert FilingDateFormats[k..][1..] == FilingDateFormats[k + 1..];
        k := k + 1;
      }
    }
  }

  // ---------------------------------------------------------------------
  // One record per joined row

  function RecordOf(row: JoinedRow, people: seq<PersonRow>, quarter: string, clock: Clock, parse: DateParser): Record {
    var o, i := row.offering, row.issuer;
    var yearInc := CleanInt(i.yearOfInc);
    var filingDate := CleanValue(row.FilingDate());
    var age := FundingAge(filingDate, parse, clock.today);
    // TOTALAMOUNTSOLD goes through pd.to_numeric(errors='coerce') first,
    // which in this model coerces exactly as clean_float does.
    var amountSold := CleanFloat(o.totalAmountSold);
    Record(
      o.accession,
      Company(
        CleanValue(i.entityName),
        Address(CleanValue(i.street1), CleanValue(i.street2), CleanValue(i.city),
                CleanValue(i.stateOrCountry), CleanValue(i.zipCode), CleanValue(i.phone)),
        CleanValue(i.entityType), yearInc, CleanValue(o.industryGroupType)),
      Funding(
        OptionToJson(CleanFloat(o.totalOfferingAmount)), OptionToJson(amountSold),
        CleanFloat(o.totalRemaining), CleanInt(o.investors), CleanValue(o.saleDate),
        StageOf(amountSold)),
      Filing(filingDate, CleanValue(row.SubmissionType()), quarter),
      CompanyAge(YearsSinceIncorporation(yearInc, clock.year), age.0, age.1),
      PersonsOf(PeopleOf(o.accession, people)),
      RecordMeta(quarter, clock.stamp),
      None)
  }

  method BuildRecord(row: JoinedRow, people: seq<PersonRow>, quarter: string, clock: Clock, parse: DateParser)
    returns (rec: Record)
    ensures rec == RecordOf(row, people, quarter, clock, parse)
  {
    var accession := row.offering.accession;
    var relatedPersons := BuildRelatedPersons(accession, people);
    var yearInc := CleanInt(row.issuer.yearOfInc);
    var yearsSinceInc := if yearInc.Some? && yearInc.value != 0 then Some(clock.year - yearInc.value) else None;
    var filingDate := CleanValue(row.FilingDate());
    var months, recency := ComputeFundingAge(filingDate, parse, clock.today);
    var amountSold := CleanFloat(row.offering.totalAmountSold);
    var stage: Option<Stage> := None;
    if amountSold.Some? && amountSold.value != 0.0 {
      var a := amountSold.value;
      if a < 2000000.0 {
        stage := Some(PreSeed);
      } else if a < 5000000.0 {
        stage := Some(Seed);
      } else if a < 15000000.0 {
        stage := Some(SeriesA);
      } else if a < 40000000.0 {
        stage := Some(SeriesB);
      } else if a < 100000000.0 {
        stage := Some(SeriesC);
      } else {
        stage := Some(SeriesDPlus);
      }
    }
    var i, o := row.issuer, row.offering;
    rec := Record(
      accession,
      Company(
        CleanValue(i.entityName),
        Address(CleanValue(i.street1), CleanValue(i.street2), CleanValue(i.city),
                CleanValue(i.stateOrCountry), CleanValue(i.zipCode), CleanValue(i.phone)),
        CleanValue(i.entityType), yearInc, CleanValue(o.industryGroupType)),
      Funding(
        OptionToJson(CleanFloat(o.totalOfferingAmount)), OptionToJson(amountSold),
        CleanFloat(o.totalRemaining), CleanInt(o.investors), CleanValue(o.saleDate), stage),
      Filing(filingDate, CleanValue(row.SubmissionType()), quarter),
      CompanyAge(yearsSinceInc, months, recency),
      relatedPersons,
      RecordMeta(quarter, clock.stamp),
      None);
  }

  // ---------------------------------------------------------------------
  // One quarter

  /** A directory entry of the data directory: its name, whether it is a
      directory, the file names it holds, and the tables in them. */
  datatype QuarterDir = QuarterDir(name: string, isDir: bool, files: set<string>, tables: Tables)

  datatype QuarterOutput = QuarterOutput(
    quarter: string, generatedAt: string, totalCompanies: nat, totalExecutives: nat,
    companies: seq<Record>)

  function MissingFiles(files: set<string>): (r: seq<string>)
    ensures forall f :: f in r <==> f in RequiredFiles && f !in files
  {
    Filter(RequiredFiles, f => f !in files)
  }

  function RecordsOf(rows: seq<JoinedRow>, people: seq<PersonRow>, quarter: string, clock: Clock, parse: DateParser): (r: seq<Record>)
    ensures |r| == |rows|
    ensures forall k :: 0 <= k < |rows| ==> r[k] == RecordOf(rows[k], people, quarter, clock, parse)
  {
    seq(|rows|, k requires 0 <= k < |rows| => RecordOf(rows[k], people, quarter, clock, parse))
  }

  /** Every record of a quarter carries the quarter's name twice, and its
      accession number is that of the offering it was built from. */
  lemma RecordsOfLabelled(rows: seq<JoinedRow>, people: seq<PersonRow>, quarter: string, clock: Clock, parse: DateParser)
    ensures forall r :: r in RecordsOf(rows, people, quarter, clock, parse) ==>
      r.filing.quarter == quarter && r.metadata.sourceQuarter == quarter && r.metadata.processedDate == clock.stamp
    ensures forall k :: 0 <= k < |rows| ==>
      RecordsOf(rows, people, quarter, clock, parse)[k].accessionNumber == rows[k].offering.accession
  {
  }

  /** The loop over the joined rows. */
  method BuildRecords(rows: seq<JoinedRow>, people: seq<PersonRow>, quarter: string, clock: Clock, parse: DateParser)
    returns (records: seq<Record>)
    ensures records == RecordsOf(rows, people, quarter, clock, parse)
  {
    records := [];
    var k := 0;
    while k < |rows|
      invariant 0 <= k <= |rows|
      invariant |records| == k
      invariant forall j :: 0 <= j < k ==> records[j] == RecordOf(rows[j], people, quarter, clock, parse)
    {
      var record := BuildRecord(rows[k], people, quarter, clock, parse);
      records := records + [record];
      k := k + 1;
    }
  }

  /** All four TSV files are present. */
  predicate HasRequiredFiles(d: QuarterDir) {
    forall i :: 0 <= i < |RequiredFiles| ==> RequiredFiles[i] in d.files
  }

  /** What `process_single_quarter` returns for a directory. */
  function QuarterOf(dir: QuarterDir, clock: Clock, parse: DateParser): Option<QuarterOutput> {
    if !HasRequiredFiles(dir) then None
    else
      var t := dir.tables;
      var records := RecordsOf(JoinTables(t.offerings, t.issuers, t.submissions), t.people, dir.name, clock, parse);
      Some(QuarterOutput(dir.name, clock.stamp, |records|, SumOf(records, PersonCount), records))
  }

  /** A quarter is skipped exactly when one of the four files is missing;
      otherwise its output holds one record per joined row, every record is
      labelled with the quarter, and the metadata counts the records and
      their related persons. */
  lemma QuarterOfSpec(dir: QuarterDir, clock: Clock, parse: DateParser)
    ensures QuarterOf(dir, clock, parse).None? <==> exists f :: f in RequiredFiles && f !in dir.files
    ensures QuarterOf(dir, clock, parse).Some? ==>
      var out := QuarterOf(dir, clock, parse).value;
      var t := dir.tables;
      && out.quarter == dir.name
      && |out.companies| == |JoinTables(t.offerings, t.issuers, t.submissions)| == out.totalCompanies
      && out.totalExecutives == SumOf(out.companies, PersonCount)
      && (forall r :: r in out.companies ==> r.filing.quarter == dir.name && r.metadata.sourceQuarter == dir.name)
  {
    var t := dir.tables;
    RecordsOfLabelled(JoinTables(t.offerings, t.issuers, t.submissions), t.people, dir.name, clock, parse);
  }

  /** `process_single_quarter`. */
  method ProcessQuarter(dir: QuarterDir, clock: Clock, parse: DateParser) returns (out: Option<QuarterOutput>)
    ensures out == QuarterOf(dir, clock, parse)
  {
    var missing := MissingFiles(dir.files);
    if missing != [] {
      assert missing[0] in missing;
      return None;
    }
    var t := dir.tables;
    var rows := JoinTables(t.offerings, t.issuers, t.submissions);
    var startups := BuildRecords(rows, t.people, dir.name, clock, parse);
    out := Some(QuarterOutput(dir.name, clock.stamp, |startups|, SumOf(startups, PersonCount), startups));
  }

  // ---------------------------------------------------------------------
  // All quarters

  /** A directory whose name contains 'Q' or 'q'. */
  predicate IsQuarterDir(d: QuarterDir) {
    d.isDir && (Contains(d.name, 'Q') || Contains(d.name, 'q'))
  }

  /** The names of the first `n` directories whose `HasRequiredFiles` is
      `complete`, in order. */
  function NamesWhere(dirs: seq<QuarterDir>, n: nat, complete: bool): (r: seq<string>)
    requires n <= |dirs|
    ensures |r| <= n
  {
    if n == 0 then []
    else
      var d := dirs[n - 1];
      NamesWhere(dirs, n - 1, complete) + (if HasRequiredFiles(d) == complete then [d.name] else [])
  }

  /** Every directory lands on exactly one side: its name is on the side
      its files decide, and the two sides together have one entry per
      directory. */
  lemma {:induction false} NamesWhereSpec(dirs: seq<QuarterDir>, n: nat)
    requires n <= |dirs|
    ensures |NamesWhere(dirs, n, true)| + |NamesWhere(dirs, n, false)| == n
    ensures forall i :: 0 <= i < n ==> dirs[i].name in NamesWhere(dirs, n, HasRequiredFiles(dirs[i]))
  {
    if n > 0 {
      NamesWhereSpec(dirs, n - 1);
      forall i | 0 <= i < n ensures dirs[i].name in NamesWhere(dirs, n, HasRequiredFiles(dirs[i])) {
        if i < n - 1 {
          assert dirs[i].name in NamesWhere(dirs, n - 1, HasRequiredFiles(dirs[i]));
        }
      }
    }
  }

  /** A name on either side belongs to one of the directories with that
      outcome. */
  lemma {:induction false} NamesWhereMembers(dirs: seq<QuarterDir>, n: nat, complete: bool, name: string)
    requires n <= |dirs|
    ensures name in NamesWhere(dirs, n, complete) ==>
      exists i :: 0 <= i < n && dirs[i].name == name && HasRequiredFiles(dirs[i]) == complete
  {
    if n > 0 {
      NamesWhereMembers(dirs, n - 1, complete, name);
    }
  }

  /** The quarter directories of the listing, in listing order. */
  method SelectQuarterDirs(listing: seq<QuarterDir>) returns (quarterDirs: seq<QuarterDir>)
    ensures quarterDirs == Filter(listing, IsQuarterDir)
  {
    quarterDirs := [];
    var k := 0;
    while k < |listing|
      invariant 0 <= k <= |listing|
      invariant quarterDirs == Filter(listing[..k], IsQuarterDir)
    {
      FilterPrefix(listing, k + 1, IsQuarterDir);
      if listing[k].isDir && (Contains(listing[k].name, 'Q') || Contains(listing[k].name, 'q')) {
        quarterDirs := quarterDirs + [listing[k]];
      }
      k := k + 1;
    }
    assert listing[..k] == listing;
  }

  /** The loop of `process_all_quarters_individually`: each quarter
      directory, in order, lands in `processed` (its output beside it) or
      in `failed`. */
  method ProcessQuarterDirs(quarterDirs: seq<QuarterDir>, clock: Clock, parse: DateParser)
    returns (processed: seq<string>, failed: seq<string>, outputs: seq<QuarterOutput>)
    ensures processed == NamesWhere(quarterDirs, |quarterDirs|, true)
    ensures failed == NamesWhere(quarterDirs, |quarterDirs|, false)
    ensures |outputs| == |processed|
    ensures forall k :: 0 <= k < |outputs| ==> outputs[k].quarter == processed[k]
  {
    processed, failed, outputs := [], [], [];
    for k := 0 to |quarterDirs|
      invariant processed == NamesWhere(quarterDirs, k, true)
      invariant failed == NamesWhere(quarterDirs, k, false)
      invariant |outputs| == |processed|
      invariant forall j :: 0 <= j < |outputs| ==> outputs[j].quarter == processed[j]
    {
      var d := quarterDirs[k];
      var result := ProcessListed(d, clock, parse);
      if result.Some? {
        processed := processed + [d.name];
        outputs := outputs + [result.value];
      } else {
        failed := failed + [d.name];
      }
    }
  }

  /** `process_single_quarter` as the loop sees it: it succeeds exactly
      when the four files are there, with an output labelled with the
      quarter. */
  method ProcessListed(d: QuarterDir, clock: Clock, parse: DateParser) returns (result: Option<QuarterOutput>)
    ensures result.Some? <==> HasRequiredFiles(d)
    ensures result.Some? ==> result.value.quarter == d.name
  {
    result := ProcessQuarter(d, clock, parse);
  }

  function DirName(d: QuarterDir): string { d.name }

  /** `process_all_quarters_individually`: the directory listing in
      `sorted()` order, its quarter directories processed in that order;
      with none, nothing is processed. */
  method ProcessAllQuarters(listing: seq<QuarterDir>, clock: Clock, parse: DateParser)
    returns (processed: seq<string>, failed: seq<string>, outputs: seq<QuarterOutput>)
    ensures var quarterDirs := Filter(SortByName(listing, DirName), IsQuarterDir);
      && processed == NamesWhere(quarterDirs, |quarterDirs|, true)
      && failed == NamesWhere(quarterDirs, |quarterDirs|, false)
      && |outputs| == |processed|
      && forall k :: 0 <= k < |outputs| ==> outputs[k].quarter == processed[k]
  {
    var items := SortByName(listing, DirName);
    var quarterDirs := SelectQuarterDirs(items);
    if quarterDirs == [] {
      return [], [], [];
    }
    processed, failed, outputs := ProcessQuarterDirs(quarterDirs, clock, parse);
  }
}
