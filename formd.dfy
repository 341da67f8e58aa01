/**
 * `sec_form_d.py`: the single-directory converter. It keeps offerings of
 * at least $5,000,000 sold in eight health-care and technology industry
 * groups, joins them with their issuers, keeps issuers in Massachusetts,
 * California or New York, left-joins the submission, and builds one
 * startup document per resulting row.
 */
module FormD {
  import opened Common
  import opened Records

  const RequiredFiles: seq<string> := ["FORMDSUBMISSION.tsv", "ISSUERS.tsv", "OFFERING.tsv", "RELATEDPERSONS.tsv"]

  const TargetStates: seq<string> := ["MA", "CA", "NY"]
  const MinFunding: real := 5000000.0
  const TargetIndustries: seq<string> := [
    "Biotechnology",
    "Pharmaceuticals",
    "Pharmaceutical",
    "Medical Devices and Equipment",
    "Other Health Care",
    "Computers and Computer Equipment",
    "Computer Software and Services",
    "Internet and Information Services"
  ]

  // ---------------------------------------------------------------------
  // Required files

  function Present(files: set<string>): string -> bool {
    f => f in files
  }

  function Absent(files: set<string>): string -> bool {
    f => f !in files
  }

  /** The loop of `check_required_files`, over any list of names: each
      name goes to `found` or to `missing`, and the check passes when
      nothing is missing. */
  method SplitByPresence(names: seq<string>, files: set<string>) returns (ok: bool, missing: seq<string>, found: seq<string>)
    ensures missing == Filter(names, Absent(files))
    ensures found == Filter(names, Present(files))
    ensures ok <==> missing == []
    ensures ok <==> forall i :: 0 <= i < |names| ==> names[i] in files
  {
    missing, found := [], [];
    for k := 0 to |names|
      invariant missing == Filter(names[..k], Absent(files))
      invariant found == Filter(names[..k], Present(files))
    {
      var name := names[k];
      FilterPrefix(names, k + 1, Absent(files));
      FilterPrefix(names, k + 1, Present(files));
      if name in files {
        found := found + [name];
      } else {
        missing := missing + [name];
      }
    }
    assert names[..|names|] == names;
    ok := missing == [];
    NothingMissing(names, files);
  }

  lemma NothingMissing(names: seq<string>, files: set<string>)
    ensures Filter(names, Absent(files)) == [] <==> forall i :: 0 <= i < |names| ==> names[i] in files
  {
    var missing := Filter(names, Absent(files));
    if missing != [] {
      assert missing[0] in missing;
    } else {
      forall i | 0 <= i < |names| ensures names[i] in files {
        assert names[i] !in missing;
      }
    }
  }

  /** `check_required_files`. */
  method CheckRequiredFiles(files: set<string>) returns (ok: bool, missing: seq<string>, found: seq<string>)
    ensures missing == Filter(RequiredFiles, Absent(files))
    ensures found == Filter(RequiredFiles, Present(files))
    ensures ok <==> missing == []
    ensures ok <==> forall i :: 0 <= i < |RequiredFiles| ==> RequiredFiles[i] in files
  {
    ok, missing, found := SplitByPresence(RequiredFiles, files);
  }

  /** Each name is reported exactly once, as found or as missing. */
  lemma {:induction false} SplitSizes(names: seq<string>, files: set<string>)
    ensures |Filter(names, Absent(files))| + |Filter(names, Present(files))| == |names|
  {
    if names != [] {
      SplitSizes(names[1..], files);
    }
  }

  // ---------------------------------------------------------------------
  // Filters

  /** `TOTALAMOUNTSOLD >= MIN_FUNDING` after `to_numeric(errors='coerce')`;
      a value that does not convert is NaN and fails the comparison. */
  predicate IsFunded(o: OfferingRow) {
    CleanFloat(o.totalAmountSold).Some? && CleanFloat(o.totalAmountSold).value >= MinFunding
  }

  /** `INDUSTRYGROUPTYPE.isin(TARGET_INDUSTRIES)` on the raw cell. */
  predicate InTargetIndustry(o: OfferingRow) {
    o.industryGroupType.Text? && o.industryGroupType.s in TargetIndustries
  }

  predicate IsTargetOffering(o: OfferingRow) {
    IsFunded(o) && InTargetIndustry(o)
  }

  /** `STATEORCOUNTRY.isin(TARGET_STATES)` on the raw issuer cell. */
  predicate InTargetState(r: JoinedRow) {
    r.issuer.stateOrCountry.Text? && r.issuer.stateOrCountry.s in TargetStates
  }

  /** The rows the document loop walks: target offerings, inner-joined with
      issuers, restricted to target states, left-joined with submissions.
      The state test looks only at the issuer, and the left join expands
      each offering/issuer pair into adjacent rows with that issuer, so
      filtering after the left join keeps the same rows in the same order. */
  function TargetRows(t: Tables): seq<JoinedRow> {
    Filter(JoinTables(Filter(t.offerings, IsTargetOffering), t.issuers, t.submissions), InTargetState)
  }

  /** A row is a target row exactly when it is a row of the full join whose
      offering passes both offering filters and whose issuer is in a
      target state. */
  lemma TargetRowsSpec(t: Tables, r: JoinedRow)
    ensures r in TargetRows(t) <==>
      JoinedFrom(r, t.offerings, t.issuers, t.submissions)
      && IsFunded(r.offering) && InTargetIndustry(r.offering) && InTargetState(r)
  {
    JoinMembers(Filter(t.offerings, IsTargetOffering), t.issuers, t.submissions, r);
  }

  // ---------------------------------------------------------------------
  // Documents

  datatype StartupFunding = StartupFunding(
    totalOfferingAmount: Option<real>, totalAmountSold: Option<real>, totalRemaining: Option<real>,
    numberOfInvestors: Option<int>, dateOfFirstSale: Option<string>)

  datatype StartupFiling = StartupFiling(dateFiled: Option<string>, submissionType: Option<string>, isAmendment: bool)

  /** `added_to_database` and `source_directory`; the prediction-score
      placeholders are always null and are not modelled. */
  datatype StartupMeta = StartupMeta(addedToDatabase: string, sourceDirectory: string)

  datatype Startup = Startup(
    accessionNumber: string, company: Company, funding: StartupFunding, filing: StartupFiling,
    relatedPersons: seq<Person>, metadata: StartupMeta)

  datatype StartupsOutput = StartupsOutput(
    generatedAt: string, sourceDirectory: string,
    states: seq<string>, minFunding: real, industries: seq<string>,
    totalStartups: nat, totalExecutives: nat, startups: seq<Startup>)

  /** `v == 'Y'` for a cleaned cell. */
  predicate IsYes(v: Option<string>) {
    v.Some? && |v.value| == 1 && v.value[0] == 'Y'
  }

  function StartupOf(row: JoinedRow, people: seq<PersonRow>, directory: string, stamp: string): Startup {
    var o, i := row.offering, row.issuer;
    Startup(
      o.accession,
      Company(
        CleanValue(i.entityName),
        Address(CleanValue(i.street1), CleanValue(i.street2), CleanValue(i.city),
                CleanValue(i.stateOrCountry), CleanValue(i.zipCode), CleanValue(i.phone)),
        CleanValue(i.entityType), CleanInt(i.yearOfInc), CleanValue(o.industryGroupType)),
      StartupFunding(
        CleanFloat(o.totalOfferingAmount), CleanFloat(o.totalAmountSold), CleanFloat(o.totalRemaining),
        CleanInt(o.investors), CleanValue(o.saleDate)),
      StartupFiling(CleanValue(row.FilingDate()), CleanValue(row.SubmissionType()), IsYes(CleanValue(o.isAmendment))),
      PersonsOf(PeopleOf(o.accession, people)),
      StartupMeta(stamp, directory))
  }

  function StartupsOf(rows: seq<JoinedRow>, people: seq<PersonRow>, directory: string, stamp: string): (r: seq<Startup>)
    ensures |r| == |rows|
    ensures forall k :: 0 <= k < |rows| ==> r[k] == StartupOf(rows[k], people, directory, stamp)
  {
    seq(|rows|, k requires 0 <= k < |rows| => StartupOf(rows[k], people, directory, stamp))
  }

  function StartupPersonCount(s: Startup): nat { |s.relatedPersons| }

  /** No target industry label or state code has surrounding whitespace. */
  lemma TargetLabelsStripped(s: string)
    requires s in TargetIndustries || s in TargetStates
    ensures s != "" && NoEdgeSpaces(s)
  {
    assert forall i :: 0 <= i < |TargetIndustries| ==> TargetIndustries[i] != "" && NoEdgeSpaces(TargetIndustries[i]);
    assert forall i :: 0 <= i < |TargetStates| ==> TargetStates[i] != "" && NoEdgeSpaces(TargetStates[i]);
  }

  /** The document built from a target row meets the filters: at least
      $5,000,000 sold, a target industry and a target state, as the
      document shows them after cleaning. */
  lemma StartupMeetsFilters(t: Tables, row: JoinedRow, directory: string, stamp: string)
    requires row in TargetRows(t)
    ensures var s := StartupOf(row, t.people, directory, stamp);
      && s.funding.totalAmountSold.Some? && s.funding.totalAmountSold.value >= MinFunding
      && s.company.industry.Some? && s.company.industry.value in TargetIndustries
      && s.company.address.state.Some? && s.company.address.state.value in TargetStates
  {
    TargetRowsSpec(t, row);
    TargetLabelsStripped(row.offering.industryGroupType.s);
    CleanValueUnchanged(row.offering.industryGroupType);
    TargetLabelsStripped(row.issuer.stateOrCountry.s);
    CleanValueUnchanged(row.issuer.stateOrCountry);
  }

  /** Every document of the output meets the filters. */
  lemma StartupsMeetFilters(t: Tables, directory: string, stamp: string)
    ensures forall k :: 0 <= k < |TargetRows(t)| ==>
      var s := StartupsOf(TargetRows(t), t.people, directory, stamp)[k];
      && s.funding.totalAmountSold.Some? && s.funding.totalAmountSold.value >= MinFunding
      && s.company.industry.Some? && s.company.industry.value in TargetIndustries
      && s.company.address.state.Some? && s.company.address.state.value in TargetStates
  {
    var rows := TargetRows(t);
    forall k | 0 <= k < |rows|
      ensures var s := StartupsOf(rows, t.people, directory, stamp)[k];
        && s.funding.totalAmountSold.Some? && s.funding.totalAmountSold.value >= MinFunding
        && s.company.industry.Some? && s.company.industry.value in TargetIndustries
        && s.company.address.state.Some? && s.company.address.state.value in TargetStates
    {
      assert rows[k] in rows;
      StartupMeetsFilters(t, rows[k], directory, stamp);
    }
  }

  method BuildStartup(row: JoinedRow, people: seq<PersonRow>, directory: string, stamp: string)
    returns (startup: Startup)
    ensures startup == StartupOf(row, people, directory, stamp)
  {
    var accession := row.offering.accession;
    var relatedPersons := BuildRelatedPersons(accession, people);
    var i, o := row.issuer, row.offering;
    startup := Startup(
      accession,
      Company(
        CleanValue(i.entityName),
        Address(CleanValue(i.street1), CleanValue(i.street2), CleanValue(i.city),
                CleanValue(i.stateOrCountry), CleanValue(i.zipCode), CleanValue(i.phone)),
        CleanValue(i.entityType), CleanInt(i.yearOfInc), CleanValue(o.industryGroupType)),
      StartupFunding(
        CleanFloat(o.totalOfferingAmount), CleanFloat(o.totalAmountSold), CleanFloat(o.totalRemaining),
        CleanInt(o.investors), CleanValue(o.saleDate)),
      StartupFiling(CleanValue(row.FilingDate()), CleanValue(row.SubmissionType()), IsYes(CleanValue(o.isAmendment))),
      relatedPersons,
      StartupMeta(stamp, directory));
  }

  /** The document loop over the target rows. */
  method BuildStartups(rows: seq<JoinedRow>, people: seq<PersonRow>, directory: string, stamp: string)
    returns (startups: seq<Startup>)
    ensures startups == StartupsOf(rows, people, directory, stamp)
  {
    startups := [];
    var k := 0;
    while k < |rows|
      invariant 0 <= k <= |rows|
      invariant |startups| == k
      invariant forall j :: 0 <= j < k ==> startups[j] == StartupOf(rows[j], people, directory, stamp)
    {
      var startup := BuildStartup(rows[k], people, directory, stamp);
      startups := startups + [startup];
      k := k + 1;
    }
  }

  /** The data directory as the converter sees it: whether it exists, its
      absolute path, the names of the files in it and their tables. */
  datatype DataDir = DataDir(exists_: bool, path: string, files: set<string>, tables: Tables)

  predicate HasRequiredFiles(dir: DataDir) {
    forall i :: 0 <= i < |RequiredFiles| ==> RequiredFiles[i] in dir.files
  }

  /** The output document for a directory that has all four files. */
  function DocumentOf(t: Tables, path: string, stamp: string): StartupsOutput {
    var startups := StartupsOf(TargetRows(t), t.people, path, stamp);
    StartupsOutput(stamp, path, TargetStates, MinFunding, TargetIndustries,
      |startups|, SumOf(startups, StartupPersonCount), startups)
  }

  /** What `create_startups_json` returns. */
  function OutputOf(dir: DataDir, stamp: string): Option<StartupsOutput> {
    if !dir.exists_ || !HasRequiredFiles(dir) then None
    else Some(DocumentOf(dir.tables, dir.path, stamp))
  }

  /** No output for a missing directory or a missing file; otherwise one
      document per target row, counted in the metadata together with their
      related persons. */
  lemma OutputOfSpec(dir: DataDir, stamp: string)
    ensures OutputOf(dir, stamp).None? <==>
      !dir.exists_ || exists f :: f in RequiredFiles && f !in dir.files
    ensures OutputOf(dir, stamp).Some? ==>
      var out := OutputOf(dir, stamp).value;
      && out.totalStartups == |out.startups| == |TargetRows(dir.tables)|
      && out.totalExecutives == SumOf(out.startups, StartupPersonCount)
      && out.sourceDirectory == dir.path
  {
  }

  /** Steps 1 to 4 of `create_startups_json`: filter, join, build. */
  method BuildDocument(t: Tables, path: string, stamp: string) returns (out: StartupsOutput)
    ensures out == DocumentOf(t, path, stamp)
  {
    var funded := Filter(t.offerings, IsTargetOffering);
    var fundedIssuers := JoinTables(funded, t.issuers, t.submissions);
    var targetCompanies := Filter(fundedIssuers, InTargetState);
    var startups := BuildStartups(targetCompanies, t.people, path, stamp);
    out := StartupsOutput(stamp, path, TargetStates, MinFunding, TargetIndustries,
      |startups|, SumOf(startups, StartupPersonCount), startups);
  }

  /** `create_startups_json`. */
  method CreateStartupsJson(dir: DataDir, stamp: string) returns (out: Option<StartupsOutput>)
    ensures out == OutputOf(dir, stamp)
  {
    if !dir.exists_ {
      return None;
    }
    var ok, missing, found := CheckRequiredFiles(dir.files);
    if !ok {
      return None;
    }
    var document := BuildDocument(dir.tables, dir.path, stamp);
    out := Some(document);
  }
}
