/**
 * The data shared by the record builders of `sec_all_quarters.py` and
 * `sec_form_d.py` and by every later stage: raw TSV cells and rows, the
 * null-coercing cell cleaners (`clean_value`, `clean_float`, `clean_int`,
 * defined identically in both builders), the offering/issuer/submission
 * joins, related-person construction, and the nested company record that
 * the quarterly files carry from stage to stage.
 */
module Records {
  import opened Common

  // ---------------------------------------------------------------------
  // Raw cells

  /** One TSV cell as pandas hands it over: missing (NaN), text, or a
      number together with the text Python's `str()` renders it as. */
  datatype Cell = NaN | Text(s: string) | Number(x: real, shown: string)

  /** A value in a JSON document written by an earlier stage; `JAbsent`
      stands for a key that is not there at all. */
  datatype Json = JAbsent | JNull | JNumber(x: real) | JString(s: string) | JBool(b: bool) | JOther

  function OptionToJson(o: Option<real>): (j: Json)
    ensures o.None? ==> j == JNull
    ensures o.Some? ==> j == JNumber(o.value)
  {
    if o.None? then JNull else JNumber(o.value)
  }

  // ---------------------------------------------------------------------
  // Numbers from text: the part of Python's `float()` the model covers,
  // an optional sign, digits and an optional fraction, around whitespace.

  predicate AllDigits(s: string) {
    forall i :: 0 <= i < |s| ==> IsDigit(s[i])
  }

  function DigitsValue(s: string): (n: nat)
    requires AllDigits(s)
  {
    if s == [] then 0 else 10 * DigitsValue(s[..|s| - 1]) + (s[|s| - 1] as int - '0' as int)
  }

  function Pow10(k: nat): (p: nat)
    ensures p >= 1
  {
    if k == 0 then 1 else 10 * Pow10(k - 1)
  }

  function IndexOfDot(s: string): (i: nat)
    ensures i <= |s|
    ensures i < |s| ==> s[i] == '.'
    ensures forall j :: 0 <= j < i ==> s[j] != '.'
  {
    if s == [] then 0 else if s[0] == '.' then 0 else 1 + IndexOfDot(s[1..])
  }

  function ParseUnsigned(s: string): (r: Option<real>)
    ensures r.Some? ==> r.value >= 0.0
  {
    var d := IndexOfDot(s);
    var whole := s[..d];
    var frac := if d < |s| then s[d + 1..] else "";
    if whole == "" && frac == "" then None
    else if !AllDigits(whole) || !AllDigits(frac) then None
    else Some(DecimalValue(whole, frac))
  }

  /** The value of `whole.frac`. */
  function DecimalValue(whole: string, frac: string): (v: real)
    requires AllDigits(whole) && AllDigits(frac)
    ensures v >= 0.0
  {
    DigitsValue(whole) as real + DigitsValue(frac) as real / Pow10(|frac|) as real
  }

  /** The shapes `ParseUnsigned` accepts: digits, or digits, a dot and
      digits with at least one digit on either side of the dot. */
  predicate DecimalShape(s: string) {
    || (s != [] && AllDigits(s))
    || exists k :: 0 <= k < |s| && s[k] == '.' && |s| > 1 && AllDigits(s[..k]) && AllDigits(s[k + 1..])
  }

  /** A digit string with no dot parses to its decimal value. */
  lemma ParseWhole(w: string)
    requires w != [] && AllDigits(w)
    ensures ParseUnsigned(w) == Some(DigitsValue(w) as real)
  {
    assert forall j :: 0 <= j < |w| ==> w[j] != '.';
    assert w[..|w|] == w;
  }

  /** `w.f` parses to the whole part plus the fraction scaled by the
      number of its digits. */
  lemma ParseDecimal(w: string, f: string)
    requires AllDigits(w) && AllDigits(f) && (w != [] || f != [])
    ensures ParseUnsigned(w + "." + f)
      == Some(DecimalValue(w, f))
  {
    var s := w + "." + f;
    assert s[..|w|] == w;
    assert s[|w| + 1..] == f;
    DotAt(s, |w|);
    ParseAtDot(s, w, f);
  }

  lemma ParseAtDot(s: string, w: string, f: string)
    requires AllDigits(w) && AllDigits(f) && (w != [] || f != [])
    requires IndexOfDot(s) == |w| < |s| && s[..|w|] == w && s[|w| + 1..] == f
    ensures ParseUnsigned(s) == Some(DecimalValue(w, f))
  {
  }

  /** A dot with only digits before it is the first dot. */
  lemma DotAt(s: string, k: nat)
    requires k < |s| && s[k] == '.' && AllDigits(s[..k])
    ensures IndexOfDot(s) == k
  {
    assert forall j :: 0 <= j < k ==> s[j] == s[..k][j];
  }

  /** A string parses exactly when it has one of the accepted shapes. */
  lemma ParseUnsignedShape(s: string)
    ensures ParseUnsigned(s).Some? <==> DecimalShape(s)
  {
    var d := IndexOfDot(s);
    if ParseUnsigned(s).Some? {
      if d == |s| {
        assert s[..d] == s;
      } else {
        assert s[d] == '.' && AllDigits(s[..d]) && AllDigits(s[d + 1..]);
      }
    } else if DecimalShape(s) {
      if s != [] && AllDigits(s) {
        ParseWhole(s);
      } else {
        var k :| 0 <= k < |s| && s[k] == '.' && |s| > 1 && AllDigits(s[..k]) && AllDigits(s[k + 1..]);
        DotAt(s, k);
      }
    }
  }

  /** `float(s)`; `None` where Python raises `ValueError`. */
  function ParseFloat(s: string): (r: Option<real>) {
    var t := Strip(s);
    if t != [] && t[0] == '-' then
      match ParseUnsigned(t[1..])
      case None => None
      case Some(v) => Some(-v)
    else if t != [] && t[0] == '+' then ParseUnsigned(t[1..])
    else ParseUnsigned(t)
  }

  /** `int(x)` on a float: truncation toward zero. */
  function Trunc(x: real): (r: int)
    ensures 0.0 <= x ==> 0 <= r && r as real <= x < r as real + 1.0
    ensures x < 0.0 ==> r <= 0 && r as real - 1.0 < x <= r as real
  {
    if x >= 0.0 then x.Floor else -((-x).Floor)
  }

  // ---------------------------------------------------------------------
  // Cell cleaners

  /** Python truthiness of a cell: NaN is handled first, `""` and zero are
      falsy. */
  predicate CellTruthy(c: Cell) {
    match c
    case NaN => true
    case Text(s) => s != ""
    case Number(x, _) => x != 0.0
  }

  /** `clean_value`: NaN and falsy cells give `None`; everything else is
      the stripped text form, so a whitespace-only cell gives `""`. */
  function CleanValue(c: Cell): (r: Option<string>)
    ensures r.None? <==> c.NaN? || !CellTruthy(c)
    ensures r.Some? ==> NoEdgeSpaces(r.value)
    ensures c.Text? && c.s != "" ==> r == Some(Strip(c.s))
    ensures c.Number? && c.x != 0.0 ==> r == Some(Strip(c.shown))
  {
    match c
    case NaN => None
    case Text(s) => if s != "" then Some(Strip(s)) else None
    case Number(x, shown) => if x != 0.0 then Some(Strip(shown)) else None
  }

  /** `clean_float`: NaN and unparsable text give `None`. */
  function CleanFloat(c: Cell): (r: Option<real>)
    ensures c.NaN? ==> r.None?
    ensures c.Number? ==> r == Some(c.x)
    ensures c.Text? ==> r == ParseFloat(c.s)
  {
    match c
    case NaN => None
    case Number(x, _) => Some(x)
    case Text(s) => ParseFloat(s)
  }

  /** `clean_int`: `int(float(v))`, truncating toward zero. */
  function CleanInt(c: Cell): (r: Option<int>)
    ensures r.None? <==> CleanFloat(c).None?
    ensures r.Some? ==> r.value == Trunc(CleanFloat(c).value)
  {
    match CleanFloat(c)
    case None => None
    case Some(x) => Some(Trunc(x))
  }

  /** Text that is non-empty and has no surrounding whitespace comes out
      of `clean_value` unchanged. */
  lemma CleanValueUnchanged(c: Cell)
    requires c.Text? && c.s != "" && NoEdgeSpaces(c.s)
    ensures CleanValue(c) == Some(c.s)
  {
    StripNoEdgeSpaces(c.s);
  }

  lemma CleanIntTruncates(c: Cell, x: real)
    requires CleanFloat(c) == Some(x)
    ensures CleanInt(c).Some?
    ensures -1.0 < x - CleanInt(c).value as real < 1.0
    ensures CleanInt(c).value == 0 || (CleanInt(c).value > 0 <==> x > 0.0)
  {
  }

  // ---------------------------------------------------------------------
  // Raw rows of the four TSV files

  datatype SubmissionRow = SubmissionRow(accession: string, filingDate: Cell, submissionType: Cell)

  datatype IssuerRow = IssuerRow(
    accession: string, entityName: Cell, street1: Cell, street2: Cell, city: Cell,
    stateOrCountry: Cell, zipCode: Cell, phone: Cell, entityType: Cell, yearOfInc: Cell)

  datatype OfferingRow = OfferingRow(
    accession: string, industryGroupType: Cell, totalOfferingAmount: Cell,
    totalAmountSold: Cell, totalRemaining: Cell, investors: Cell, saleDate: Cell,
    isAmendment: Cell)

  datatype PersonRow = PersonRow(
    accession: string, firstName: Cell, middleName: Cell, lastName: Cell,
    relationship1: Cell, relationship2: Cell, relationship3: Cell,
    city: Cell, stateOrCountry: Cell)

  /** One row of `offerings.merge(issuers, how='inner').merge(submissions,
      how='left')`; a missing submission leaves its columns NaN. */
  datatype JoinedRow = JoinedRow(offering: OfferingRow, issuer: IssuerRow, submission: Option<SubmissionRow>) {
    function FilingDate(): Cell { if submission.None? then NaN else submission.value.filingDate }
    function SubmissionType(): Cell { if submission.None? then NaN else submission.value.submissionType }
  }

  // ---------------------------------------------------------------------
  // Joins on the accession number, in the order pandas produces them:
  // left rows in order, and for each, its matches in right-table order.

  function IssuersOf(acc: string, issuers: seq<IssuerRow>): (r: seq<IssuerRow>)
    ensures forall i :: i in r <==> i in issuers && i.accession == acc
  {
    if issuers == [] then []
    else (if issuers[0].accession == acc then [issuers[0]] else []) + IssuersOf(acc, issuers[1..])
  }

  function SubmissionsOf(acc: string, submissions: seq<SubmissionRow>): (r: seq<SubmissionRow>)
    ensures forall s :: s in r <==> s in submissions && s.accession == acc
  {
    if submissions == [] then []
    else (if submissions[0].accession == acc then [submissions[0]] else []) + SubmissionsOf(acc, submissions[1..])
  }

  /** The left join of one offering-and-issuer pair with the submissions. */
  function WithSubmissions(o: OfferingRow, i: IssuerRow, subs: seq<SubmissionRow>): seq<JoinedRow> {
    if subs == [] then [JoinedRow(o, i, None)]
    else seq(|subs|, k requires 0 <= k < |subs| => JoinedRow(o, i, Some(subs[k])))
  }

  function JoinIssuers(o: OfferingRow, matches: seq<IssuerRow>, submissions: seq<SubmissionRow>): seq<JoinedRow> {
    if matches == [] then []
    else WithSubmissions(o, matches[0], SubmissionsOf(o.accession, submissions))
         + JoinIssuers(o, matches[1..], submissions)
  }

  /** The four TSV files of one Form D data set. */
  datatype Tables = Tables(
    submissions: seq<SubmissionRow>, issuers: seq<IssuerRow>,
    offerings: seq<OfferingRow>, people: seq<PersonRow>)

  /** Inner join of offerings with issuers, then left join with submissions. */
  function JoinTables(offerings: seq<OfferingRow>, issuers: seq<IssuerRow>, submissions: seq<SubmissionRow>): seq<JoinedRow> {
    if offerings == [] then []
    else JoinIssuers(offerings[0], IssuersOf(offerings[0].accession, issuers), submissions)
         + JoinTables(offerings[1..], issuers, submissions)
  }

  /** A joined row is an offering, one of its issuers, and either one of its
      submissions or, when it has none, no submission at all. */
  ghost predicate JoinedFrom(r: JoinedRow, offerings: seq<OfferingRow>, issuers: seq<IssuerRow>, submissions: seq<SubmissionRow>) {
    && r.offering in offerings
    && r.issuer in issuers
    && r.issuer.accession == r.offering.accession
    && (r.submission.None? <==> SubmissionsOf(r.offering.accession, submissions) == [])
    && (r.submission.Some? ==> r.submission.value in submissions
                               && r.submission.value.accession == r.offering.accession)
  }

  lemma {:induction false} WithSubmissionsMembers(o: OfferingRow, i: IssuerRow, subs: seq<SubmissionRow>, r: JoinedRow)
    ensures r in WithSubmissions(o, i, subs) <==>
      r.offering == o && r.issuer == i &&
      (if subs == [] then r.submission.None? else r.submission.Some? && r.submission.value in subs)
  {
    if subs != [] && r.offering == o && r.issuer == i && r.submission.Some? && r.submission.value in subs {
      var k :| 0 <= k < |subs| && subs[k] == r.submission.value;
      assert WithSubmissions(o, i, subs)[k] == r;
    }
  }

  lemma {:induction false} JoinIssuersMembers(o: OfferingRow, matches: seq<IssuerRow>, submissions: seq<SubmissionRow>, r: JoinedRow)
    ensures r in JoinIssuers(o, matches, submissions) <==>
      r.offering == o && r.issuer in matches &&
      r in WithSubmissions(o, r.issuer, SubmissionsOf(o.accession, submissions))
  {
    if matches != [] {
      WithSubmissionsMembers(o, matches[0], SubmissionsOf(o.accession, submissions), r);
      JoinIssuersMembers(o, matches[1..], submissions, r);
      assert r.issuer in matches <==> r.issuer == matches[0] || r.issuer in matches[1..];
    }
  }

  /** Every joined row comes from the tables as an inner join with issuers
      and a left join with submissions prescribe, and every such combination
      is in the join: an offering with no issuer contributes no row, one
      with no submission still contributes a row per issuer. */
  lemma {:induction false} JoinMembers(offerings: seq<OfferingRow>, issuers: seq<IssuerRow>, submissions: seq<SubmissionRow>, r: JoinedRow)
    ensures r in JoinTables(offerings, issuers, submissions) <==> JoinedFrom(r, offerings, issuers, submissions)
  {
    if offerings != [] {
      var o := offerings[0];
      JoinIssuersMembers(o, IssuersOf(o.accession, issuers), submissions, r);
      WithSubmissionsMembers(o, r.issuer, SubmissionsOf(o.accession, submissions), r);
      JoinMembers(offerings[1..], issuers, submissions, r);
      assert r.offering in offerings <==> r.offering == o || r.offering in offerings[1..];
    }
  }

  // ---------------------------------------------------------------------
  // Related persons (identical in both builders)

  datatype Person = Person(
    name: Option<string>, firstName: Option<string>, middleName: Option<string>,
    lastName: Option<string>, relationships: seq<string>,
    city: Option<string>, state: Option<string>)

  function NameParts(row: PersonRow): seq<Option<string>> {
    [CleanValue(row.firstName), CleanValue(row.middleName), CleanValue(row.lastName)]
  }

  function RelationshipColumns(row: PersonRow): seq<Cell> {
    [row.relationship1, row.relationship2, row.relationship3]
  }

  /** `' '.join([p for p in name_parts if p])`, or `None` when empty. */
  function FullName(row: PersonRow): Option<string> {
    var full := Join(KeepTruthy(NameParts(row)), " ");
    if full != "" then Some(full) else None
  }

  function CleanAll(cells: seq<Cell>): (r: seq<Option<string>>)
    ensures |r| == |cells|
    ensures forall k :: 0 <= k < |cells| ==> r[k] == CleanValue(cells[k])
  {
    seq(|cells|, k requires 0 <= k < |cells| => CleanValue(cells[k]))
  }

  /** The relationships: the truthy cleaned RELATIONSHIP_1..3, in column order. */
  function Relationships(row: PersonRow): seq<string> {
    KeepTruthy(CleanAll(RelationshipColumns(row)))
  }

  function PersonOf(row: PersonRow): Person {
    Person(FullName(row), CleanValue(row.firstName), CleanValue(row.middleName),
           CleanValue(row.lastName), Relationships(row),
           CleanValue(row.city), CleanValue(row.stateOrCountry))
  }

  lemma {:induction false} JoinNonEmptyIsNonEmpty(parts: seq<string>)
    requires forall x :: x in parts ==> x != ""
    ensures Join(parts, " ") == "" <==> parts == []
  {
    if |parts| > 1 {
      assert parts[0] in parts;
    } else if |parts| == 1 {
      assert parts[0] in parts;
    }
  }

  /** The full name is absent exactly when first, middle and last name are
      all empty, and otherwise is the single-space join of the non-empty
      ones in that order. */
  lemma FullNameSpec(row: PersonRow)
    ensures FullName(row).None? <==>
      !Truthy(CleanValue(row.firstName)) && !Truthy(CleanValue(row.middleName)) && !Truthy(CleanValue(row.lastName))
    ensures FullName(row).Some? ==> FullName(row).value == Join(KeepTruthy(NameParts(row)), " ")
  {
    var parts := NameParts(row);
    JoinNonEmptyIsNonEmpty(KeepTruthy(parts));
    KeepTruthyEmpty(parts);
    assert |parts| == 3 && parts[0] == CleanValue(row.firstName)
        && parts[1] == CleanValue(row.middleName) && parts[2] == CleanValue(row.lastName);
  }

  /** Builds one person's relationships list column by column. */
  method BuildRelationships(row: PersonRow) returns (relationships: seq<string>)
    ensures relationships == Relationships(row)
    ensures forall r :: r in relationships ==> r != ""
  {
    var columns := RelationshipColumns(row);
    relationships := [];
    var k := 0;
    while k < |columns|
      invariant 0 <= k <= |columns|
      invariant relationships == KeepTruthy(CleanAll(columns)[..k])
    {
      var rel := CleanValue(columns[k]);
      assert CleanAll(columns)[..k + 1] == CleanAll(columns)[..k] + [rel];
      KeepTruthyAppend(CleanAll(columns)[..k], rel);
      if rel.Some? && rel.value != "" {
        relationships := relationships + [rel.value];
      }
      k := k + 1;
    }
    assert CleanAll(columns)[..k] == CleanAll(columns);
  }

  /** Builds one related person from its RELATEDPERSONS row. */
  method BuildPerson(row: PersonRow) returns (person: Person)
    ensures person == PersonOf(row)
  {
    var relationships := BuildRelationships(row);
    var first, middle, last := CleanValue(row.firstName), CleanValue(row.middleName), CleanValue(row.lastName);
    var fullName := Join(KeepTruthy([first, middle, last]), " ");
    person := Person(if fullName != "" then Some(fullName) else None, first, middle, last,
                     relationships, CleanValue(row.city), CleanValue(row.stateOrCountry));
  }

  /** `people[people['ACCESSIONNUMBER'] == acc]` */
  function PeopleOf(acc: string, people: seq<PersonRow>): (r: seq<PersonRow>)
    ensures forall p :: p in r <==> p in people && p.accession == acc
  {
    if people == [] then []
    else (if people[0].accession == acc then [people[0]] else []) + PeopleOf(acc, people[1..])
  }

  function PersonsOf(rows: seq<PersonRow>): (r: seq<Person>)
    ensures |r| == |rows|
    ensures forall k :: 0 <= k < |rows| ==> r[k] == PersonOf(rows[k])
  {
    seq(|rows|, k requires 0 <= k < |rows| => PersonOf(rows[k]))
  }

  /** The related-persons list of one filing: one person per matching
      RELATEDPERSONS row, in row order. */
  method BuildRelatedPersons(acc: string, people: seq<PersonRow>) returns (persons: seq<Person>)
    ensures persons == PersonsOf(PeopleOf(acc, people))
  {
    var companyPeople := PeopleOf(acc, people);
    ghost var target := PersonsOf(companyPeople);
    persons := [];
    var k := 0;
    while k < |companyPeople|
      invariant 0 <= k <= |companyPeople|
      invariant persons == target[..k]
    {
      var person := BuildPerson(companyPeople[k]);
      persons := persons + [person];
      k := k + 1;
    }
  }

  // ---------------------------------------------------------------------
  // The company record written to `companies_sec_<quarter>.json`

  datatype Address = Address(
    street1: Option<string>, street2: Option<string>, city: Option<string>,
    state: Option<string>, zip: Option<string>, phone: Option<string>)

  datatype Company = Company(
    name: Option<string>, address: Address, entityType: Option<string>,
    yearIncorporated: Option<int>, industry: Option<string>)

  datatype Stage = PreSeed | Seed | SeriesA | SeriesB | SeriesC | SeriesDPlus

  datatype Recency = VeryRecent | Recent | Moderate | Older

  /** Amounts keep their JSON shape because later stages dispatch on it. */
  datatype Funding = Funding(
    totalOfferingAmount: Json, totalAmountSold: Json, totalRemaining: Option<real>,
    numberOfInvestors: Option<int>, dateOfFirstSale: Option<string>, stageEstimate: Option<Stage>)

  datatype Filing = Filing(dateFiled: Option<string>, submissionType: Option<string>, quarter: string)

  datatype CompanyAge = CompanyAge(
    yearsSinceIncorporation: Option<int>, monthsSinceFunding: Option<int>, fundingRecency: Option<Recency>)

  datatype RecordMeta = RecordMeta(sourceQuarter: string, processedDate: string)

  /** The `inferred_domains` object the enrichment stage attaches. */
  datatype DomainInference = DomainInference(domains: seq<string>, verified: Option<bool>, checked: bool, inferredAt: string)

  datatype Record = Record(
    accessionNumber: string, company: Company, funding: Funding, filing: Filing,
    companyAge: CompanyAge, relatedPersons: seq<Person>, metadata: RecordMeta,
    inferredDomains: Option<DomainInference>)

  function PersonCount(r: Record): nat { |r.relatedPersons| }

  /** The injected "now": day number, calendar year and ISO timestamp. */
  datatype Clock = Clock(today: int, year: int, stamp: string)
}
