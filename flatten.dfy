/**
 * `sec_flatten.py`: exports the companies as a flat table. Each nested
 * record becomes one sixteen-column row, the rows are sorted by funding,
 * largest first, the first `top_n` are kept, and the kept rows are counted
 * into five funding ranges.
 */
module Flatten {
  import opened Common
  import opened Records
  import opened Sorting
  import opened CompanyFilter

  // ---------------------------------------------------------------------
  // `extract_funding_amount` (this script's variant)

  /** A value that is truthy and an `int` or `float` (a boolean is an
      `int` in Python), as a number. */
  function TruthyNumber(j: Json): Option<real> {
    match j
    case JNumber(x) => if x != 0.0 then Some(x) else None
    case JBool(b) => if b then Some(1.0) else None
    case _ => None
  }

  /** `total_offering_amount` when it is a truthy number, otherwise
      `total_amount_sold` when that is, otherwise 0.0. A missing, null,
      zero or textual offering amount falls back to the amount sold. */
  function FundingAmount(f: Funding): real {
    match TruthyNumber(f.totalOfferingAmount)
    case Some(x) => x
    case None =>
      match TruthyNumber(f.totalAmountSold)
      case Some(x) => x
      case None => 0.0
  }

  /** The amount is the offering amount when that is a truthy number;
      otherwise it is the amount sold when that is one; otherwise it is
      0.0. In particular the result is 0.0 exactly when neither is a
      truthy number. */
  lemma FundingAmountSpec(f: Funding)
    ensures TruthyNumber(f.totalOfferingAmount).Some? ==>
      FundingAmount(f) == TruthyNumber(f.totalOfferingAmount).value
    ensures TruthyNumber(f.totalOfferingAmount).None? && TruthyNumber(f.totalAmountSold).Some? ==>
      FundingAmount(f) == TruthyNumber(f.totalAmountSold).value
    ensures FundingAmount(f) == 0.0 <==>
      TruthyNumber(f.totalOfferingAmount).None? && TruthyNumber(f.totalAmountSold).None?
  {
  }

  /** Unlike the filter's variant, a null offering amount falls back to a
      non-zero amount sold. */
  lemma NullOfferingFallsBack(f: Funding, x: real)
    requires f.totalOfferingAmount == JNull && f.totalAmountSold == JNumber(x) && x != 0.0
    ensures FundingAmount(f) == x
    ensures ExtractFundingAmount(f) == 0.0
  {
  }

  // ---------------------------------------------------------------------
  // `flatten_company`

  /** One exported row: one field per entry of `fieldnames`. */
  datatype Row = Row(
    companyName: Option<string>, streetAddress: Option<string>, city: Option<string>,
    state: Option<string>, zip: Option<string>, phone: Option<string>,
    industry: Option<string>, entityType: Option<string>, yearIncorporated: Option<int>,
    fundingAmount: real, fundingFormatted: string, amountSold: Json,
    investors: Option<int>, filingDate: Option<string>, primaryContact: Option<string>,
    accessionNumber: string)

  /** The CSV header, in column order. */
  const FieldNames: seq<string> := [
    "Company_Name", "Industry", "Funding_Formatted", "Funding_Amount", "City", "State",
    "Phone", "Street_Address", "Zip", "Entity_Type", "Year_Incorporated", "Amount_Sold",
    "Investors", "Filing_Date", "Primary_Contact", "Accession_Number"]

  /** The first related person's name, or `""` when there is none. */
  function PrimaryContact(r: Record): Option<string> {
    if r.relatedPersons == [] then Some("") else r.relatedPersons[0].name
  }

  /** `flatten_company`. `dollars(x)` stands for the rendering
      `f"${x:,.0f}"` of a positive amount. */
  function FlattenCompany(r: Record, dollars: real -> string): Row {
    var amount := FundingAmount(r.funding);
    var a := r.company.address;
    Row(r.company.name, a.street1, a.city, a.state, a.zip, a.phone,
      r.company.industry, r.company.entityType, r.company.yearIncorporated,
      amount, if amount > 0.0 then dollars(amount) else "$0",
      if r.funding.totalAmountSold.JAbsent? then JNumber(0.0) else r.funding.totalAmountSold,
      r.funding.numberOfInvestors, r.filing.dateFiled, PrimaryContact(r), r.accessionNumber)
  }

  /** The row carries the record's funding amount, `"$0"` as its formatted
      amount whenever that is not positive, and the first person's name as
      primary contact, `""` when there is no person. */
  lemma FlattenCompanySpec(r: Record, dollars: real -> string)
    ensures var row := FlattenCompany(r, dollars);
      && row.fundingAmount == FundingAmount(r.funding)
      && (row.fundingAmount <= 0.0 ==> row.fundingFormatted == "$0")
      && (row.fundingAmount > 0.0 ==> row.fundingFormatted == dollars(row.fundingAmount))
      && (r.relatedPersons == [] ==> row.primaryContact == Some(""))
      && (r.relatedPersons != [] ==> row.primaryContact == r.relatedPersons[0].name)
      && row.companyName == r.company.name && row.accessionNumber == r.accessionNumber
  {
  }

  /** The header names sixteen distinct columns. */
  lemma FieldNamesDistinct()
    ensures |FieldNames| == 16 && Distinct(FieldNames)
  {
    assert forall i, j :: 0 <= i < j < 16 ==> FieldNames[i] != FieldNames[j] by {
      assert forall i :: 0 <= i < 16 ==> |FieldNames[i]| >= 3;
    }
  }

  // ---------------------------------------------------------------------
  // `convert_to_csv`: flatten, sort, cut, count

  function FlattenAll(companies: seq<Record>, dollars: real -> string): (rows: seq<Row>)
    ensures |rows| == |companies|
    ensures forall i :: 0 <= i < |companies| ==> rows[i] == FlattenCompany(companies[i], dollars)
  {
    seq(|companies|, i requires 0 <= i < |companies| => FlattenCompany(companies[i], dollars))
  }

  function FundingOf(row: Row): real { row.fundingAmount }

  /** `flattened[:top_n] if top_n else flattened`. */
  function TopOf(rows: seq<Row>, topN: int): seq<Row> {
    if topN != 0 then SliceTo(rows, topN) else rows
  }

  /** The exported rows. */
  function TopRows(companies: seq<Record>, topN: int, dollars: real -> string): seq<Row> {
    TopOf(SortDescBy(FlattenAll(companies, dollars), FundingOf), topN)
  }

  /** The export is ordered by non-increasing funding; `top_n = 0` keeps
      every row and a positive `top_n` keeps `min(top_n, len)`; every row
      kept has at least the funding of every row cut; and the kept rows
      come from the input, rows of equal funding in input order. */
  lemma TopRowsSpec(companies: seq<Record>, topN: int, dollars: real -> string)
    ensures var top := TopRows(companies, topN, dollars);
      var sorted := SortDescBy(FlattenAll(companies, dollars), FundingOf);
      && (forall i, j :: 0 <= i < j < |top| ==> top[i].fundingAmount >= top[j].fundingAmount)
      && (topN == 0 ==> |top| == |companies|)
      && (topN > 0 ==> |top| == if topN < |companies| then topN else |companies|)
      && (topN < 0 ==> |top| == if |companies| + topN < 0 then 0 else |companies| + topN)
      && top == sorted[..|top|]
      && (forall i, j :: 0 <= i < |top| <= j < |sorted| ==> sorted[i].fundingAmount >= sorted[j].fundingAmount)
      && multiset(top) <= multiset(FlattenAll(companies, dollars))
  {
    var rows := FlattenAll(companies, dollars);
    var sorted := SortDescBy(rows, FundingOf);
    SortDescBySpec(rows, FundingOf);
    var top := TopRows(companies, topN, dollars);
    assert top == sorted[..|top|];
    assert sorted == top + sorted[|top|..];
    assert multiset(sorted) == multiset(top) + multiset(sorted[|top|..]);
  }

  /** The five funding ranges, in the order the report lists them. */
  const RangeOrder: seq<FundingRange> := [UpTo5M, UpTo10M, UpTo25M, UpTo50M, Over50M]

  /** The `ranges` dict before counting: all five ranges at zero. */
  const NoRanges: Counter<FundingRange> :=
    Counter(RangeOrder, map[UpTo5M := 0, UpTo10M := 0, UpTo25M := 0, UpTo50M := 0, Over50M := 0])

  /** The range counts after the given rows. */
  function RangesOf(rows: seq<Row>): Counter<FundingRange> {
    if rows == [] then NoRanges
    else RangesOf(rows[..|rows| - 1]).Inc(RangeOf(rows[|rows| - 1].fundingAmount))
  }

  predicate InRange(g: FundingRange, row: Row) { RangeOf(row.fundingAmount) == g }

  /** Every range is one of the five listed. */
  lemma RangeListed(g: FundingRange)
    ensures g in RangeOrder
  {
    match g
    case UpTo5M =>
    case UpTo10M =>
    case UpTo25M =>
    case UpTo50M =>
    case Over50M =>
  }

  /** The counter keeps the five ranges as its keys, in report order, and
      holds a count for each. */
  lemma {:induction false} RangesOfKeys(rows: seq<Row>)
    ensures RangesOf(rows).Valid() && RangesOf(rows).keys == RangeOrder
    ensures forall g :: g in RangesOf(rows).counts
  {
    if rows == [] {
      forall g ensures g in NoRanges.counts {
        RangeListed(g);
      }
    } else {
      RangesOfKeys(rows[..|rows| - 1]);
    }
  }

  /** The five counts add up to the number of rows. */
  lemma {:induction false} RangesOfTotal(rows: seq<Row>)
    ensures RangesOf(rows).Total() == |rows|
  {
    if rows != [] {
      var init := rows[..|rows| - 1];
      RangesOfTotal(init);
      RangesOfKeys(init);
      IncSpec(RangesOf(init), RangeOf(rows[|rows| - 1].fundingAmount));
    }
  }

  /** Each range counts the rows whose funding falls in it. */
  lemma {:induction false} RangesOfCount(rows: seq<Row>, g: FundingRange)
    ensures RangesOf(rows).Get(g) == Count(rows, row => InRange(g, row))
  {
    if rows != [] {
      var init := rows[..|rows| - 1];
      var last := rows[|rows| - 1];
      var p := row => InRange(g, row);
      var before := RangesOf(init);
      RangesOfCount(init, g);
      RangesOfKeys(init);
      IncSpec(before, RangeOf(last.fundingAmount));
      assert RangesOf(rows) == before.Inc(RangeOf(last.fundingAmount));
      CountLast(rows, p);
    }
  }

  /** The counting loop over the exported rows. */
  method CountRanges(top: seq<Row>) returns (ranges: Counter<FundingRange>)
    ensures ranges == RangesOf(top)
  {
    ranges := NoRanges;
    for k := 0 to |top|
      invariant ranges == RangesOf(top[..k])
    {
      assert top[..k + 1][..k] == top[..k];
      ranges := ranges.Inc(RangeOf(top[k].fundingAmount));
    }
    assert top[..|top|] == top;
  }

  /** `convert_to_csv` without the file reading and writing: the rows
      written and the funding distribution printed. */
  method ConvertToCsv(companies: seq<Record>, topN: int, dollars: real -> string)
    returns (top: seq<Row>, ranges: Counter<FundingRange>)
    ensures top == TopRows(companies, topN, dollars)
    ensures ranges == RangesOf(top)
  {
    var flattened := FlattenAll(companies, dollars);
    flattened := SortDescBy(flattened, FundingOf);
    top := if topN != 0 then SliceTo(flattened, topN) else flattened;
    ranges := CountRanges(top);
  }
}
