# SEC Form D pipeline: a verified model

The scripts turn the quarterly SEC Form D data sets into a ranked list of
target companies. They run as a linear batch pipeline:

1. `sec_all_quarters.py` builds one company record for each offering of
   each quarter. It inner-joins the offering with its issuer, left-joins the
   submission, and attaches the related persons. It also derives the stage
   estimate, the years since incorporation, the months since filing and the
   recency bucket.
2. `sec_form_d.py` does the same for a single directory. It also filters:
   at least $5,000,000 sold, eight target industries, and MA, CA or NY.
3. `sec_combine_quarters.py` concatenates the quarter files and keeps one
   record per accession number. The kept record is the one with the fewest
   months since funding, with a missing value counted as 999. It orders the
   result by months and counts it overall, by state and by industry.
4. `sec_filter.py` runs every company through four tests in a fixed order:
   US address, funding, target state, industry exclusion. Each rejection
   bumps the counter of the first test that failed. Each kept company is
   counted by state, funding range and industry.
5. `sec_unique.py` drops later records whose normalised
   (name, phone, address) key was already seen. It reports the first five
   duplicates.
6. `sec_domain_inference.py` reduces each company name to a hyphenated
   stem and builds candidate web domains from it. A resumable loop attaches
   the candidates to every company from the resume point on.
7. `sec_flatten.py` projects each record onto a sixteen-column row. It
   sorts the rows by funding, largest first, keeps the top `top_n` and
   counts them into five funding ranges.

There is one module per script:

| module | script |
|---|---|
| `Quarter` | `sec_all_quarters.py` |
| `FormD` | `sec_form_d.py` |
| `Combine` | `sec_combine_quarters.py` |
| `CompanyFilter` | `sec_filter.py` |
| `Unique` | `sec_unique.py` |
| `Domain` | `sec_domain_inference.py` |
| `Flatten` | `sec_flatten.py` |

Four modules are shared:

- `Records` holds the TSV cells and rows, the cell cleaners that both record
  builders define identically, the joins, related-person construction and
  the nested company record.
- `Common` holds the Python string and list built-ins the scripts lean on,
  and an insertion-ordered counter that stands for `defaultdict(int)`.
- `Sorting` holds Python's stable `list.sort` and `sorted`.
- `Occurrences` holds first-occurrence deduplication.

Each loop of the scripts is a `method` proved against a function that
specifies it. The properties the scripts promise are proved as lemmas about
those functions. The enrichment loop of `sec_domain_inference.py` updates
company entries in place, so it works on an `array`.

Pandas NaN is `None` (`Records.Cell.NaN`). A JSON value that a later stage
inspects by type keeps its shape (`Records.Json`), so that both
`extract_funding_amount` variants can dispatch on it. The clock and
`datetime.strptime` are parameters (`Records.Clock`, `Quarter.DateParser`).

Some observations about the code:

- `sec_domain_inference.py`'s order-preserving deduplication of candidates
  never removes anything. The candidates are already pairwise different
  (`Domain.RawCandidatesDistinct`).
- The `X0`–`X3` exclusion in `is_us_company` can never fire. Those codes
  contain a digit, and the test has already required two letters
  (`CompanyFilter.NonUsCodesUnreachable`).
- The two `extract_funding_amount` functions disagree. In `sec_filter.py`, a
  null offering amount gives 0.0 and ignores the amount sold. In
  `sec_flatten.py`, it falls back to the amount sold
  (`Flatten.NullOfferingFallsBack`).

## Model

| member | source | states |
|---|---|---|
| Common.Lower | Scripts/sec_filter.py:18 | `str.lower()`: same length; each character is lower-cased, and only ASCII capitals change |
| Common.Upper | Scripts/sec_filter.py:11 | `str.upper()`: same length; each character is upper-cased, and only ASCII small letters change |
| Common.Strip | Scripts/sec_filter.py:11 | `str.strip()` is no longer than its input and has no whitespace at either end |
| Common.StripSpec | Scripts/sec_filter.py:11 | `str.strip()` is the slice of its input left after removing every leading and every trailing whitespace character, and that slice has none at either end |
| Common.StripEmpty | Scripts/sec_form_d.py:279 | a string strips to `""` exactly when it is all whitespace (so a blank cell cleans to `""`, not `None`) |
| Common.StripNoEdgeSpaces | Scripts/sec_unique.py:17 | stripping a string with no edge whitespace changes nothing |
| Common.KeepTruthy | Scripts/sec_all_quarters.py:60 | `[p for p in parts if p]` keeps only non-empty present values, all taken from the input |
| Common.NonEmpty | Scripts/sec_unique.py:43 | `filter(None, parts)` holds every non-empty part and nothing else |
| Common.NonEmptyAppend | Scripts/sec_unique.py:43 | `filter(None, parts)` keeps the non-empty parts in their order: one more part adds itself at the end when non-empty and nothing otherwise |
| Common.Filter | Scripts/sec_form_d.py:116-119 | a row filter keeps exactly the rows that satisfy the test, and no more rows than it was given |
| Common.SliceTo | Scripts/sec_flatten.py:79 | `l[:n]` is a prefix of `l` of length `min(n, len)` for `n >= 0`, and of length `len + n` clipped at 0 for a negative `n` |
| Common.EmptyCounter | Scripts/sec_filter.py:120-122 | a fresh `defaultdict(int)` is well formed and sums to 0 |
| Common.IncSpec | Scripts/sec_filter.py:164 | `d[k] += 1` keeps the counter well formed; it raises `d[k]` and the total by one and leaves every other key's count alone |
| Common.IncGet | Scripts/sec_filter.py:164 | after `d[k] += 1`, `d[k]` is one more than before and every other key reads as before |
| Records.IndexOfDot | Scripts/sec_all_quarters.py:255 | the position of the decimal point is the first `.`, or the end of the string |
| Records.ParseUnsigned | Scripts/sec_all_quarters.py:255 | an unsigned decimal parses to a non-negative number |
| Records.ParseWhole | Scripts/sec_all_quarters.py:250-257 | a run of digits parses to the integer it spells |
| Records.ParseDecimal | Scripts/sec_all_quarters.py:250-257 | digits, a `.` and digits, not both runs empty, parse to the whole part plus the fraction over a power of ten |
| Records.ParseUnsignedShape | Scripts/sec_all_quarters.py:250-257 | text parses exactly when it is digits, or digits around one `.` with at least one digit; anything else gives no number |
| Records.Trunc | Scripts/sec_all_quarters.py:264 | `int(x)` truncates toward zero: the result is within one of `x`, on the same side of 0 |
| Records.CleanValue | Scripts/sec_all_quarters.py:244-248 | `clean_value` is `None` exactly for NaN and falsy cells; otherwise it is the stripped text, with no edge whitespace |
| Records.CleanFloat | Scripts/sec_all_quarters.py:250-257 | `clean_float` is `None` for NaN; a number is itself; text is `float(text)`, with `None` where that raises |
| Records.CleanInt | Scripts/sec_all_quarters.py:259-266 | `clean_int` is `None` exactly when `clean_float` is; otherwise it is `int(float(v))`, truncated toward zero |
| Records.CleanValueUnchanged | Scripts/sec_form_d.py:275-279 | non-empty text without edge whitespace comes out of `clean_value` unchanged |
| Records.CleanIntTruncates | Scripts/sec_form_d.py:290-297 | `clean_int` lies strictly within one of the float and never has the opposite sign |
| Records.IssuersOf | Scripts/sec_all_quarters.py:36 | the issuer rows matching an accession number are exactly those with that number |
| Records.SubmissionsOf | Scripts/sec_all_quarters.py:37-41 | the submission rows matching an accession number are exactly those with that number |
| Records.WithSubmissionsMembers | Scripts/sec_all_quarters.py:37-41 | the left join keeps one row per matching submission, or one row with no submission when none matches |
| Records.JoinIssuersMembers | Scripts/sec_all_quarters.py:36-41 | the rows of one offering pair it with each matching issuer, then left-join the submissions |
| Records.JoinMembers | Scripts/sec_all_quarters.py:36-41 | a row is in the join exactly when it combines an offering, an issuer with its accession number, and a matching submission or none when there is none |
| Records.JoinNonEmptyIsNonEmpty | Scripts/sec_all_quarters.py:60 | joining non-empty parts with a space gives `""` exactly when there are no parts |
| Records.FullNameSpec | Scripts/sec_all_quarters.py:55-69 | the full name is `None` exactly when first, middle and last name are all empty; otherwise it is the single-space join of the non-empty ones, in order |
| Records.BuildRelationships | Scripts/sec_all_quarters.py:62-66 | the relationships are the non-empty cleaned RELATIONSHIP_1..3 values, in column order |
| Records.BuildPerson | Scripts/sec_all_quarters.py:54-76 | builds one related person from its row, as `PersonOf` defines |
| Records.PeopleOf | Scripts/sec_all_quarters.py:50 | the people of a filing are exactly the rows with its accession number |
| Records.BuildRelatedPersons | Scripts/sec_all_quarters.py:53-76 | the loop builds one person per matching row of RELATEDPERSONS, in row order |
| Sorting.WithKeyAppend | Scripts/sec_combine_quarters.py:72 | appending an element adds it to its key's class, last |
| Sorting.WithKeyAbove | Scripts/sec_combine_quarters.py:72 | a list whose keys all exceed `k` has no element with key `k` |
| Sorting.WithKeyNegated | Scripts/sec_flatten.py:76 | `reverse=True` groups elements into the same key classes |
| Sorting.InsertByPermutes | Scripts/sec_combine_quarters.py:72 | one insertion step permutes its input |
| Sorting.InsertBySorted | Scripts/sec_combine_quarters.py:72 | inserting into a sorted list keeps it sorted |
| Sorting.InsertByWithKey | Scripts/sec_combine_quarters.py:72 | an insertion puts the new element last among those with its key (stability) |
| Sorting.SortBySpec | Scripts/sec_combine_quarters.py:72 | `list.sort(key=...)` orders by key, permutes its input, and keeps equal keys in input order |
| Sorting.SortDescBySpec | Scripts/sec_flatten.py:76 | `list.sort(key=..., reverse=True)` orders by non-increasing key, permutes its input, and keeps equal keys in input order |
| Sorting.LexLeTotal | Scripts/sec_combine_quarters.py:18 | string comparison is total |
| Sorting.LexLeTrans | Scripts/sec_combine_quarters.py:18 | string comparison is transitive |
| Sorting.LexLeAntisym | Scripts/sec_combine_quarters.py:18 | string comparison is antisymmetric |
| Sorting.InsertByNamePermutes | Scripts/sec_all_quarters.py:211 | one insertion step of `sorted()` permutes its input |
| Sorting.InsertByNameSorted | Scripts/sec_all_quarters.py:211 | inserting into a name-sorted list keeps it sorted |
| Sorting.SortByNameSpec | Scripts/sec_all_quarters.py:211 | `sorted()` on names orders them and permutes the input |
| Occurrences.FirstOccurrenceAt | Scripts/sec_unique.py:58-75 | one step of first-occurrence deduplication |
| Occurrences.FirstOccurrencesAreFirst | Scripts/sec_unique.py:62-75 | every kept element is one of the input's elements that is first with its key |
| Occurrences.FirstOccurrencesDistinct | Scripts/sec_unique.py:62-75 | the kept elements have pairwise different keys |
| Occurrences.FirstOccurrencesCover | Scripts/sec_unique.py:62-75 | every key of the input is the key of a kept element |
| Occurrences.FirstOccurrencesSpec | Scripts/sec_unique.py:62-75 | the kept elements are an order-preserving subsequence with distinct keys that covers every key |
| Occurrences.FirstOccurrencesOfDistinct | Scripts/sec_domain_inference.py:133-139 | deduplicating a list whose keys are already distinct returns it unchanged |
| Quarter.Passed | Scripts/sec_all_quarters.py:112-124 | the number of thresholds reached is at most the number of thresholds |
| Quarter.PassedMonotone | Scripts/sec_all_quarters.py:112-124 | a larger value never reaches fewer thresholds |
| Quarter.StageOf | Scripts/sec_all_quarters.py:110-124 | the stage is `None` exactly for a missing or zero amount sold |
| Quarter.StageByThresholds | Scripts/sec_all_quarters.py:113-124 | a non-zero amount's stage is the rung of Pre-Seed, Seed, Series A, B, C, D+ given by how many of $2M, $5M, $15M, $40M, $100M it has reached (half-open buckets) |
| Quarter.StageMonotone | Scripts/sec_all_quarters.py:113-124 | a larger non-zero amount never gets an earlier stage |
| Quarter.StageBoundaries | Scripts/sec_all_quarters.py:113-124 | each threshold opens the next bucket: exactly $5,000,000 is Series A |
| Quarter.RecencyByThresholds | Scripts/sec_all_quarters.py:95-102 | the recency bucket is the rung of very recent, recent, moderate, older given by how many of 6, 12, 24 months are reached |
| Quarter.RecencyMonotone | Scripts/sec_all_quarters.py:95-102 | the recency bucket is a monotone function of the months |
| Quarter.MonthsSince | Scripts/sec_all_quarters.py:93 | `days // 30` is the floor of the day difference over 30, including for a future date |
| Quarter.YearsSinceIncorporation | Scripts/sec_all_quarters.py:79-81 | `None` exactly when the year is missing or 0; otherwise it adds to the year to give the current year |
| Quarter.FirstParseSpec | Scripts/sec_all_quarters.py:90-105 | the filing date takes the value of the first format, in list order, that parses; it is `None` exactly when none parses |
| Quarter.FundingAgeSpec | Scripts/sec_all_quarters.py:84-107 | months and recency are `None` together, exactly when the date is missing, empty or parsed by no format; otherwise recency is the bucket of the months |
| Quarter.ComputeFundingAge | Scripts/sec_all_quarters.py:84-107 | the format loop with `break` and `continue` computes `FundingAge` |
| Quarter.BuildRecord | Scripts/sec_all_quarters.py:49-174 | builds one company record from a joined row, as `RecordOf` defines |
| Quarter.MissingFiles | Scripts/sec_all_quarters.py:21-22 | the missing list names exactly the required files that are absent |
| Quarter.RecordsOfLabelled | Scripts/sec_all_quarters.py:129-166 | every record carries the quarter name in `filing.quarter` and `metadata.source_quarter`, and the accession number of its offering |
| Quarter.BuildRecords | Scripts/sec_all_quarters.py:47-174 | the row loop builds `RecordsOf` |
| Quarter.QuarterOfSpec | Scripts/sec_all_quarters.py:21-185 | a quarter yields `None` exactly when a required file is missing; otherwise there is one record per joined row, each labelled with the quarter, and the totals count the records and their related persons |
| Quarter.ProcessQuarter | Scripts/sec_all_quarters.py:9-196 | `process_single_quarter` computes `QuarterOf` |
| Quarter.NamesWhere | Scripts/sec_all_quarters.py:223-231 | a side of the split is no longer than the directories seen |
| Quarter.NamesWhereSpec | Scripts/sec_all_quarters.py:223-231 | every quarter directory lands on exactly one side, processed or failed, decided by its files |
| Quarter.NamesWhereMembers | Scripts/sec_all_quarters.py:223-231 | a name on a side belongs to a directory with that outcome |
| Quarter.SelectQuarterDirs | Scripts/sec_all_quarters.py:210-214 | the quarter directories are the listed directories whose name contains `Q` or `q`, in listing order |
| Quarter.ProcessQuarterDirs | Scripts/sec_all_quarters.py:223-231 | each directory's name goes to `processed` or `failed` as its files decide, in order, each output labelled with its quarter |
| Quarter.ProcessListed | Scripts/sec_all_quarters.py:227-228 | one quarter succeeds exactly when its four files are there |
| Quarter.ProcessAllQuarters | Scripts/sec_all_quarters.py:202-231 | the quarter directories are taken in `sorted()` listing order and split into processed and failed |
| FormD.SplitByPresence | Scripts/sec_form_d.py:18-28 | the found and missing lists are the present and absent names in list order, and the check passes exactly when every name is present |
| FormD.NothingMissing | Scripts/sec_form_d.py:28-39 | the missing list is empty exactly when every required file is present |
| FormD.CheckRequiredFiles | Scripts/sec_form_d.py:16-39 | `check_required_files` on the four required TSV names |
| FormD.SplitSizes | Scripts/sec_form_d.py:21-26 | every required name is reported once, as found or as missing |
| FormD.TargetRowsSpec | Scripts/sec_form_d.py:111-146 | a row is built exactly when it is in the join and has at least $5,000,000 sold, a target industry and a target state |
| FormD.TargetLabelsStripped | Scripts/sec_form_d.py:93-104 | the target industries and states are non-empty and have no edge whitespace |
| FormD.StartupMeetsFilters | Scripts/sec_form_d.py:114-212 | a built document shows at least $5,000,000 sold, a target industry and a target state |
| FormD.StartupsMeetFilters | Scripts/sec_form_d.py:114-233 | every document of the output meets the three filters |
| FormD.BuildStartup | Scripts/sec_form_d.py:155-231 | builds one startup document, as `StartupOf` defines |
| FormD.BuildStartups | Scripts/sec_form_d.py:152-233 | the document loop builds `StartupsOf` |
| FormD.OutputOfSpec | Scripts/sec_form_d.py:50-251 | there is no output for a missing directory or file; otherwise `total_startups` counts the target rows and `total_executives` their related persons |
| FormD.BuildDocument | Scripts/sec_form_d.py:111-251 | filtering, joining and building compute `DocumentOf` |
| FormD.CreateStartupsJson | Scripts/sec_form_d.py:41-251 | `create_startups_json` computes `OutputOf` |
| Combine.LoadAll | Scripts/sec_combine_quarters.py:32-40 | the load loop concatenates the files' companies in file order, with a missing `companies` key as `[]`, and records each quarter |
| Combine.AllCompaniesSpec | Scripts/sec_combine_quarters.py:32-40 | the combined list has as many companies as all files together, and exactly their companies |
| Combine.Kept | Scripts/sec_combine_quarters.py:50-67 | the kept index is `-1` (none yet) or the index of a record already seen |
| Combine.AccessionsSpec | Scripts/sec_combine_quarters.py:48-53 | the dict keys are the occurring accession numbers, each once |
| Combine.KeptSpec | Scripts/sec_combine_quarters.py:50-67 | the kept record has the accession number and the fewest months (missing as 999) among its records, and is the first with that minimum; nothing is kept for a number that does not occur |
| Combine.SentinelNotInfinity | Scripts/sec_combine_quarters.py:60-66 | a later record replaces one with missing months only when its months are below 999 |
| Combine.DedupOfSpec | Scripts/sec_combine_quarters.py:48-69 | the result has one record per occurring accession number, each the kept one, and is no longer than the input |
| Combine.AccessionsBound | Scripts/sec_combine_quarters.py:48-53 | there are no more accession numbers than records |
| Combine.Deduplicate | Scripts/sec_combine_quarters.py:48-69 | the dict loop computes `DedupOf` |
| Combine.DedupStep | Scripts/sec_combine_quarters.py:50-67 | one turn inserts a new accession number, or replaces the record only on strictly fewer months |
| Combine.TableValues | Scripts/sec_combine_quarters.py:69 | `list(unique_companies.values())` lists the kept records in first-seen key order |
| Combine.GroupKeysSpec | Scripts/sec_combine_quarters.py:129-155 | the groups are the distinct non-empty keys that occur; no group counts more records over $5M than records |
| Combine.SumTotalsStep | Scripts/sec_combine_quarters.py:130-133 | one record adds one to the summed totals exactly when its key is a group |
| Combine.GroupTotalsSum | Scripts/sec_combine_quarters.py:130-152 | the group totals add up to the number of records with a non-empty key |
| Combine.CountGroups | Scripts/sec_combine_quarters.py:129-136 | the counting loop yields each group's total and over-$5M count |
| Combine.CountOne | Scripts/sec_combine_quarters.py:130-136 | one record raises its group's total, and its over-$5M count when the amount sold is truthy and at least $5,000,000 |
| Combine.GroupRows | Scripts/sec_combine_quarters.py:138-145 | the rows of a category are its groups, sorted by total, largest first |
| Combine.GenerateStatistics | Scripts/sec_combine_quarters.py:111-164 | the statistics are the overall row, the state rows and the industry rows |
| Combine.GroupRowsSpec | Scripts/sec_combine_quarters.py:129-164 | each category's rows are ordered by non-increasing total, never count more over $5M than in total, and their totals add up to the records with a non-empty key |
| Combine.OverallSpec | Scripts/sec_combine_quarters.py:117-126 | the overall row counts every company, and no more over $5M |
| Combine.MasterCompaniesSpec | Scripts/sec_combine_quarters.py:48-82 | the master list is a permutation of the deduplicated list, ordered by months (missing as 999), with distinct accession numbers and counted in `total_companies` |
| Combine.MasterQuartersSpec | Scripts/sec_combine_quarters.py:80-86 | earliest and latest quarter are the first and last file's quarter |
| Combine.DistinctAfterPermutation | Scripts/sec_combine_quarters.py:72 | sorting keeps accession numbers distinct |
| Combine.OccursOnce | Scripts/sec_combine_quarters.py:69 | a record of the deduplicated list occurs in it once |
| Combine.CombineAndDeduplicate | Scripts/sec_combine_quarters.py:7-100 | no output without company files; otherwise the master document and its statistics |
| Combine.BuildMaster | Scripts/sec_combine_quarters.py:28-89 | loading, deduplicating and ordering compute `MasterOf` |
| CompanyFilter.TargetStatesSpec | Scripts/sec_filter.py:91-94 | the state list is the default when none is given; otherwise it has one entry per given state, of the same length, with no lower-case letter left, and an entry with no lower-case letter is unchanged |
| CompanyFilter.DefaultStatesUnchanged | Scripts/sec_filter.py:92 | the default list is MA, CA, NY, WA, TX, IL as written |
| CompanyFilter.NormalizeStateSpec | Scripts/sec_filter.py:7-11 | the normal form has no edge whitespace and no small letters, and is empty exactly for an all-whitespace input |
| CompanyFilter.NormalizeStateIdempotent | Scripts/sec_filter.py:7-11 | normalising twice is normalising once |
| CompanyFilter.AnyOccurs | Scripts/sec_filter.py:31 | `any(k in s for k in keys)` holds exactly when some keyword is a substring |
| CompanyFilter.IsExcludedIndustrySpec | Scripts/sec_filter.py:13-31 | a missing or empty industry is never excluded; otherwise it is excluded exactly when some keyword occurs in its lower-cased form |
| CompanyFilter.OccursExtends | Scripts/sec_filter.py:31 | a substring stays a substring of any extension |
| CompanyFilter.ExclusionSurvivesExtension | Scripts/sec_filter.py:13-31 | an excluded name stays excluded with any text around it |
| CompanyFilter.ExclusionIgnoresCase | Scripts/sec_filter.py:18 | the exclusion test ignores ASCII case |
| CompanyFilter.Unformat | Scripts/sec_filter.py:46 | removing `,` and `$` leaves every other character, with its count |
| CompanyFilter.ExtractFundingAmount | Scripts/sec_filter.py:33-57 | a null offering amount is 0.0 with no fallback; a number is itself, and `True`/`False` are 1.0/0.0; text is parsed without `,` and `$`; only an absent offering key falls back to a truthy amount sold |
| CompanyFilter.OfferingKeyDecides | Scripts/sec_filter.py:39-47 | once the offering key holds a scalar, the amount sold is never consulted |
| CompanyFilter.NullOfferingIgnoresSold | Scripts/sec_filter.py:41-42 | a null offering gives 0.0 whatever was sold |
| CompanyFilter.AbsentOfferingUsesSold | Scripts/sec_filter.py:50-53 | with no offering key, a non-zero amount sold is used as it is |
| CompanyFilter.NonUsCodesUnreachable | Scripts/sec_filter.py:67-71 | no alphabetic state is one of `X0`–`X3` |
| CompanyFilter.IsUsCompanySpec | Scripts/sec_filter.py:59-73 | `is_us_company` raises exactly on a null state; otherwise it holds exactly when the stripped, upper-cased state is two letters |
| CompanyFilter.UsStateNormalised | Scripts/sec_filter.py:64-148 | the US test sees the same string as `normalize_state` |
| CompanyFilter.ClassifySpec | Scripts/sec_filter.py:132-161 | a company passes exactly when it meets every criterion (two-letter state in the list, funding at least the minimum, industry not excluded), and the run aborts on exactly the null states |
| CompanyFilter.Assess | Scripts/sec_filter.py:136-158 | the assessment carries the verdict; a passing company's state is a target state |
| CompanyFilter.RangeMonotone | Scripts/sec_filter.py:167-176 | the funding-range buckets are ordered like the amounts |
| CompanyFilter.RangeBounds | Scripts/sec_filter.py:167-176 | each bucket holds exactly its half-open interval: below $5M, $5M–$10M, $10M–$25M, $25M–$50M, $50M and above |
| CompanyFilter.StatesPresentUpToSpec | Scripts/sec_filter.py:132-137 | the loop has met no null state exactly when every company so far has a state |
| CompanyFilter.RunCounts | Scripts/sec_filter.py:132-161 | each removal counter counts the companies whose first failing test is its own, and as many are kept as pass |
| CompanyFilter.VerdictsPartition | Scripts/sec_filter.py:132-161 | every company gets exactly one verdict |
| CompanyFilter.NoneRaises | Scripts/sec_filter.py:137 | without null states nothing raises |
| CompanyFilter.StepCompanies | Scripts/sec_filter.py:161 | a turn appends the company exactly when it passes |
| CompanyFilter.RunKept | Scripts/sec_filter.py:132-161 | the kept companies are the passing ones, in input order |
| CompanyFilter.RunCounters | Scripts/sec_filter.py:163-180 | the counting loop leaves each counter well formed; the state and range counters each sum to the number kept and the industry counter to no more; every counted state is a target state (the count per key is `FilterCountsSpec`) |
| CompanyFilter.RunStateCounter | Scripts/sec_filter.py:164 | the state counter sums to the number kept and holds only target states |
| CompanyFilter.RunStateCounts | Scripts/sec_filter.py:164 | after the loop, the count of each state is the number of kept companies with that normalised state |
| CompanyFilter.RunRangeCounter | Scripts/sec_filter.py:166-176 | the funding-range counter sums to the number kept |
| CompanyFilter.RunRangeCounts | Scripts/sec_filter.py:166-176 | after the loop, the count of each funding range is the number of kept companies whose amount falls in it |
| CompanyFilter.RunIndustryCounter | Scripts/sec_filter.py:179-180 | only kept companies with an industry are counted by industry |
| CompanyFilter.RunIndustryCounts | Scripts/sec_filter.py:179-180 | after the loop, the count of each industry is the number of kept companies with that non-empty industry |
| CompanyFilter.FilterOfSpec | Scripts/sec_filter.py:109-182 | the removal counters and `final_count` add up to `initial_count`; the kept list is the passing companies in order; the state and range counts sum to `final_count` |
| CompanyFilter.FilterCountsSpec | Scripts/sec_filter.py:163-180 | in the output statistics, each state, funding range and industry is counted exactly as often as it occurs among the kept companies |
| CompanyFilter.KeptAreThoseMeetingCriteria | Scripts/sec_filter.py:132-161 | a company is kept exactly when it is in the input and meets every criterion |
| CompanyFilter.NullStateFound | Scripts/sec_filter.py:64 | a company with a null state makes the run raise |
| CompanyFilter.VerdictNonUs | Scripts/sec_filter.py:137-139 | a non-US company is removed by country |
| CompanyFilter.VerdictLowFunding | Scripts/sec_filter.py:142-145 | a US company below the minimum is removed by funding |
| CompanyFilter.VerdictWrongState | Scripts/sec_filter.py:148-152 | a funded company outside the target states is removed by location |
| CompanyFilter.VerdictExcluded | Scripts/sec_filter.py:155-158 | a company in an excluded industry is removed by industry |
| CompanyFilter.VerdictPass | Scripts/sec_filter.py:161-180 | a company passing all four tests is kept with its normalised state, funding and industry |
| CompanyFilter.Visit | Scripts/sec_filter.py:133-180 | the loop body raises exactly on a null state, and otherwise performs one turn of the run |
| CompanyFilter.RunNext | Scripts/sec_filter.py:132 | one more company advances the run by one turn |
| CompanyFilter.FilterCompanies | Scripts/sec_filter.py:75-182 | the run aborts exactly when some state is null; otherwise it computes `FilterOf` with the upper-cased state list |
| CompanyFilter.FilterWith | Scripts/sec_filter.py:109-182 | the filtering loop aborts exactly on a null state; otherwise it computes `FilterOf` |
| CompanyFilter.ProgressDone | Scripts/sec_filter.py:182 | after the last company, `final_count` is filled in and the result is `FilterOf` |
| CompanyFilter.VisitAt | Scripts/sec_filter.py:132-180 | the loop body at index `k` advances the run or reports a null state |
| Unique.NormalizeFieldSpec | Scripts/sec_unique.py:13-17 | a normalised field has no edge whitespace and no capitals, and normalising it again changes nothing |
| Unique.CreateDedupKeySpec | Scripts/sec_unique.py:20-45 | each key part is in normal form, and the address is empty exactly when all five address parts normalise to nothing |
| Unique.NonEmptyIsEmpty | Scripts/sec_unique.py:43 | `filter(None, parts)` is empty exactly when every part is empty |
| Unique.NameCaseIgnored | Scripts/sec_unique.py:28 | records differing only in the case or edge whitespace of their name get the same key |
| Unique.DedupRunSeen | Scripts/sec_unique.py:62-74 | `seen_keys` maps exactly the keys met so far, each to the first index with it |
| Unique.DedupRunUnique | Scripts/sec_unique.py:62-79 | the kept records are the first occurrences of their keys, one per entry of `seen_keys` |
| Unique.DedupRunCounts | Scripts/sec_unique.py:58-75 | kept plus duplicates is the input length; there are `min(duplicates, 5)` examples, each valid, in increasing duplicate index |
| Unique.DedupRunExamplesOrdered | Scripts/sec_unique.py:64-71 | the examples name duplicates seen so far, in increasing index order |
| Unique.DedupRunExamplesFirst | Scripts/sec_unique.py:64-71 | the examples are the first duplicates: any repeated record is listed while fewer than five are, and every repeated record up to the last listed one is listed |
| Unique.DedupRunSizes | Scripts/sec_unique.py:62-75 | kept plus duplicates is the input length, and the examples number `min(duplicates, 5)` |
| Unique.DedupRunExamples | Scripts/sec_unique.py:64-71 | each example names the duplicate, and its original index is the first with the same key and comes before it |
| Unique.DedupIdempotent | Scripts/sec_unique.py:58-75 | deduplicating the output again keeps every record and counts no duplicate |
| Unique.DeduplicateCompanies | Scripts/sec_unique.py:48-82 | `deduplicate_companies` keeps the first record per key, in order; kept plus duplicates is the input length; `unique_keys` is the number kept; `min(duplicate_count, 5)` valid examples in increasing index order |
| Unique.DedupWith | Scripts/sec_unique.py:58-75 | the loop's final variables are the fold `DedupRun` |
| Domain.FindMatch | Scripts/sec_domain_inference.py:81 | a found match lies within the string and starts at or after the search position |
| Domain.NoMatchAt | Scripts/sec_domain_inference.py:81 | no match starts at a position that fails the pattern |
| Domain.FindMatchNone | Scripts/sec_domain_inference.py:81 | with no result, no match starts at or after the position |
| Domain.FindMatchSome | Scripts/sec_domain_inference.py:81 | a result is a match, and no match starts before it |
| Domain.FindMatchIsMatch | Scripts/sec_domain_inference.py:81 | a result is a match |
| Domain.FindMatchLeftmost | Scripts/sec_domain_inference.py:81 | no match starts between the position and the result |
| Domain.SubSuffixSpec | Scripts/sec_domain_inference.py:37-81 | one substitution removes exactly the leftmost match of `,?\s+word$`, or nothing when there is none |
| Domain.SubSuffixChars | Scripts/sec_domain_inference.py:81 | a substitution only removes characters |
| Domain.SubSuffixesNoUpper | Scripts/sec_domain_inference.py:77-81 | suffix removal introduces no capitals |
| Domain.SqueezeStemChars | Scripts/sec_domain_inference.py:87-90 | squeezing keeps the string within the stem characters |
| Domain.SqueezeHyphens | Scripts/sec_domain_inference.py:90 | squeezing hyphen runs leaves no double hyphen |
| Domain.DropLeadingHyphensSpec | Scripts/sec_domain_inference.py:93 | the result has no leading hyphen and adds no double hyphen |
| Domain.DropTrailingHyphensSpec | Scripts/sec_domain_inference.py:93 | the result has no trailing hyphen and adds no double hyphen |
| Domain.TidySpec | Scripts/sec_domain_inference.py:83-93 | the clean-up steps turn any string without capitals into a stem |
| Domain.StripNoUpper | Scripts/sec_domain_inference.py:77 | stripping introduces no capitals |
| Domain.CleanNameSpec | Scripts/sec_domain_inference.py:68-95 | `clean_company_name` is `""` for `""`; otherwise the result has no whitespace, underscore, capital or double hyphen, and no hyphen at either end |
| Domain.MatchesSomeWordSpace | Scripts/sec_domain_inference.py:37-65 | every suffix match begins with whitespace or with a comma and whitespace |
| Domain.SubSuffixNoSpace | Scripts/sec_domain_inference.py:81 | a string without whitespace has no suffix match |
| Domain.SubSuffixesNoSpace | Scripts/sec_domain_inference.py:80-81 | suffix removal leaves a string without whitespace unchanged |
| Domain.SqueezeNoSeparator | Scripts/sec_domain_inference.py:87-90 | squeezing changes nothing without separators |
| Domain.SqueezeSingleHyphens | Scripts/sec_domain_inference.py:90 | squeezing changes nothing without double hyphens |
| Domain.StemIsFixpoint | Scripts/sec_domain_inference.py:68-95 | cleaning a stem gives it back |
| Domain.CleanNameIdempotent | Scripts/sec_domain_inference.py:68-95 | `clean_company_name` is idempotent |
| Domain.CleanCompanyName | Scripts/sec_domain_inference.py:68-95 | the method computes `CleanName` |
| Domain.RemoveSuffixes | Scripts/sec_domain_inference.py:80-81 | the suffix patterns are applied once each, in list order |
| Domain.Candidates | Scripts/sec_domain_inference.py:115-126 | one candidate per pattern, in order |
| Domain.CandidatesShape | Scripts/sec_domain_inference.py:115-126 | each candidate starts with the stem and ends with its pattern, with a `-` or `.` right after the stem and at most one character added between them |
| Domain.InsertAt | Scripts/sec_domain_inference.py:131 | `list.insert(i, x)` puts `x` at `min(i, len)` and leaves the other elements in order around it |
| Domain.PatternTailsDistinct | Scripts/sec_domain_inference.py:20-34 | the thirteen patterns add pairwise different tails |
| Domain.InsertDistinct | Scripts/sec_domain_inference.py:131 | inserting a new value keeps a list duplicate-free |
| Domain.RawCandidatesDistinct | Scripts/sec_domain_inference.py:112-131 | the candidates are pairwise different before deduplication |
| Domain.InferDomainsSpec | Scripts/sec_domain_inference.py:98-141 | no candidate for a missing, empty or uncleanable name or when no pattern is tried; otherwise every raw candidate, none twice, at most `max_patterns + 1` |
| Domain.InferDomainsDefault | Scripts/sec_domain_inference.py:20-126 | with five patterns, a hyphen-free stem gives `.com`, `.io`, `.co`, `.ai`, `.tech`, in that order |
| Domain.RawCandidatesDefault | Scripts/sec_domain_inference.py:115-126 | before deduplication, the first five patterns give a hyphen-free stem the five domains `.com`, `.io`, `.co`, `.ai`, `.tech`, in that order |
| Domain.InferDomainsHyphenated | Scripts/sec_domain_inference.py:129-131 | a hyphenated stem gets its hyphen-free `.com` second, whenever `.com` is tried |
| Domain.RawCandidatesHyphenated | Scripts/sec_domain_inference.py:129-131 | before deduplication, the hyphen-free `.com` is second |
| Domain.InferDomain | Scripts/sec_domain_inference.py:98-141 | `infer_domain` with its two loops computes `InferDomains` |
| Domain.BuildCandidates | Scripts/sec_domain_inference.py:115-126 | the pattern loop computes `Candidates` |
| Domain.UniqueDomains | Scripts/sec_domain_inference.py:133-139 | the `seen` loop keeps the first occurrence of each domain, in order |
| Domain.LastProcessedSpec | Scripts/sec_domain_inference.py:163-168 | the resume cursor is at most the length; the entry before it is processed, and none at or after it is |
| Domain.FindLastProcessedIndex | Scripts/sec_domain_inference.py:163-168 | the backward scan returns one past the last processed entry, or 0 |
| Domain.EnrichFrom | Scripts/sec_domain_inference.py:252-269 | every entry from the start on gets its inferred domains, unverified and unchecked; earlier entries are unchanged; the count is the entries from the start with a candidate |
| Domain.EnrichAt | Scripts/sec_domain_inference.py:253-269 | one entry is enriched in place, the others are untouched, and the result says whether it has a candidate |
| Domain.ResumeRun | Scripts/sec_domain_inference.py:220-269 | resuming from the cursor enriches every entry from it on; afterwards a non-empty list has nothing left to resume |
| Flatten.FundingAmountSpec | Scripts/sec_flatten.py:6-20 | the amount is a truthy numeric offering amount, else a truthy numeric amount sold, else 0.0; it is 0.0 exactly when neither is a truthy number |
| Flatten.NullOfferingFallsBack | Scripts/sec_flatten.py:10-17 | a null offering falls back to the amount sold here, while the filter's variant gives 0.0 |
| Flatten.FlattenCompanySpec | Scripts/sec_flatten.py:22-55 | the row carries the funding amount, `"$0"` as formatted amount whenever it is not positive, and the first person's name as primary contact, or `""` without persons |
| Flatten.FieldNamesDistinct | Scripts/sec_flatten.py:84-101 | the header names sixteen distinct columns |
| Flatten.TopRowsSpec | Scripts/sec_flatten.py:73-79 | the export is ordered by non-increasing funding; `top_n = 0` keeps all rows, a positive `top_n` keeps `min(top_n, len)` and a negative one `len + top_n` clipped at 0; the kept rows are a prefix of the sorted rows, none funded below a cut row, and come from the input |
| Flatten.RangeListed | Scripts/sec_flatten.py:128-134 | every funding range is one of the five listed |
| Flatten.RangesOfKeys | Scripts/sec_flatten.py:128-134 | the distribution has the five ranges as keys, in report order |
| Flatten.RangesOfTotal | Scripts/sec_flatten.py:136-147 | the five counts add up to the number of exported rows |
| Flatten.RangesOfCount | Scripts/sec_flatten.py:136-147 | each range counts exactly the rows whose funding falls in it |
| Flatten.CountRanges | Scripts/sec_flatten.py:136-147 | the counting loop computes `RangesOf` |
| Flatten.ConvertToCsv | Scripts/sec_flatten.py:57-147 | the exported rows are the top rows, and the distribution counts them |

## Left out

- File and directory I/O is not modelled: reading and writing JSON, CSV and TSV, `os.listdir`, `os.path.exists` and `save_checkpoint`. Inputs are in-memory sequences and outputs are returned values. A directory's file set and tables are fields of `Quarter.QuarterDir` and `FormD.DataDir`.
- pandas is not modelled. `merge` is a join over accession numbers that produces rows in pandas' order, NaN is `Cell.NaN`, and `to_numeric(errors='coerce')` is taken to agree with `clean_float`.
- Console output is not modelled: progress lines, rates, percentages, the statistics print-outs, the "sample" and "top 5" listings, and `sys.exit` codes.
- `f"${x:,.0f}"` money formatting is a parameter `dollars` of `Flatten.FlattenCompany`, because float formatting is outside the model.
- The percentage column of the statistics CSV is not modelled.
- `datetime.now()` is `Records.Clock`, and `datetime.strptime` is the injected `Quarter.DateParser`. Day numbers stand for dates, and a date-only value is taken at midnight.
- `float()` on text is modelled only for an optional sign, digits and an optional fraction around whitespace. Exponents, `inf`, `nan` and underscores are not accepted.
- Characters are ASCII-only. `str.lower`, `str.upper` and `isalpha` act on ASCII letters. `\w` is an ASCII letter, a digit or `_`. `\s` and `strip()` use Python's whitespace set below U+0100. `re.IGNORECASE` is not modelled, because the name is already lower-case.
- `str(value)` of a non-string field in `normalize_field` is not modelled, because the record fields are strings or `None`.
- A JSON key that is missing from a company record is not distinguished from `null`, except for the two funding amounts. The quarter builders always write every key, so the later stages see null for a missing value.
- Exceptions other than the modelled ones are not modelled: the null state in `sec_filter.py`, unparsable dates, a failed `float()`, and missing files. Examples are `KeyError` on a malformed document and a `TypeError` comparing a text amount in `sec_combine_quarters.py`.
- Domain.ResumeRun: the resumed loop in `sec_domain_inference.py` (lines 220-269) runs from the cursor up to `total_companies`, the length of the input file, but indexes the list read back from the output file. The model runs to the end of the list read back, which matches the source only when the two lengths agree. A shorter list read back would raise `IndexError`, and a longer one would leave its tail unenriched. The comparison of the input file with the output file is not modelled either.
- The checkpoint every 1000 entries and the `last_checkpoint` metadata in `sec_domain_inference.py` are not modelled.
- The `prediction_scores` placeholders are not modelled, because they are always null.
- Quarter.ProcessQuarterDirs: the outputs are tied to their quarter names, but not to `QuarterOf` of each directory. That equation is stated per directory by `Quarter.ProcessQuarter`.
