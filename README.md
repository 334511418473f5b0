# ICP screener: a Dafny model of its core

The screener is a single-page tool for account research. It imports a list of companies
from a CSV upload or from a company search, and normalises each one's website to a domain.
It then gathers evidence about the company through a search proxy and a page-fetch proxy,
and has a language model score it on six factors, A to F. The scores are stored as flat
database rows and rebuilt when the list is loaded again. The tool also builds the filters
for company and people searches, and pushes contacts with their email sequences to an
outreach platform.

The model covers these parts:

- the pure helpers of the screen component;
- domain normalisation;
- the six server routes that sit between the page and the outside services:
  - the search endpoint and its page-contents endpoint;
  - the language-model endpoint;
  - the outreach platform;
  - the people and company database;
  - plain page fetching.

Each route becomes a method or a function. The outside service is a function from the
attempt number (or the URL) to what that attempt produced. Each retry loop is a `while`
loop that records the waits it would sleep and is proved against a specification function
of those answers. Object state the page updates in place is a class: `CompanyList.Screening`
holds the company list and `OrderedMap.Table` the insertion-ordered `Map`. The string
surgery of the component is modelled operation by operation, with JavaScript's
`trim`, `split`, `indexOf`, `parseInt` and the specific regular expressions written out as
scanning functions. The properties the screener relies on are proved as lemmas:

- normalisation is idempotent and ignores scheme, `www.` and padding;
- flatten/rehydrate round trips;
- the error and retry behaviour of every route;
- the contents of the leads and filters.

Modules: `Wrappers`, `Text`, `Integers`, `Domain`, `Company`, `FitBand`, `FieldParser`,
`JsonCandidate`, `RowPatterns`, `ScoreRecord`, `ModelOutput`, `Evidence`, `Calibration`,
`CsvImport`, `OrderedMap`, `CompanyList`, `Filters`, `Outreach`, `Http`, `Exa`, `Claude`,
`Instantly`, `Crustdata`, `PageText`, `FetchPage`.

## Model

| member | source | states |
|---|---|---|
| Domain.Normalize | lib/supabase.js:15-24 | the result is lower case; the definition with the scheme test made case-insensitive (see Findings) |
| Domain.NormalizeAsWritten | lib/supabase.js:15-24 | `normalizeDomain` with its case-sensitive `startsWith('http')`; the result is lower case |
| Domain.Fallback | lib/supabase.js:22 | the `catch` branch (trim, lower case, drop `http(s)://`, `www.` and the path) gives lower-case text |
| Domain.WithScheme | lib/supabase.js:18 | an input starting with "http" is parsed as it is, any other gets "https://" in front |
| Domain.Hostname | lib/supabase.js:19 | `new URL(url).hostname`: the lower-cased host after the scheme, user information and port removed, or failure |
| Domain.PortOutOfRange | lib/supabase.js:19-22 | a port above 65535 makes the URL constructor throw, so the string fallback decides |
| Domain.NormalizeHost | lib/supabase.js:15-24 | every well-formed host normalises to itself minus one leading `www.` |
| Domain.PrefixInvariance | lib/supabase.js:14 | `vitalize.care`, `www.vitalize.care` and `https://vitalize.care` shapes: a host with `https://`, `http://` and/or `www.` in front normalises to the bare host |
| Domain.VitalizeExample | lib/supabase.js:14 | the example of the comment: each of the three spellings of vitalize.care gives vitalize.care |
| Domain.NormalizeIdempotent | lib/supabase.js:15-24 | a normalised domain is a fixed point: normalising twice is normalising once |
| Domain.SingleWww | lib/supabase.js:19 | only one leading `www.` is removed |
| Domain.NormalizeIgnoresPadding | lib/supabase.js:17 | white space around the input never changes the result |
| Domain.SameTrimSameResult | lib/supabase.js:17 | inputs with the same trim normalise alike |
| Domain.NormalizeSchemeHost | lib/supabase.js:18-20 | after any letters-then-`://` prefix that starts with "http" in any case, the host is kept minus one `www.` |
| Domain.NormalizeBareHost | lib/supabase.js:18-20 | a host without a scheme is parsed behind "https://" and loses one leading `www.` |
| Domain.NormalizeFallsBack | lib/supabase.js:21-22 | when the URL parser throws, the result is the string fallback |
| Domain.FallbackOfHost | lib/supabase.js:22 | the string fallback leaves a well-formed host as it is, minus one leading `www.` |
| Domain.NormalizeHasNoSlash | lib/supabase.js:19-22 | on one-line input no `/` survives in the result, whichever branch is taken |
| Domain.HostnameHasNoSlash | lib/supabase.js:19 | a parsed hostname has no `/` |
| Domain.WellFormedHostParses | lib/supabase.js:19 | `new URL(prefix + h).hostname` is `h` for a letter scheme prefix and a well-formed lower-case host whose last label starts with a letter |
| Domain.AsWrittenAgrees | lib/supabase.js:18 | the code as written and the corrected definition agree whenever the case-sensitive and case-insensitive "http" tests agree |
| Domain.UnrecognisedSchemeAsWritten | lib/supabase.js:18-20 | as written, a scheme not spelled "http…" in lower case gets a second scheme, and the hostname becomes that scheme |
| Domain.UpperSchemeAsWritten | lib/supabase.js:18 | as written, "HTTPS://" + host normalises to "https" |
| Domain.UpperSchemeCorrected | lib/supabase.js:18 | with the case-insensitive test, "HTTPS://" + host normalises to the host minus `www.` |
| Domain.NotBothSchemes | lib/supabase.js:22 | `^https?:\/\/` strips at most one of `http://` and `https://` |
| Company.Spread | components/ICPScreener.jsx:1386 | `{ ...a, ...b }`: both objects' members, those of `b` winning |
| Company.SpreadIdempotent | components/ICPScreener.jsx:1385-1387 | spreading the same fields twice is spreading them once |
| Company.SpreadTwice | components/ICPScreener.jsx:1385-1387 | two updates in a row are one update with the later fields winning |
| FitBand.ScoreBand | components/ICPScreener.jsx:1530 | 14 and up Strong, 10 to 13 Moderate, below 10 Weak, never Disqualified (both directions) |
| FitBand.ScoredFit | components/ICPScreener.jsx:1529-1534 | Disqualified exactly when the model says so or gives a reason other than "", "None", "none"; otherwise the score band |
| FitBand.ScoreBandMonotone | components/ICPScreener.jsx:1530 | a higher total never gives a lower band |
| FitBand.DisqualifiedWhateverTheScore | components/ICPScreener.jsx:1532-1533 | a disqualification holds for every total |
| FitBand.LoadedFit | components/ICPScreener.jsx:951 | a stored Disqualified stays; otherwise the band of the stored total, the stored label kept below 6 |
| FitBand.LoadShowsSavedFit | components/ICPScreener.jsx:951 | loading a saved score shows the band it was saved with |
| FitBand.LoadKeepsLowLabel | components/ICPScreener.jsx:951 | below 6 the stored label is kept even when the score would not give it |
| FitBand.VerdictColor | components/ICPScreener.jsx:256-258 | 3 green, 2 amber, anything else red (both directions) |
| FieldParser.ParseField | components/ICPScreener.jsx:1376-1380 | the corrected `parseField` (see Findings): '' when the label does not occur; the result is trimmed |
| FieldParser.FieldLine | components/ICPScreener.jsx:1377-1379 | with the corrected capture, a line `LABEL: v` (label in any case) followed by the end or the next label line gives `v` trimmed |
| FieldParser.FieldLineAsWritten | components/ICPScreener.jsx:1377-1379 | `parseField` as written gives the same `v` trimmed whenever `v` is not blank |
| FieldParser.FindLabelLeftmost | components/ICPScreener.jsx:1378 | the match starts at the leftmost case-insensitive occurrence of `FIELD:`, and none is found only when there is none |
| FieldParser.FieldEndFromIsFirst | components/ICPScreener.jsx:1377 | the lazy group stops at the first place where `\n[A-Z_]+:` or the end follows |
| FieldParser.CaptureClean | components/ICPScreener.jsx:1377 | the captured text holds no line that starts a new label |
| FieldParser.CaptureAsWritten | components/ICPScreener.jsx:1377 | the pattern as written, with the greedy `\s*` skipped first; fails exactly when the label is absent |
| FieldParser.AsWrittenAgrees | components/ICPScreener.jsx:1377 | the as-written and corrected captures trim alike whenever the white space after the label holds no new line |
| FieldParser.EmptyFieldAsWritten | components/ICPScreener.jsx:1377 | as written, an empty field followed by the next label returns that next line, not '' |
| FieldParser.EmptyFieldCorrected | components/ICPScreener.jsx:1377 | with the capture begun after the colon, the same empty field gives '' |
| JsonCandidate.StripOpenFence | components/ICPScreener.jsx:1513 | `/^[\s\S]*?```(?:json)?\s*/i`; the text is unchanged when it has no fence |
| JsonCandidate.StripCloseFence | components/ICPScreener.jsx:1513 | `/\s*```[\s\S]*$/i`; the text is unchanged when no closing pattern matches |
| JsonCandidate.FencedObject | components/ICPScreener.jsx:1511-1521 | prose, a fence with an optional `json` tag, an object and a closing fence: the candidate is exactly the object |
| JsonCandidate.PlainObject | components/ICPScreener.jsx:1514-1521 | an unfenced reply whose trim starts with `{` is handed to `JSON.parse` trimmed and whole |
| JsonCandidate.BracedSlice | components/ICPScreener.jsx:1514-1520 | otherwise the slice from the first `{` to the last `}`, or '' when the last `}` comes first |
| JsonCandidate.NoBraces | components/ICPScreener.jsx:1514-1521 | a reply without fences and braces is handed over trimmed |
| JsonCandidate.UnfencedCandidate | components/ICPScreener.jsx:1512-1521 | without fences the candidate is the trim of the text or of its brace slice |
| RowPatterns.MatchProduct | components/ICPScreener.jsx:922 | `/^(.+?)\s*\((.+?)\)$/`: a match is a decomposition the pattern accepts |
| RowPatterns.ProductMatchIsShortest | components/ICPScreener.jsx:922 | when any decomposition exists, one is found and its name is the shortest (the lazy group) |
| RowPatterns.NoParenNoProduct | components/ICPScreener.jsx:922-923 | a text without `(` never matches |
| RowPatterns.MatchFormattedProduct | components/ICPScreener.jsx:921-923 | matching `name (tag)` as flattened from a readable product gives the product back |
| RowPatterns.MatchFormattedChange | components/ICPScreener.jsx:905-907 | matching `name (date): before → after` as flattened from a readable change gives the change back |
| RowPatterns.NoParenNoChange | components/ICPScreener.jsx:906-907 | a change without `(` never matches |
| ScoreRecord.ProductsRoundTrip | components/ICPScreener.jsx:1557-1559 | products joined with ", " on save are split and matched back to the same list on load, when no product's text holds ", " |
| ScoreRecord.ChangesRoundTrip | components/ICPScreener.jsx:1552-1555 | changes joined with "; " on save come back as the same list, when no change's text holds "; " |
| ScoreRecord.StorableListRoundTrip | components/ICPScreener.jsx:871 | a "; "-joined list of items without the separator splits back to itself; '' only for the empty list |
| ScoreRecord.AudienceRoundTrip | components/ICPScreener.jsx:914-915 | a buyer/department/market audience joined with " — " comes back whole; '' only when absent |
| ScoreRecord.Take4 | components/ICPScreener.jsx:1575-1578 | at most the first four sections are stored, all of them when there are no more |
| ScoreRecord.OwnSections | components/ICPScreener.jsx:872-876 | factor A's sections come back as its first four, those without a name dropped |
| ScoreRecord.SectionSlots | components/ICPScreener.jsx:1543-1549 | factors B and C take their section names from factor A by position |
| ScoreRecord.SharedSectionsRoundTrip | components/ICPScreener.jsx:885-899 | sections stored under factor A's names come back whole when they carry the same names |
| ScoreRecord.FactorARoundTrip | components/ICPScreener.jsx:869-878 | factor A comes back whole exactly when it was scored at all |
| ScoreRecord.FactorBRoundTrip | components/ICPScreener.jsx:880-891 | factor B comes back whole when scored, given its sections carry factor A's names |
| ScoreRecord.FactorCRoundTrip | components/ICPScreener.jsx:893-901 | factor C likewise; it counts as scored with a verdict or a first orientation |
| ScoreRecord.FactorDRoundTrip | components/ICPScreener.jsx:903-910 | factor D comes back whole exactly when it has a verdict or changes |
| ScoreRecord.FactorERoundTrip | components/ICPScreener.jsx:912-917 | factor E comes back whole exactly when it has a verdict or a before audience |
| ScoreRecord.FactorFRoundTrip | components/ICPScreener.jsx:919-927 | factor F comes back whole exactly when it has a verdict or products |
| ScoreRecord.RehydrateFlatten | components/ICPScreener.jsx:865-955 | saving then loading gives back the total, the saved band, reason, summary, the six factor scores and verdicts, and every scored factor |
| ScoreRecord.UnmatchedProduct | components/ICPScreener.jsx:923 | a stored product without a match comes back as its whole text with tag "module" |
| ScoreRecord.UnmatchedChange | components/ICPScreener.jsx:907 | a stored change without a match comes back as its whole text with empty parts |
| ScoreRecord.Named | components/ICPScreener.jsx:876 | `.filter(s => s.name)`: the named sections, in order, drawn from the input |
| ModelOutput.ReplyOfJson | components/ICPScreener.jsx:1527-1626 | a reply whose candidate parses is stored as its flattened scoring |
| ModelOutput.ReplyOfText | components/ICPScreener.jsx:1627-1653 | a reply that does not parse is stored by the field-parser fallback and loads with no factor details |
| ModelOutput.ReplyRoundTrip | components/ICPScreener.jsx:1511-1653 | a parsed storable scoring loads back with its total, the band it was saved with, its reason and summary, all six factor scores and verdicts, and every scored factor |
| ModelOutput.LegacyFit | components/ICPScreener.jsx:1628-1633 | the fallback's band: Disqualified exactly when ICP_FIT says so or the reason is disqualifying, else the band of TOTAL_SCORE |
| ModelOutput.LegacyLoadsBare | components/ICPScreener.jsx:1634-1652 | a fallback row loads with its total, band and six factor scores, empty verdicts and no factor details |
| ModelOutput.ScoreLine | components/ICPScreener.jsx:1628 | a labelled line holding a number gives that number to the fallback |
| ModelOutput.EmptyReasonAsWritten | components/ICPScreener.jsx:1630-1631 | as written, an empty DISQUALIFICATION_REASON before another label disqualifies whatever the score |
| ModelOutput.EmptyReasonCorrected | components/ICPScreener.jsx:1630-1631 | with the corrected capture the reason is '' and the band is decided by ICP_FIT and the score |
| Integers.ParseIntOrZero | components/ICPScreener.jsx:1628 | `parseInt(t, 10) || 0`: no digits gives 0 |
| Integers.ParseDecimal | components/ICPScreener.jsx:1628 | a rendered number followed by a non-digit reads back as itself |
| Integers.ParseNegativeDecimal | components/ICPScreener.jsx:1628 | the same behind a minus sign |
| Integers.NoDigitsIsZero | components/ICPScreener.jsx:1628 | text that does not start with (signed) digits reads as 0 |
| Integers.DecimalValue | components/ICPScreener.jsx:1089 | the rendered digits of `n` read back as `n` |
| Integers.DecimalInjective | components/ICPScreener.jsx:1089 | different numbers render differently |
| Text.Trim | lib/supabase.js:17 | `trim()`: no white space at either end, '' exactly for all-space input |
| Text.TrimPadded | lib/supabase.js:17 | `trim()` ignores white space added around its input |
| Text.TrimIdempotent | lib/supabase.js:17 | trimming twice is trimming once |
| Text.IndexOf | components/ICPScreener.jsx:1515 | `indexOf`: the first occurrence, or none at any index |
| Text.LastIndexOfChar | components/ICPScreener.jsx:1516 | `lastIndexOf`: the last occurrence, or none |
| Text.ReplaceFirst | app/api/fetch-page/route.js:12 | `replace` with a string pattern replaces only the first occurrence, none when absent |
| Text.NonEmpty | components/ICPScreener.jsx:871 | `filter(Boolean)`: exactly the non-empty parts |
| Text.SplitJoin | components/ICPScreener.jsx:871 | `split` undoes `join` when the parts separate cleanly |
| Evidence.FormatResults | components/ICPScreener.jsx:1081-1091 | `formatExaResults` is never empty |
| Evidence.NoResultsExactly | components/ICPScreener.jsx:1082 | the placeholder stands exactly for an empty result list |
| Evidence.EntryNumbered | components/ICPScreener.jsx:1089 | entry `i` opens with `[i+1] ` |
| Evidence.ResultsSplitBack | components/ICPScreener.jsx:1083-1090 | with no `---` inside an entry, splitting the text on the separator gives back the entries |
| Evidence.ContentPriority | components/ICPScreener.jsx:1084-1087 | an entry's body is the text, else the highlights (which split back on new lines), else the summary |
| Evidence.HomepageParts | components/ICPScreener.jsx:1201-1213 | the homepage text is the first result's; subpages are rendered exactly when there are some |
| Evidence.SubpagesPreferred | components/ICPScreener.jsx:1204-1208 | a main page carrying a `subpages` array makes the other results irrelevant |
| Evidence.ResultsAsSubpages | components/ICPScreener.jsx:1204-1208 | without one, the other results are the subpages, in order |
| Evidence.PagesSplitBack | components/ICPScreener.jsx:1209-1212 | the rendered subpages split back into their entries |
| Evidence.PageEntryOpens | components/ICPScreener.jsx:1209-1212 | a subpage entry opens with `PAGE: ` |
| Evidence.DocumentOpensWithHomepage | components/ICPScreener.jsx:1216-1250 | the research document opens with the homepage section headed by the crawled URL |
| Calibration.GroupExamples | components/ICPScreener.jsx:1489-1493 | the grouping loop builds exactly the grouped examples |
| Calibration.GroupedDomains | components/ICPScreener.jsx:1491 | a domain has a group exactly when some example has that domain |
| Calibration.GroupedFirst | components/ICPScreener.jsx:1491 | a group carries the name and research of the domain's first example |
| Calibration.GroupedInOrder | components/ICPScreener.jsx:1494 | the groups are listed in the order their domains first appear |
| Calibration.GroupedFactors | components/ICPScreener.jsx:1492 | a group holds a factor exactly when an example corrects it, with the last such example's score and justification |
| Calibration.Abbreviated | components/ICPScreener.jsx:1496 | `(snapshot || '').slice(0, 1500)`: a prefix of at most 1500 characters, the whole when shorter |
| Calibration.BuildTrainingSection | components/ICPScreener.jsx:1483-1504 | the `+=` loops build exactly the specified section |
| Calibration.SectionFramed | components/ICPScreener.jsx:1484-1503 | the section is '' exactly without examples; otherwise it opens with the header and closes with the footer |
| CsvImport.ParseCsv | components/ICPScreener.jsx:1271-1327 | `parseCSV` gives the specified companies, or the error it throws |
| CsvImport.FailsWithoutWebsite | components/ICPScreener.jsx:1276-1277 | the import fails, with the source's message, exactly when no header names a website/url/homepage/domain column |
| CsvImport.ScanLine | components/ICPScreener.jsx:1279-1291 | the scanner loop yields the line's raw values, each cleaned as it is pushed |
| CsvImport.SplitLine | components/ICPScreener.jsx:1285-1291 | the values of a line, trimmed and unquoted |
| CsvImport.ReadCells | components/ICPScreener.jsx:1285-1291 | a line of readable cells reads back as the cells' trimmed contents; a quoted comma does not split |
| CsvImport.QuotedComma | components/ICPScreener.jsx:1285-1291 | `"Acme, Inc",acme.com` reads as two values |
| CsvImport.FieldsNoQuote | components/ICPScreener.jsx:1286-1288 | no value keeps a double quote |
| CsvImport.Headers | components/ICPScreener.jsx:1273 | the header line split on every comma, names trimmed, lower-cased, unquoted |
| CsvImport.FindIndexFirst | components/ICPScreener.jsx:1274-1277 | `findIndex` returns the first matching header |
| CsvImport.ReadRow | components/ICPScreener.jsx:1292-1324 | one loop turn pushes the specified row |
| CsvImport.ReadRows | components/ICPScreener.jsx:1279-1325 | the loop over the data lines collects their rows in order |
| CsvImport.SkippedLine | components/ICPScreener.jsx:1280-1293 | a blank line, or one whose website cell is empty, adds no company |
| CsvImport.NameOfRow | components/ICPScreener.jsx:1294-1301 | a non-empty name cell names the company; otherwise the website gives the name |
| CsvImport.NewCompanyState | components/ICPScreener.jsx:1302-1324 | a new company is pending and cold, with the name and website it was read with |
| CsvImport.NewCompanyUnscored | components/ICPScreener.jsx:1302-1324 | a new company has every score 0 |
| CsvImport.NewCompanyBlank | components/ICPScreener.jsx:1302-1324 | a new company has every research and scoring text empty |
| CsvImport.RowsFresh | components/ICPScreener.jsx:1279-1325 | every imported company is fresh, and there are no more companies than data lines |
| OrderedMap.Table.Set | components/ICPScreener.jsx:1362 | `map.set`: a new key is appended, an old key keeps its place |
| OrderedMap.PutWellFormed | components/ICPScreener.jsx:1362 | setting keeps one entry per key and the earlier keys in front |
| OrderedMap.Values | components/ICPScreener.jsx:1365 | `Array.from(map.values())`: the values in key order |
| CompanyList.MergeCsv | components/ICPScreener.jsx:1357-1366 | the merge loop builds the specified list |
| CompanyList.Screening.LoadCsv | components/ICPScreener.jsx:1357-1366 | the upload handler replaces the list by the merge of the parsed companies |
| CompanyList.CompleteKept | components/ICPScreener.jsx:1361 | a `complete` company already listed is never replaced |
| CompanyList.LastParsedWins | components/ICPScreener.jsx:1359-1363 | otherwise the last parsed company with that domain is kept |
| CompanyList.Untouched | components/ICPScreener.jsx:1359-1363 | a domain no parsed company has keeps what it had, or stays absent |
| CompanyList.ParsedKeysPresent | components/ICPScreener.jsx:1359-1363 | every parsed and every listed domain is in the merged list |
| CompanyList.KeysExtended | components/ICPScreener.jsx:1358-1365 | listed companies keep their places in front; new domains follow |
| CompanyList.OnePerDomain | components/ICPScreener.jsx:1358-1365 | the merged list has one company per domain |
| CompanyList.PendingSelection | components/ICPScreener.jsx:1737 | the batch run selects exactly the pending or errored companies, in increasing order |
| CompanyList.Screening.Update | components/ICPScreener.jsx:1385-1387 | `updateCompany` spreads the fields over the company at `index` |
| CompanyList.UpdateSets | components/ICPScreener.jsx:1386 | an update sets the given members, keeps the others and touches no other company |
| CompanyList.UpdateIdempotent | components/ICPScreener.jsx:1386 | applying the same update twice is applying it once |
| CompanyList.UpdateKeepsPending | components/ICPScreener.jsx:1386 | an update that sets no `status` leaves the batch selection as it was |
| CompanyList.NewProspectsExact | components/ICPScreener.jsx:1916-1919 | discovery keeps exactly the results with a domain no listed company has |
| CompanyList.ToAdd | components/ICPScreener.jsx:2006 | the selected results, or all of them |
| CompanyList.Screening.AddDiscovered | components/ICPScreener.jsx:2005-2025 | `addDiscoveredToQueue` appends the queued companies to the list |
| CompanyList.QueuedFresh | components/ICPScreener.jsx:2007-2019 | every queued company is pending, selected, and not already listed |
| CompanyList.EnqueuedPending | components/ICPScreener.jsx:2014 | a queued company starts out pending |
| Filters.BuildCrustdataFilters | components/ICPScreener.jsx:1808-1855 | `buildCrustdataFilters` builds the specified filter |
| Filters.RowConditions | components/ICPScreener.jsx:1812-1842 | one loop turn pushes the row's conditions |
| Filters.DiscoveryRow | components/ICPScreener.jsx:1812-1842 | a row gives at most two conditions, none when unknown or blank, one unless it is the range row |
| Filters.EmployeeRangeRow | components/ICPScreener.jsx:1828-1840 | employee ranges become count bounds on the latest count; the range field is never sent |
| Filters.EmployeeBounds | components/ICPScreener.jsx:1828-1840 | the range loop's `globalMin`/`globalMax` are the specified bounds |
| Filters.RangeBoundsExtremes | components/ICPScreener.jsx:1828-1840 | the low bound is the least low end; the high bound the greatest high end, dropped once a label has none |
| Filters.RangeEnds | components/ICPScreener.jsx:1828-1834 | only `10001+` and unknown labels lack a high end; only unknown labels lack a low end |
| Filters.DiscoveryExcludesKnown | components/ICPScreener.jsx:1846-1855 | the filter is null exactly when no row contributes and no domain is known; otherwise the known domains are excluded last |
| Filters.ExistingDomainsExact | components/ICPScreener.jsx:1846 | exactly the truthy listed domains are excluded |
| Filters.BuildLinkedInFilters | components/ICPScreener.jsx:770-797 | `buildLinkedInFilters` builds the specified list |
| Filters.LinkedinFiltersShaped | components/ICPScreener.jsx:770-797 | at most one filter per row, each of an accepted shape |
| Filters.BuildPeopleFilters | components/ICPScreener.jsx:2085-2140 | `buildPeopleFilters` builds the specified filter |
| Filters.PeopleCompanyFirst | components/ICPScreener.jsx:2092-2105 | a filter exists exactly when a domain is selected; it opens with `=` for one domain, `in` for several |
| Filters.CommaList | components/ICPScreener.jsx:2111 | `split(',').map(trim).filter(Boolean)` keeps no empty value |
| Filters.CommaOnlyTitlesAsWritten | components/ICPScreener.jsx:2110-2119 | as written, titles "," give an `or` group of no conditions |
| Filters.TitleGroupsHaveTwo | components/ICPScreener.jsx:2110-2119 | the corrected title conditions make every `or` group hold at least two titles |
| Outreach.ExtractEmail | components/ICPScreener.jsx:2336-2362 | the lookup loops give the specified business email |
| Outreach.EmailPriority | components/ICPScreener.jsx:2339-2362 | top level first, then current employers, then past employers |
| Outreach.FirstKeyIsFirst | components/ICPScreener.jsx:2346-2350 | the first key of the first employer with keys; '' when none has any |
| Outreach.NameSplit | components/ICPScreener.jsx:2670-2672 | words separated by single spaces split into the first word and the rest joined by spaces |
| Outreach.OneWordName | components/ICPScreener.jsx:2670-2672 | a one-word name is all first name |
| Outreach.SortBySteps | components/ICPScreener.jsx:2659 | sorted by step, and a permutation of the input |
| Outreach.EmailSequenceExact | components/ICPScreener.jsx:2657-2659 | the sequence holds exactly the email messages, in step order, each as often as given |
| Outreach.BuildVariables | components/ICPScreener.jsx:2661-2665 | the `forEach` builds exactly the specified variables |
| Outreach.VariablesExact | components/ICPScreener.jsx:2661-2665 | message `n` of the sequence fills `email_n_subject` and `email_n_body`, and nothing else is set |
| Outreach.TemplateNamesDistinct | components/ICPScreener.jsx:2663-2664 | no two variables, and no variable and fixed member, share a name |
| Outreach.LeadFields | components/ICPScreener.jsx:2677-2683 | a lead carries its contact's email, split name, company, title and profile |
| Outreach.LeadTemplates | components/ICPScreener.jsx:2685 | a lead carries message `n` as template `n` and no other template variable |
| Outreach.LeadsPerContact | components/ICPScreener.jsx:2645-2687 | one lead per contact with an email, in order; without one, the source's message |
| Outreach.NextStepFresh | components/ICPScreener.jsx:2595 | the new step exceeds every existing one and follows the greatest; 1 for none |
| Outreach.NextStepAdvances | components/ICPScreener.jsx:2595 | adding that message makes the next step one greater |
| Http.Waits | app/api/exa/route.js:51 | the waits of `n` retried attempts are `2^(k+1) * unit` |
| Http.BackoffIncreasing | app/api/claude/route.js:43 | the waits strictly increase |
| Http.Schedules | app/api/claude/route.js:43 | the search routes wait 4, 8, 16 s; the model route 60, 120, 240 s |
| Exa.Retry | app/api/exa/route.js:32-72 | the attempt loop gives the specified outcome and records one wait per retried attempt |
| Exa.Retried | app/api/exa/route.js:47-66 | the attempts retried are the leading ones with 429, 5xx or a timeout |
| Exa.ExhaustedIff | app/api/exa/route.js:72 | 429 exactly when all three attempts are retried, with the last error |
| Exa.ForwardsFirstOk | app/api/exa/route.js:59 | the first OK answer is forwarded unchanged |
| Exa.RefusalPassesStatus | app/api/exa/route.js:56 | a refusal that is not retried keeps the upstream status and the error or `Exa API error: <status>` |
| Exa.BuildSearchBody | app/api/exa/route.js:14-29 | `type` "auto", 10 results by default, each optional member copied only when truthy |
| Exa.IfGiven | app/api/exa/route.js:20-22 | a text member is copied exactly when non-empty |
| Exa.Search | app/api/exa/route.js:1-77 | the key, then the query, are checked before any attempt; otherwise the attempt loop decides |
| Exa.BuildContentsBody | app/api/exa-contents/route.js:14-23 | the urls as `ids`, and every option that is not `undefined` |
| Exa.Contents | app/api/exa-contents/route.js:1-70 | the key, then the `urls` array, are checked before any attempt; otherwise the attempt loop decides |
| Claude.ResolveKey | app/api/claude/route.js:5-9 | the request's key wins over the environment's; neither gives none |
| Claude.BuildBody | app/api/claude/route.js:11-23 | default model and token limit, one user message, `system` and `tools` only when asked |
| Claude.Retry | app/api/claude/route.js:26-65 | the attempt loop gives the specified outcome and records one wait per retried attempt |
| Claude.Retried | app/api/claude/route.js:41-55 | the attempts retried are the leading ones with a rate-limit or overload body |
| Claude.Handle | app/api/claude/route.js:1-70 | no attempt without a key; otherwise the body is posted and the loop decides |
| Claude.RetryDecidedByBody | app/api/claude/route.js:41-55 | retrying depends on the body only, and only on an error body |
| Claude.ExhaustedIff | app/api/claude/route.js:65 | 429 exactly when all three attempts are retried |
| Claude.SettleCases | app/api/claude/route.js:57-61 | a body without a truthy error is delivered unchanged; an error not retried answers 400 |
| Claude.OverloadedMessageRetried | app/api/claude/route.js:41 | an error message "Overloaded" is retried, since only `verloaded` is looked for |
| Instantly.Plan | app/api/instantly/route.js:6-79 | the token is checked before the action; unknown actions are refused with their name |
| Instantly.CheckLeads | app/api/instantly/route.js:18-35 | leads go out exactly with a campaign and 1 to 1000 leads, flagged; otherwise 400 |
| Instantly.ErrorMessage | app/api/instantly/route.js:52 | `data.message || data.error || Instantly API error: <status>` |
| Instantly.Finish | app/api/instantly/route.js:48-56 | forwarded exactly when OK; a refusal keeps the status and a non-empty message |
| Instantly.AcceptedBatches | app/api/instantly/route.js:20-35 | exactly the batches of 1 to 1000 leads with a campaign reach the upstream, unchanged and flagged |
| Instantly.CampaignCheckedFirst | app/api/instantly/route.js:20-24 | a request lacking both campaign and leads is refused for its campaign |
| Instantly.NoTokenNoCall | app/api/instantly/route.js:7-9 | without a token the route answers 500 whatever the request |
| Instantly.FailureKeepsStatus | app/api/instantly/route.js:70-73 | a refused list call keeps the upstream's status |
| Crustdata.Dispatch | app/api/crustdata/route.js:7-97 | the token, then the action, choose the endpoint and payload (or the enrichment query, or 400) |
| Crustdata.Defaults | app/api/crustdata/route.js:17-59 | each posting action's endpoint and default limit, sorts, page and query |
| Crustdata.NumberOr | app/api/crustdata/route.js:22 | `x || fallback` for a number |
| Crustdata.CursorOnlyWhenGiven | app/api/crustdata/route.js:38 | the searches carry a cursor exactly when a truthy one was given |
| Crustdata.EnrichQuery | app/api/crustdata/route.js:63-66 | the `qp.set` calls build the specified query |
| Crustdata.EnrichKeys | app/api/crustdata/route.js:63-66 | a key enters the query exactly when its parameter is truthy, once at most |
| Crustdata.FinishEnrich | app/api/crustdata/route.js:81-94 | a 404 becomes a 200 carrying "Profile not found. " and the text; forwarded exactly when OK |
| Crustdata.FinishPost | app/api/crustdata/route.js:106-141 | forwarded exactly when OK; a refusal keeps its status; an abort gives 504, another throw 500 |
| Crustdata.EnrichNotFoundIsOk | app/api/crustdata/route.js:81-91 | an unknown profile answers 200; other refusals keep the upstream status |
| Crustdata.OnlyPostsTimeOut | app/api/crustdata/route.js:117-124 | only a posted payload can answer 504; an enrichment that throws answers 500 |
| Crustdata.Handle | app/api/crustdata/route.js:6-145 | the whole route on the answers to the posted payload and to the enrichment |
| FetchPage.Variants | app/api/fetch-page/route.js:10-19 | the URL; then without its first `www.` or with `www.` added; then over http, exactly for https URLs |
| FetchPage.Variations | app/api/fetch-page/route.js:10-19 | the pushes build the specified variants |
| FetchPage.SecondVariantDiffers | app/api/fetch-page/route.js:11-15 | the second variant repeats the URL only when it has neither `www.` nor `://` |
| FetchPage.TryInOrder | app/api/fetch-page/route.js:21-44 | the page of the first URL served, and the error of the attempt before it |
| FetchPage.CollectLinks | app/api/fetch-page/route.js:59-69 | the link loop keeps exactly the specified links |
| FetchPage.KeptLinkTagless | app/api/fetch-page/route.js:65 | a kept link's text is its inner HTML without tags, trimmed |
| FetchPage.KeptLinksClean | app/api/fetch-page/route.js:66 | kept links have text and an href not starting with `#` or `javascript:` |
| FetchPage.AnnouncementLinks | app/api/fetch-page/route.js:107-114 | at most ten links, each an announcing one from the page |
| FetchPage.AnnouncementsInOrder | app/api/fetch-page/route.js:107-114 | the announcement links keep the page's order and are its first ten announcing links |
| FetchPage.CollectBanners | app/api/fetch-page/route.js:82-90 | the loops over the expressions collect the specified banners |
| FetchPage.BannersBounded | app/api/fetch-page/route.js:86 | every banner is longer than 5 and shorter than 200 characters |
| FetchPage.PageOf | app/api/fetch-page/route.js:93-122 | the text is a prefix of at most 8000 characters; `charCount` the full length; at most ten announcement links |
| FetchPage.Handle | app/api/fetch-page/route.js:1-122 | 400 without a URL; the first page served, or 400 with the last error |
| PageText.ExtractText | app/api/fetch-page/route.js:52-102 | the replace chain gives the specified page text |
| PageText.StripBlocks | app/api/fetch-page/route.js:53-57 | a block removal never lengthens the text, and leaves text without the opening alone |
| PageText.StripTagsTagless | app/api/fetch-page/route.js:94 | no tag survives the tag replacement |
| PageText.CleanedShape | app/api/fetch-page/route.js:101-102 | the text has no white space at its ends and only single plain spaces inside |
| PageText.EscapedTagSurvives | app/api/fetch-page/route.js:94-100 | decoding after tag removal turns `&lt;b&gt;` back into a tag |
| PageText.DoubleDecoding | app/api/fetch-page/route.js:96-97 | `&amp;lt;` is decoded twice, to `<` |
| PageText.Truncated | app/api/fetch-page/route.js:105 | `slice(0, 8000)`: a prefix of at most 8000 characters, the whole when shorter |

## Left out

- Network calls, timers and sleeps are not performed. Each outside service is a function parameter giving the answer to the n-th attempt or to a URL. Waits are recorded, not slept.
- `request.json()` failing and `response.json()` on a body that is not JSON are not modelled. Both are caught by the outer `catch` and answer 500. The model's `Threw` attempts cover the throws it names.
- The outer `catch` of the search routes, including the `TimeoutError` name test of fetch-page at app/api/fetch-page/route.js:127, is not modelled. Only the attempt-level throws are.
- Header values, the User-Agent, the abort controllers and `URLSearchParams` percent-encoding are left out. The enrichment query is a list of key/value pairs.
- JSON values are abstract type parameters. `JSON.parse` of the model's reply is an oracle parameter (`string -> Option<…>`), and so is `JSON.stringify` of the factor panels.
- In requests, an absent or empty text member is "" and an absent count is 0. This follows JavaScript truthiness.
- The link and banner regular expressions of fetch-page are inputs: the matches they yield. The filters and cleaning applied to each match are modelled.
- `new URL()` is modelled for `scheme://[userinfo@]host[:port][/…]` with ASCII hosts only. Percent-decoding, IDNA (including the check of `xn--` labels), IPv6 literals and special-scheme rules are left out.
- Domain.Hostname: a host whose last label is a number is returned as written. The WHATWG parser reads such a host as an IPv4 address: it rewrites "123" as "0.0.0.123" and throws on "a.123". `WellFormedHost` requires the last label to start with a letter, so no lemma about well-formed hosts depends on this gap.
- Domain.Hostname: the tabs and new lines that the WHATWG parser deletes from anywhere in the URL are kept. A tab or new line in the host makes the model reject it as a forbidden character, where the parser would drop it first.
- CompanyList.Screening.LoadCsv: it keys companies by the corrected `Domain.Normalize`, not by `normalizeDomain` as written. As written, "HTTPS://a.com" and "HTTPS://b.com" both key as "https" and merge into one company (see Findings).
- FieldParser.ParseField: this is the corrected capture, begun after the colon. `parseField` as written is `ParseFieldAsWritten`; the two agree whenever the white space after the label holds no new line (`AsWrittenAgrees`, `FieldLineAsWritten`).
- ModelOutput.LegacyRow: it reads its fields with the corrected `ParseField`, and so do `LegacyScore` and `ScoreReply`. The lemmas `LegacyFit`, `ReplyOfText` and `LegacyLoadsBare` are about this reading. As written, an empty field followed by a label line reads as that line, so `DISQUALIFICATION_REASON:\nSCORE_SUMMARY: good` yields a reason and disqualifies a total of 16 (see Findings).
- Filters.BuildPeopleFilters: it uses the corrected `TitleConditions`, and so does `Filters.PeopleFilter`. As written, titles "," push an `or` group with no conditions (`CommaOnlyTitlesAsWritten`, see Findings).
- PageText.Truncated: lengths count Unicode scalar values. JavaScript's `length` and `slice` count UTF-16 code units, so text with characters outside the Basic Multilingual Plane is cut and counted differently.
- FetchPage.PageOf: `charCount` and the 8000-character cut count Unicode scalar values, not UTF-16 code units.
- FetchPage.Keep: the length bounds 5 and 200 count Unicode scalar values, not UTF-16 code units.
- FetchPage.BannersBounded: the same counting in Unicode scalar values, not UTF-16 code units.
- Calibration.Abbreviated: the 1500-character cut counts Unicode scalar values, not UTF-16 code units.
- `toLowerCase`, `trim` and `\s` use ASCII case mapping and ECMAScript white space. There is no Unicode case mapping.
- Floating point (`parseFloat`, `Number`, `toFixed`) is left out. Counts are integers, and the funding label of a queued company is an input.
- Database reads and writes (`upsertCompany`, research runs, campaign tables) are left out, and so are dates and logging.
- React state, rendering and the concurrent worker pool of the batch run are left out. The selection of pending companies is modelled, the scheduling is not.
- The prompts sent to the model are left out, except the calibration section and the evidence document.
- Instantly.Handle: the route composed of `Plan` and `Finish`. Its contract is stated through `NoTokenNoCall` and `FailureKeepsStatus`.
- Evidence.BodiesNonEmpty: every section of the research document has a non-empty body. It follows from the ensures of `FormatResults`.
- The code, not the prose description, is followed in four places:
  - decoded page text can contain tags again (`EscapedTagSurvives`);
  - the model route has no `try` inside its loop, so a thrown fetch answers 500 at once;
  - an OK page with an empty body counts as a failed attempt;
  - an unknown employee-range label also clears the upper bound.

## Findings

| source | as written | input that shows it | evidently intended | confidence | as-written member | corrected member |
|---|---|---|---|---|---|---|
| lib/supabase.js:18 | the scheme test `startsWith('http')` is case-sensitive, so "HTTPS://x.com" gets "https://" prepended and parses to host "https" | `HTTPS://vitalize.care` gives `https` | an upper-case scheme is recognised like a lower-case one, giving `vitalize.care` | not executed | Domain.UpperSchemeAsWritten | Domain.UpperSchemeCorrected |
| components/ICPScreener.jsx:1377 | `FIELD:\s*` is greedy, so an empty field's `\s*` eats the new line and the lazy group runs on through the next label line | `SCORE_SUMMARY:\nICP_FIT: Strong` gives `ICP_FIT: Strong` for SCORE_SUMMARY | an empty field gives '' | not executed | FieldParser.EmptyFieldAsWritten | FieldParser.EmptyFieldCorrected |
| components/ICPScreener.jsx:1630-1631 | through the same capture, an empty DISQUALIFICATION_REASON followed by a label line becomes that line, which counts as a reason | `DISQUALIFICATION_REASON:\nSCORE_SUMMARY: good` disqualifies a score of 16 | no reason given means no disqualification | not executed | ModelOutput.EmptyReasonAsWritten | ModelOutput.EmptyReasonCorrected |
| components/ICPScreener.jsx:2110-2119 | the guard tests the raw titles text, while the list is a filtered split, so a lone comma yields an `or` group with no conditions | titles `,` | no title condition for a text with no titles | not executed | Filters.CommaOnlyTitlesAsWritten | Filters.TitleGroupsHaveTwo |
