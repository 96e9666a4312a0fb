# Survey dashboard build: a verified model of the aggregation

The PA Unplugged EdTech survey dashboard is rebuilt by one script, `scripts/build-data.js`. The script fetches the survey sheet and treats its first row as headers. It then makes one pass over the answer rows and writes `public/data/dashboard.json`, which holds:

- the number of responses;
- responses per county;
- the screen-time sentiment counts;
- the "Yes"/"No" counts for "do you have concerns";
- the counts of each concern and each preferred policy.

The open-ended maps (counties, concerns, policies) are written in descending order of count.

This project models that script in Dafny:

- **Text** (`text.dfy`): JavaScript's `trim` and `split(',')`, and `parseMultiSelect`. The cut-and-rejoin round trip is proved, and so is the fact that answers keep their order.
- **Counts** (`counts.dfy`): a count object is kept as its ordered list of entries, so insertion order is part of the model.
  - `Incremented` is `increment`, and `Bumped` is `obj[k]++`.
  - `CountMap` is an object updated in place. Its methods are proved equal to those functions.
- **Ranking** (`ranking.dfy`): `Object.entries(m).sort(([, a], [, b]) => b - a)` as a stable insertion sort. The result is proved to be:
  - non-increasing;
  - a permutation of the input;
  - stable on ties;
  - unchanged in every key's count.
- **Columns** (`columns.dfy`): `colIndex` (as a function and as the `forEach` loop that fills it) and `getCell`.
- **Aggregate** (`aggregate.dfy`): the body of the row loop as the function `Step`, and the loop as the fold `Aggregated`.
  - Each bucket is proved equal to an independent count over the rows (`Sum` of a `Measure`).
  - An invariant, `Consistent`, holds in every state the loop reaches.
- **BuildData** (`build_data.dfy`): `main` and `writeOutput`.
  - `BuildDashboard` runs the row loop imperatively over five `CountMap` objects. It is proved to produce exactly `DashboardOf`.
  - Lemmas state what the written document contains.
- **Example** (`example.dfy`): the document for a sheet with one answer row, worked out in full.

Inputs the script reads from outside are parameters of the model:

- the sheet rows, as `Option<seq<Option<Row>>>`, since the sheet may return no `values` and a row may be missing;
- the configured `sentimentFields`;
- the timestamp `generated`.

Points where the script's behaviour is easy to misread:

- **Blank rows.** A row is skipped only when it is missing or every cell is exactly `""` (`row.every(c => !c)`). A row whose cells hold only spaces is still counted as a response.
- **Multi-select cells.** These are cut at commas, each piece is trimmed, and empty pieces are dropped. Every remaining label except `"Other"` is counted under its own text, whatever it is.
- **Column names.** The script reads the columns headed exactly `county`, `hasConcerns`, `concerns` and `policies`, plus the configured sentiment columns. When a header repeats, the last column of that name is read.
- **Sentiment values.** The sentiment object has the four keys `Too much`, `Just right`, `Not enough` and `No opinion`, and a cell with any other text is not counted. The script keeps no district, school-type, grade-band, rating or quote data.
- **Sheets with fewer than two rows.** The script writes `{ totalResponses: 0 }` through `writeOutput`. So `screenTimeSentiment` and `concernsTopLine` come out as empty objects, without their zero-valued keys.
- **Missing header row.** If there are two or more rows and the header row is missing, `headers.join` throws and `main().catch` ends the run without writing anything. `DashboardOf` returns `None` in that case.

## Model

| member | source | states |
|---|---|---|
| Text.Trim | scripts/build-data.js:43 | The result of `trim` has no whitespace at either end, and text already trimmed is returned unchanged |
| Text.TrimToEmpty | scripts/build-data.js:43-44 | `trim` gives the empty string exactly when every character is whitespace, so such a key is ignored |
| Text.TrimRemovesOuterSpace | scripts/build-data.js:43 | `trim` removes exactly the outer whitespace: the result is the slice of the input that starts after its `Lead(s)` leading characters; everything before and after that slice is whitespace |
| Text.Split | scripts/build-data.js:50 | `split(',')` gives at least one piece, no piece holds a comma, and joining the pieces with commas gives back the input |
| Text.ParseMultiSelect | scripts/build-data.js:48-51 | An empty cell gives no answers; every answer is non-empty, trimmed and free of commas |
| Text.ParseJoinedLabels | scripts/build-data.js:48-51 | Round trip: clean labels joined with commas are parsed back as exactly the same list |
| Text.ParseAroundComma | scripts/build-data.js:50 | Answers keep their order: those before a comma come first, then those after it |
| Text.SingleAnswer | scripts/build-data.js:48-51 | A cell without a comma gives its trimmed text as its only answer, or nothing if that text is empty |
| Counts.Bumped | scripts/build-data.js:45 | Storing one more than the old count keeps the key list when `k` is already a key, and otherwise adds `k` as the last key |
| Counts.BumpedCounts | scripts/build-data.js:45 | Storing one more than the old count raises the count of `k` by exactly one, from 0 when absent, and changes no other count |
| Counts.Incremented | scripts/build-data.js:41-46 | An empty or whitespace-only key leaves the object unchanged; otherwise the trimmed key is kept, or added as the last key when it is new |
| Counts.IncrementedCounts | scripts/build-data.js:41-46 | `increment` raises the trimmed key's count by exactly one and leaves every other count as it was |
| Counts.IncrementedKeepsLabelMap | scripts/build-data.js:41-46 | A map filled only by `increment` keeps distinct, non-empty, trimmed keys with positive counts |
| Counts.CountMap.Increment | scripts/build-data.js:41-46 | Updating the object in place leaves exactly the entries `Incremented` describes |
| Counts.CountMap.Bump | scripts/build-data.js:108 | `obj[key]++` on a key the object has: the entries become `Bumped`, and the key list is unchanged |
| Ranking.SortByCount | scripts/build-data.js:136-145 | The sorted entries are non-increasing in count and a permutation of the input entries |
| Ranking.SortByCountKeepsTies | scripts/build-data.js:136-145 | The sort is stable: for every count, the entries with that count keep their insertion order |
| Ranking.SortByCountKeepsCounts | scripts/build-data.js:136-145 | With distinct keys, sorting keeps the same keys, still distinct, and the same count for every key |
| Columns.ColumnIndex | scripts/build-data.js:77-78 | `colIndex` has exactly the header names as keys; each maps to a column with that name, and no later column has that name |
| Columns.BuildColumnIndex | scripts/build-data.js:77-78 | The `forEach` loop over the headers builds exactly `ColumnIndex` |
| Columns.GetCell | scripts/build-data.js:81-84 | `getCell` returns trimmed text, and returns non-empty text only when the name is a header whose column the row reaches |
| Columns.CellByHeader | scripts/build-data.js:77-84 | For a header row, a name read from a row gives the trimmed cell under the last column of that name, or `""` when the row stops before it |
| Columns.MissingColumnIsEmpty | scripts/build-data.js:81-84 | A name that heads no column reads as `""` in every row |
| Aggregate.IsResponse | scripts/build-data.js:97 | A row is a response exactly when it is present and at least one of its cells is not the empty string; a row with no cells is skipped |
| Aggregate.Step | scripts/build-data.js:95-134 | A missing or blank row changes nothing, and every other row adds exactly one to `totalResponses` |
| Aggregate.Aggregated | scripts/build-data.js:86-134 | After the loop over `rows`, `totalResponses` is at most the number of rows |
| Aggregate.CountyStep | scripts/build-data.js:101-102 | The county read from the row gains exactly one, a blank county gains nothing, and the sum of counts rises by at most one |
| Aggregate.SentimentTally | scripts/build-data.js:105-110 | The loop over the sentiment columns never adds a key, and adds at most one per sentiment column to the sum of counts |
| Aggregate.TopLineStep | scripts/build-data.js:113-125 | The keys `Yes`, `No` stay as they are, and the sum of counts rises by one exactly when the answer is `"Yes"` or `"No"` |
| Aggregate.ConcernsStep | scripts/build-data.js:113-122 | A row not answering exactly `"Yes"` leaves the concerns object unchanged; otherwise the sum rises by at most the number of parsed concerns |
| Aggregate.PoliciesStep | scripts/build-data.js:127-133 | The sum of policy counts rises by at most the number of parsed policies |
| Aggregate.WithLabels | scripts/build-data.js:118-133 | Each parsed label adds at most one to the sum of counts |
| Aggregate.SentimentTallyCounts | scripts/build-data.js:105-110 | One row raises each sentiment key by the number of its sentiment columns holding exactly that value; other values count for nothing |
| Aggregate.WithLabelsCounts | scripts/build-data.js:118-122 | Every label except `"Other"` is counted once per occurrence in the cell |
| Aggregate.TopLineStepCounts | scripts/build-data.js:113-125 | Exactly `"Yes"` raises `Yes` by one, exactly `"No"` raises `No` by one, any other answer raises neither, and the keys stay `Yes`, `No` |
| Aggregate.TotalCountsResponses | scripts/build-data.js:95-98 | `totalResponses` is the number of rows that are neither missing nor made only of empty cells |
| Aggregate.CountyCounts | scripts/build-data.js:100-102 | `byCounty[k]` is the number of responses whose county cell reads `k`; a blank county is never counted |
| Aggregate.SentimentCounts | scripts/build-data.js:104-110 | `screenTimeSentiment` keeps exactly its four declared keys; each counts the sentiment cells over all responses that hold that value |
| Aggregate.TopLineCounts | scripts/build-data.js:112-125 | `concernsTopLine` keeps keys `Yes`, `No`; they count the responses answering exactly "Yes" and exactly "No" |
| Aggregate.ConcernCounts | scripts/build-data.js:113-122 | `concernsBreakdown[k]` counts occurrences of `k` in the concerns cells of responses answering "Yes"; `"Other"` is always 0 |
| Aggregate.PolicyCounts | scripts/build-data.js:127-133 | `policies[k]` counts occurrences of `k` in the policy cells of every response, whatever its concerns answer; `"Other"` is always 0 |
| Aggregate.ConcernsOnlyFromYes | scripts/build-data.js:113-125 | A row whose concerns answer is not exactly "Yes" leaves `concernsBreakdown` unchanged |
| Aggregate.AggregatedIsConsistent | scripts/build-data.js:86-134 | Every state of the loop has the fixed key sets, county and top-line sums at most `totalResponses`, and distinct, trimmed, non-empty open-ended keys, never `"Other"` |
| Aggregate.SentimentWithinResponses | scripts/build-data.js:104-110 | The sentiment counts add up to at most `totalResponses` times the number of sentiment columns |
| Aggregate.TopLineWithinResponses | scripts/build-data.js:112-125 | `Yes + No <= totalResponses` |
| BuildData.WriteOutput | scripts/build-data.js:157-166 | Every field of the document is the one passed in, or 0 and the empty object where it is absent; `generated` is the given timestamp |
| BuildData.Finish | scripts/build-data.js:136-154 | The object passed to `writeOutput` has every field; counties, concerns and policies are their tallies sorted non-increasing, as permutations; the fixed maps are passed as they are |
| BuildData.DashboardOf | scripts/build-data.js:54-166 | The run writes nothing exactly when there are two or more rows and the header row is missing; otherwise the document carries the timestamp, at most one response per answer row, the four sentiment keys (none for a short sheet), and non-increasing open-ended maps |
| BuildData.TallySentiment | scripts/build-data.js:105-110 | The loop over the sentiment columns leaves the sentiment object equal to `SentimentTally` of its old entries |
| BuildData.AddLabels | scripts/build-data.js:128-133 | The loop over parsed labels leaves the object equal to `WithLabels` of its old entries |
| BuildData.TallyRow | scripts/build-data.js:100-133 | One response row updates each of the five objects as that bucket's step function does |
| BuildData.BuildDashboard | scripts/build-data.js:54-155 | `main`, with its count objects updated in place, writes exactly the document `DashboardOf` describes, or nothing when the header row is missing |
| BuildData.ShortSheetGivesEmptyDocument | scripts/build-data.js:63-66 | No sheet, or fewer than two rows: zero responses and every map empty, the sentiment and top-line maps included |
| BuildData.DocumentShape | scripts/build-data.js:147-166 | The written `totalResponses` is the number of non-blank answer rows; sentiment and top-line maps carry exactly their declared keys |
| BuildData.DocumentBounds | scripts/build-data.js:147-166 | In the written document, sentiment counts add up to at most responses times sentiment columns, and `Yes + No` is at most the number of responses |
| BuildData.DocumentOrder | scripts/build-data.js:136-154 | Each written open-ended map is its tally reordered: non-increasing, a permutation, and with ties in first-seen order |
| BuildData.DocumentCounts | scripts/build-data.js:136-154 | Each written county, concern and policy count equals the count over the answer rows; `"Other"` is never a key |
| Example.OneResponseFromBerks | scripts/build-data.js:54-166 | Headers `county, hasConcerns, concerns` and one row `Berks, Yes, "Social media, Screen time"` give: one response, `{Berks: 1}`, `{Yes: 1, No: 0}`, and one count for each concern in the order written |

## Left out

- Google Sheets access is not modelled: the service-account key, the environment variables, the API client and the fetch (scripts/build-data.js:22-38, 57-62). The rows are a parameter.
- Reading `data/field-map.json` (scripts/build-data.js:20) is not modelled. `sentimentFields` is a parameter.
- The clock read `new Date().toISOString()` (scripts/build-data.js:159) is a string parameter `generated`.
- `writeFileSync`, `JSON.stringify` and the console logging are not modelled (scripts/build-data.js:55, 64, 73-74, 168-171). The document is the result of `DashboardOf`.
- `main().catch` with `process.exit(1)` (scripts/build-data.js:174-177) is modelled only for a missing header row (`None`). The other exceptions come from the I/O left out above.
- Aliasing between the five count objects is ruled out by the preconditions of `TallyRow`. `main` allocates them separately.
- Counts.Incremented: keys that name inherited `Object.prototype` members are not modelled.
  - For `"constructor"` or `"toString"`, `obj[k] || 0` reads the inherited function.
  - For `"__proto__"`, the assignment changes the prototype.
  - The model treats every key as an ordinary own property.
- Aggregate.SentimentTally: the model checks only the four own keys. `val in screenTimeSentiment` (scripts/build-data.js:107) is also true for inherited names such as `"toString"`.
- Ranking.SortByCount: `Object.entries` and `Object.fromEntries` put integer-like keys (such as `"42"`) first, in numeric order, whatever their counts. The model keeps every key in insertion or sorted order.
- Columns.ColumnIndex: a header named `"__proto__"` does not become an own property of `colIndex` in JavaScript. In the model it is an ordinary key.
- Text.Trim: whitespace is the ECMAScript WhiteSpace and LineTerminator code points, listed explicitly. Strings are sequences of characters, with no UTF-16 surrogate handling.
- Cells are strings, and `!row` is a missing row (`None`). Other non-string values the Sheets API might return are not modelled.
- The React dashboard is not part of this model: its components, its data-fetch hook, the floating-point percentages and colour scales, the county centroid table and the table sort toggle.
- Grade-band, school-type, district, rating and quote outputs are not modelled, because the script produces none of them.
