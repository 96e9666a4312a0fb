/** `main` and `writeOutput` of scripts/build-data.js: the row loop over the sheet,
    updating the count objects in place, the three descending-count sorts, and the
    output document with its defaults. The sheet fetch, the clock and the file
    write are outside the model: the rows and the timestamp are parameters and the
    document is the result. */
module BuildData {
  import opened Wrappers
  import opened Text
  import opened Counts
  import opened Ranking
  import opened Columns
  import opened Aggregate

  /** The document written to `public/data/dashboard.json`. */
  datatype Output = Output(
    generated: string,
    totalResponses: nat,
    byCounty: Counts,
    screenTimeSentiment: Counts,
    concernsTopLine: Counts,
    concernsBreakdown: Counts,
    policies: Counts)

  /** The object passed to `writeOutput`; a field it does not have is `None`. */
  datatype Summary = Summary(
    totalResponses: Option<nat>,
    byCounty: Option<Counts>,
    screenTimeSentiment: Option<Counts>,
    concernsTopLine: Option<Counts>,
    concernsBreakdown: Option<Counts>,
    policies: Option<Counts>)

  /** `{ totalResponses: 0 }`, written when the sheet has no data rows. */
  const NoData: Summary := Summary(Some(0), None, None, None, None, None)

  /** `writeOutput(data)`: every field of the document is present, an absent one
      defaulting to 0 or to the empty object. */
  function WriteOutput(data: Summary, generated: string): (o: Output)
    ensures o.generated == generated
    ensures data.totalResponses.Some? ==> o.totalResponses == data.totalResponses.value
    ensures data.totalResponses.None? ==> o.totalResponses == 0
    ensures data.byCounty.Some? ==> o.byCounty == data.byCounty.value
    ensures data.byCounty.None? ==> o.byCounty == []
    ensures data.screenTimeSentiment.Some? ==> o.screenTimeSentiment == data.screenTimeSentiment.value
    ensures data.screenTimeSentiment.None? ==> o.screenTimeSentiment == []
    ensures data.concernsTopLine.Some? ==> o.concernsTopLine == data.concernsTopLine.value
    ensures data.concernsTopLine.None? ==> o.concernsTopLine == []
    ensures data.concernsBreakdown.Some? ==> o.concernsBreakdown == data.concernsBreakdown.value
    ensures data.concernsBreakdown.None? ==> o.concernsBreakdown == []
    ensures data.policies.Some? ==> o.policies == data.policies.value
    ensures data.policies.None? ==> o.policies == []
  {
    Output(
      generated,
      data.totalResponses.GetOr(0),
      data.byCounty.GetOr([]),
      data.screenTimeSentiment.GetOr([]),
      data.concernsTopLine.GetOr([]),
      data.concernsBreakdown.GetOr([]),
      data.policies.GetOr([]))
  }

  /** The object `main` builds after the loop: the open-ended maps sorted by
      descending count, the fixed ones as they are. */
  function Finish(t: Tallies): (s: Summary)
    ensures s.totalResponses == Some(t.totalResponses)
    ensures s.screenTimeSentiment == Some(t.screenTimeSentiment) && s.concernsTopLine == Some(t.concernsTopLine)
    ensures s.byCounty.Some? && NonIncreasing(s.byCounty.value) && multiset(s.byCounty.value) == multiset(t.byCounty)
    ensures s.concernsBreakdown.Some? && NonIncreasing(s.concernsBreakdown.value)
    ensures multiset(s.concernsBreakdown.value) == multiset(t.concernsBreakdown)
    ensures s.policies.Some? && NonIncreasing(s.policies.value) && multiset(s.policies.value) == multiset(t.policies)
  {
    Summary(
      Some(t.totalResponses),
      Some(SortByCount(t.byCounty)),
      Some(t.screenTimeSentiment),
      Some(t.concernsTopLine),
      Some(SortByCount(t.concernsBreakdown)),
      Some(SortByCount(t.policies)))
  }

  /** What one run of the script writes, given the sheet's rows (`None` when the
      sheet returned no `values`), the configured sentiment columns and the
      timestamp; `None` when the run fails without writing (a missing header row
      makes `headers.join` throw, and `main().catch` exits). */
  function DashboardOf(rows: Option<seq<Option<Row>>>, sentimentFields: seq<string>, generated: string): (r: Option<Output>)
    ensures r.None? <==> rows.Some? && |rows.value| >= 2 && rows.value[0].None?
    ensures r.Some? ==> r.value.generated == generated
    ensures r.Some? ==> r.value.totalResponses <= if rows.Some? && |rows.value| >= 2 then |rows.value| - 1 else 0
    ensures r.Some? ==> Keys(r.value.screenTimeSentiment) == if rows.Some? && |rows.value| >= 2 then SentimentKeys else []
    ensures r.Some? ==> NonIncreasing(r.value.byCounty) && NonIncreasing(r.value.concernsBreakdown)
    ensures r.Some? ==> NonIncreasing(r.value.policies)
  {
    if rows.None? || |rows.value| < 2 then Some(WriteOutput(NoData, generated))
    else if rows.value[0].None? then None
    else
      var cols := ColumnIndex(rows.value[0].value);
      AggregatedIsConsistent(cols, sentimentFields, rows.value[1..]);
      Some(WriteOutput(Finish(Aggregated(cols, sentimentFields, rows.value[1..])), generated))
  }

  /** The loop over `fieldMap.sentimentFields` for one row. */
  method TallySentiment(m: CountMap, cols: map<string, nat>, row: Row, fields: seq<string>)
    modifies m
    ensures m.entries == SentimentTally(old(m.entries), cols, row, fields)
  {
    for j := 0 to |fields|
      invariant m.entries == SentimentTally(old(m.entries), cols, row, fields[..j])
    {
      assert fields[..j + 1][..j] == fields[..j];
      var val := GetCell(cols, row, fields[j]);
      if val != [] && val in Keys(m.entries) {
        m.Bump(val);
      }
    }
    assert fields[..|fields|] == fields;
  }

  /** The loop over a parsed multi-select cell: `increment` for every label but
      "Other". */
  method AddLabels(m: CountMap, labels: seq<string>)
    modifies m
    ensures m.entries == WithLabels(old(m.entries), labels)
  {
    for j := 0 to |labels|
      invariant m.entries == WithLabels(old(m.entries), labels[..j])
    {
      assert labels[..j + 1][..j] == labels[..j];
      if labels[j] != "Other" {
        m.Increment(labels[j]);
      }
    }
    assert labels[..|labels|] == labels;
  }

  /** The body of the row loop for a row that is not blank: each count object
      takes that row's update. */
  method TallyRow(cols: map<string, nat>, sentimentFields: seq<string>, cells: Row,
                  byCounty: CountMap, screenTimeSentiment: CountMap, concernsTopLine: CountMap,
                  concernsBreakdown: CountMap, policies: CountMap)
    requires Keys(concernsTopLine.entries) == TopLineKeys
    requires concernsTopLine != concernsBreakdown && concernsTopLine != policies
    requires byCounty != screenTimeSentiment && byCounty != concernsTopLine
    requires byCounty != concernsBreakdown && byCounty != policies
    requires screenTimeSentiment != concernsTopLine && screenTimeSentiment != concernsBreakdown
    requires screenTimeSentiment != policies && concernsBreakdown != policies
    modifies byCounty, screenTimeSentiment, concernsTopLine, concernsBreakdown, policies
    ensures byCounty.entries == CountyStep(old(byCounty.entries), cols, cells)
    ensures screenTimeSentiment.entries == SentimentTally(old(screenTimeSentiment.entries), cols, cells, sentimentFields)
    ensures concernsTopLine.entries == TopLineStep(old(concernsTopLine.entries), cols, cells)
    ensures concernsBreakdown.entries == ConcernsStep(old(concernsBreakdown.entries), cols, cells)
    ensures policies.entries == PoliciesStep(old(policies.entries), cols, cells)
  {
    var county := GetCell(cols, cells, "county");
    if county != [] {
      byCounty.Increment(county);
    }

    TallySentiment(screenTimeSentiment, cols, cells, sentimentFields);

    var hasConcerns := GetCell(cols, cells, "hasConcerns");
    if hasConcerns == "Yes" {
      concernsTopLine.Bump("Yes");
      var concernList := ParseMultiSelect(GetCell(cols, cells, "concerns"));
      AddLabels(concernsBreakdown, concernList);
    } else if hasConcerns == "No" {
      concernsTopLine.Bump("No");
    }

    var policyList := ParseMultiSelect(GetCell(cols, cells, "policies"));
    AddLabels(policies, policyList);
  }

  /** `main`: the whole aggregation, with the count objects updated in place. */
  method BuildDashboard(rows: Option<seq<Option<Row>>>, sentimentFields: seq<string>, generated: string)
    returns (out: Option<Output>)
    ensures out == DashboardOf(rows, sentimentFields, generated)
  {
    if rows.None? || |rows.value| < 2 {
      return Some(WriteOutput(NoData, generated));
    }
    if rows.value[0].None? {
      return None;
    }
    var headers := rows.value[0].value;
    var dataRows := rows.value[1..];
    var cols := BuildColumnIndex(headers);

    var byCounty := new CountMap([]);
    var screenTimeSentiment := new CountMap(InitialSentiment);
    var concernsTopLine := new CountMap(InitialTopLine);
    var concernsBreakdown := new CountMap([]);
    var policies := new CountMap([]);
    var totalResponses := 0;

    for i := 0 to |dataRows|
      invariant Tallies(totalResponses, byCounty.entries, screenTimeSentiment.entries,
                        concernsTopLine.entries, concernsBreakdown.entries, policies.entries)
             == Aggregated(cols, sentimentFields, dataRows[..i])
    {
      assert dataRows[..i + 1][..i] == dataRows[..i];
      var row := dataRows[i];
      if IsResponse(row) {
        TopLineCounts(cols, sentimentFields, dataRows[..i]);
        TallyRow(cols, sentimentFields, row.value,
                 byCounty, screenTimeSentiment, concernsTopLine, concernsBreakdown, policies);
        totalResponses := totalResponses + 1;
      }
    }
    assert dataRows[..|dataRows|] == dataRows;

    var sortedConcerns := SortByCount(concernsBreakdown.entries);
    var sortedPolicies := SortByCount(policies.entries);
    var sortedCounties := SortByCount(byCounty.entries);

    out := Some(WriteOutput(
      Summary(Some(totalResponses), Some(sortedCounties), Some(screenTimeSentiment.entries),
              Some(concernsTopLine.entries), Some(sortedConcerns), Some(sortedPolicies)),
      generated));
  }

  // ---------------------------------------------------------------------------
  // Properties of the written document.

  /** With fewer than two rows (or none at all) the document has no responses and
      every map empty, the sentiment and top-line maps included. */
  lemma ShortSheetGivesEmptyDocument(rows: Option<seq<Option<Row>>>, sentimentFields: seq<string>, generated: string)
    requires rows.None? || |rows.value| < 2
    ensures DashboardOf(rows, sentimentFields, generated) == Some(Output(generated, 0, [], [], [], [], []))
  {
  }

  /** The fixed-vocabulary maps of a document built from data rows hold exactly
      their declared keys, and the response count is the number of non-blank rows. */
  lemma DocumentShape(rows: seq<Option<Row>>, sentimentFields: seq<string>, generated: string)
    requires |rows| >= 2 && rows[0].Some?
    ensures var cols := ColumnIndex(rows[0].value);
            var o := DashboardOf(Some(rows), sentimentFields, generated).value;
            && o.totalResponses == Sum(cols, sentimentFields, rows[1..], Responses)
            && Keys(o.screenTimeSentiment) == SentimentKeys
            && Keys(o.concernsTopLine) == TopLineKeys
  {
    var cols := ColumnIndex(rows[0].value);
    TotalCountsResponses(cols, sentimentFields, rows[1..]);
    AggregatedIsConsistent(cols, sentimentFields, rows[1..]);
  }

  /** The response count bounds the sentiment and top-line sums of the document. */
  lemma DocumentBounds(rows: seq<Option<Row>>, sentimentFields: seq<string>, generated: string)
    requires |rows| >= 2 && rows[0].Some?
    ensures var o := DashboardOf(Some(rows), sentimentFields, generated).value;
            && Total(o.screenTimeSentiment) <= o.totalResponses * |sentimentFields|
            && Count(o.concernsTopLine, "Yes") + Count(o.concernsTopLine, "No") <= o.totalResponses
  {
    var cols := ColumnIndex(rows[0].value);
    SentimentWithinResponses(cols, sentimentFields, rows[1..]);
    TopLineWithinResponses(cols, sentimentFields, rows[1..]);
  }

  /** Each open-ended map of the document is its tally sorted: non-increasing in
      count, a permutation of the tally, and with ties in insertion order. */
  lemma DocumentOrder(rows: seq<Option<Row>>, sentimentFields: seq<string>, generated: string, n: nat)
    requires |rows| >= 2 && rows[0].Some?
    ensures var t := Aggregated(ColumnIndex(rows[0].value), sentimentFields, rows[1..]);
            var o := DashboardOf(Some(rows), sentimentFields, generated).value;
            && NonIncreasing(o.byCounty) && multiset(o.byCounty) == multiset(t.byCounty)
            && WithCount(o.byCounty, n) == WithCount(t.byCounty, n)
            && NonIncreasing(o.concernsBreakdown) && multiset(o.concernsBreakdown) == multiset(t.concernsBreakdown)
            && WithCount(o.concernsBreakdown, n) == WithCount(t.concernsBreakdown, n)
            && NonIncreasing(o.policies) && multiset(o.policies) == multiset(t.policies)
            && WithCount(o.policies, n) == WithCount(t.policies, n)
  {
    var t := Aggregated(ColumnIndex(rows[0].value), sentimentFields, rows[1..]);
    SortByCountKeepsTies(t.byCounty, n);
    SortByCountKeepsTies(t.concernsBreakdown, n);
    SortByCountKeepsTies(t.policies, n);
  }

  /** The counts the document reports for a label: the county, concern and policy
      counts over the data rows, with "Other" never reported. */
  lemma DocumentCounts(rows: seq<Option<Row>>, sentimentFields: seq<string>, generated: string, k: string)
    requires |rows| >= 2 && rows[0].Some?
    ensures var cols := ColumnIndex(rows[0].value);
            var data := rows[1..];
            var o := DashboardOf(Some(rows), sentimentFields, generated).value;
            && Count(o.byCounty, k) == (if k == [] then 0 else Sum(cols, sentimentFields, data, County(k)))
            && Count(o.concernsBreakdown, k) == (if k == "Other" then 0 else Sum(cols, sentimentFields, data, Concern(k)))
            && Count(o.policies, k) == (if k == "Other" then 0 else Sum(cols, sentimentFields, data, Policy(k)))
            && "Other" !in Keys(o.concernsBreakdown) && "Other" !in Keys(o.policies)
  {
    var cols := ColumnIndex(rows[0].value);
    var data := rows[1..];
    var t := Aggregated(cols, sentimentFields, data);
    AggregatedIsConsistent(cols, sentimentFields, data);
    SortByCountKeepsCounts(t.byCounty);
    SortByCountKeepsCounts(t.concernsBreakdown);
    SortByCountKeepsCounts(t.policies);
    CountyCounts(cols, sentimentFields, data, k);
    ConcernCounts(cols, sentimentFields, data, k);
    PolicyCounts(cols, sentimentFields, data, k);
  }
}
