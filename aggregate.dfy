/** The tallies the build script accumulates over the data rows, as a pure fold:
    `Step` is the body of the `for (const row of dataRows)` loop and `Aggregated`
    the state after a prefix of the rows. The imperative loop in module BuildData
    is proved to compute exactly this fold; the lemmas here say what the tallies
    count. */
module Aggregate {
  import opened Wrappers
  import opened Text
  import opened Counts
  import opened Columns

  /** The keys of `screenTimeSentiment`, in declaration order. */
  const SentimentKeys: seq<string> := ["Too much", "Just right", "Not enough", "No opinion"]
  /** The keys of `concernsTopLine`. */
  const TopLineKeys: seq<string> := ["Yes", "No"]

  const InitialSentiment: Counts :=
    [Entry("Too much", 0), Entry("Just right", 0), Entry("Not enough", 0), Entry("No opinion", 0)]
  const InitialTopLine: Counts := [Entry("Yes", 0), Entry("No", 0)]

  /** The aggregation buckets of the build script and the response counter. */
  datatype Tallies = Tallies(
    totalResponses: nat,
    byCounty: Counts,
    screenTimeSentiment: Counts,
    concernsTopLine: Counts,
    concernsBreakdown: Counts,
    policies: Counts)

  const Initial: Tallies := Tallies(0, [], InitialSentiment, InitialTopLine, [], [])

  /** The row filter: a row counts unless it is missing or every cell is the empty
      string (`!row || row.every(c => !c)`). */
  predicate IsResponse(row: Option<Row>)
    ensures IsResponse(row) <==> row.Some? && exists i :: 0 <= i < |row.value| && row.value[i] != []
  {
    row.Some? && !(forall i | 0 <= i < |row.value| :: row.value[i] == [])
  }

  /** The cells of `row` under the sentiment columns, in the order of `fields`. */
  function FieldValues(cols: map<string, nat>, row: Row, fields: seq<string>): (vs: seq<string>)
    ensures |vs| == |fields|
  {
    if fields == [] then []
    else
      var n := |fields| - 1;
      FieldValues(cols, row, fields[..n]) + [GetCell(cols, row, fields[n])]
  }

  /** The loop over `fieldMap.sentimentFields`: each cell that is one of the keys
      of the sentiment object bumps that key. */
  function SentimentTally(s: Counts, cols: map<string, nat>, row: Row, fields: seq<string>): (r: Counts)
    ensures Keys(r) == Keys(s)
    ensures Total(r) <= Total(s) + |fields|
  {
    if fields == [] then s
    else
      var n := |fields| - 1;
      var prev := SentimentTally(s, cols, row, fields[..n]);
      var v := GetCell(cols, row, fields[n]);
      if v != [] && v in Keys(prev) then
        BumpedTotal(prev, v);
        Bumped(prev, v)
      else prev
  }

  /** Each sentiment key gains one for every sentiment column of the row holding
      exactly that value; nothing else is counted. */
  lemma {:induction false} SentimentTallyCounts(s: Counts, cols: map<string, nat>, row: Row, fields: seq<string>, k: string)
    ensures Count(SentimentTally(s, cols, row, fields), k)
         == Count(s, k) + if k != [] && k in Keys(s) then multiset(FieldValues(cols, row, fields))[k] else 0
  {
    if fields != [] {
      var n := |fields| - 1;
      SentimentTallyCounts(s, cols, row, fields[..n], k);
      var prev := SentimentTally(s, cols, row, fields[..n]);
      var v := GetCell(cols, row, fields[n]);
      if v != [] && v in Keys(prev) {
        BumpedCounts(prev, v);
      }
    }
  }

  /** The loops over a parsed multi-select cell: every label other than "Other"
      goes through `increment`. */
  function WithLabels(c: Counts, labels: seq<string>): (r: Counts)
    ensures Total(r) <= Total(c) + |labels|
  {
    if labels == [] then c
    else
      var n := |labels| - 1;
      var prev := WithLabels(c, labels[..n]);
      if labels[n] != "Other" then
        IncrementedCounts(prev, labels[n]);
        Incremented(prev, labels[n])
      else prev
  }

  /** The last label of the list adds one to its own count, unless it is "Other". */
  lemma WithLabelsLast(c: Counts, labels: seq<string>, k: string)
    requires labels != [] && IsTrimmed(labels[|labels| - 1])
    ensures var n := |labels| - 1;
            Count(WithLabels(c, labels), k) ==
            Count(WithLabels(c, labels[..n]), k) + if labels[n] == k && k != "Other" && k != [] then 1 else 0
  {
    var n := |labels| - 1;
    var l := labels[n];
    if l != "Other" {
      assert Trim(l) == l;
      IncrementedCounts(WithLabels(c, labels[..n]), l);
    }
  }

  lemma MultisetLast(labels: seq<string>, k: string)
    requires labels != []
    ensures var n := |labels| - 1;
            multiset(labels)[k] == multiset(labels[..n])[k] + if labels[n] == k then 1 else 0
  {
    var n := |labels| - 1;
    assert labels == labels[..n] + [labels[n]];
  }

  /** A label listed several times is counted once per occurrence, and "Other"
      never. */
  lemma {:induction false} WithLabelsCounts(c: Counts, labels: seq<string>, k: string)
    requires forall i :: 0 <= i < |labels| ==> IsTrimmed(labels[i])
    ensures Count(WithLabels(c, labels), k)
         == Count(c, k) + if k == "Other" || k == [] then 0 else multiset(labels)[k]
  {
    if labels != [] {
      var n := |labels| - 1;
      WithLabelsCounts(c, labels[..n], k);
      WithLabelsLast(c, labels, k);
      MultisetLast(labels, k);
    }
  }

  lemma {:induction false} WithLabelsKeepsLabelMap(c: Counts, labels: seq<string>)
    requires IsLabelMap(c) && "Other" !in Keys(c)
    requires forall i :: 0 <= i < |labels| ==> IsTrimmed(labels[i])
    ensures IsLabelMap(WithLabels(c, labels)) && "Other" !in Keys(WithLabels(c, labels))
  {
    if labels != [] {
      var n := |labels| - 1;
      WithLabelsKeepsLabelMap(c, labels[..n]);
      var prev := WithLabels(c, labels[..n]);
      if labels[n] != "Other" {
        assert Trim(labels[n]) == labels[n];
        IncrementedKeepsLabelMap(prev, labels[n]);
      }
    }
  }

  /** The county update of one response row: the county read from the row gains
      one, unless the cell is blank. */
  function CountyStep(c: Counts, cols: map<string, nat>, row: Row): (r: Counts)
    ensures var county := GetCell(cols, row, "county");
            Count(r, county) == Count(c, county) + if county == [] then 0 else 1
    ensures Total(r) <= Total(c) + 1
  {
    var county := GetCell(cols, row, "county");
    if county != [] then
      assert Trim(county) == county;
      IncrementedCounts(c, county);
      Incremented(c, county)
    else c
  }

  lemma CountyStepKeepsLabelMap(c: Counts, cols: map<string, nat>, row: Row)
    requires IsLabelMap(c)
    ensures IsLabelMap(CountyStep(c, cols, row))
    ensures Total(CountyStep(c, cols, row)) <= Total(c) + 1
  {
    var county := GetCell(cols, row, "county");
    if county != [] {
      IncrementedKeepsLabelMap(c, county);
      IncrementedCounts(c, county);
    }
  }

  /** The concerns top-line update of one response row: exactly "Yes" or exactly
      "No" bumps that key. */
  function TopLineStep(c: Counts, cols: map<string, nat>, row: Row): (r: Counts)
    ensures "Yes" in Keys(c) && "No" in Keys(c) ==> Keys(r) == Keys(c)
    ensures Total(r) == Total(c) + if GetCell(cols, row, "hasConcerns") in TopLineKeys then 1 else 0
  {
    var hasConcerns := GetCell(cols, row, "hasConcerns");
    if hasConcerns == "Yes" then
      BumpedTotal(c, "Yes");
      Bumped(c, "Yes")
    else if hasConcerns == "No" then
      BumpedTotal(c, "No");
      Bumped(c, "No")
    else c
  }

  lemma TopLineStepCounts(c: Counts, cols: map<string, nat>, row: Row)
    requires Keys(c) == TopLineKeys
    ensures Keys(TopLineStep(c, cols, row)) == TopLineKeys
    ensures Count(TopLineStep(c, cols, row), "Yes") == Count(c, "Yes") + if GetCell(cols, row, "hasConcerns") == "Yes" then 1 else 0
    ensures Count(TopLineStep(c, cols, row), "No") == Count(c, "No") + if GetCell(cols, row, "hasConcerns") == "No" then 1 else 0
    ensures Total(TopLineStep(c, cols, row)) <= Total(c) + 1
  {
    BumpedCounts(c, "Yes");
    BumpedCounts(c, "No");
    BumpedTotal(c, "Yes");
    BumpedTotal(c, "No");
  }

  /** The concerns breakdown update of one response row: only a "Yes" answer
      reads the concerns cell. */
  function ConcernsStep(c: Counts, cols: map<string, nat>, row: Row): (r: Counts)
    ensures GetCell(cols, row, "hasConcerns") != "Yes" ==> r == c
    ensures Total(r) <= Total(c) + |ParseMultiSelect(GetCell(cols, row, "concerns"))|
  {
    if GetCell(cols, row, "hasConcerns") == "Yes"
    then WithLabels(c, ParseMultiSelect(GetCell(cols, row, "concerns")))
    else c
  }

  lemma ConcernsStepCounts(c: Counts, cols: map<string, nat>, row: Row, k: string)
    ensures Count(ConcernsStep(c, cols, row), k)
         == Count(c, k) + if k == "Other" then 0 else Score(cols, [], row, Concern(k))
  {
    var labels := ParseMultiSelect(GetCell(cols, row, "concerns"));
    WithLabelsCounts(c, labels, k);
    assert k == [] ==> k !in labels;
  }

  /** The policy update of one response row. */
  function PoliciesStep(c: Counts, cols: map<string, nat>, row: Row): (r: Counts)
    ensures Total(r) <= Total(c) + |ParseMultiSelect(GetCell(cols, row, "policies"))|
  {
    WithLabels(c, ParseMultiSelect(GetCell(cols, row, "policies")))
  }

  lemma PoliciesStepCounts(c: Counts, cols: map<string, nat>, row: Row, k: string)
    ensures Count(PoliciesStep(c, cols, row), k)
         == Count(c, k) + if k == "Other" then 0 else Score(cols, [], row, Policy(k))
  {
    var labels := ParseMultiSelect(GetCell(cols, row, "policies"));
    WithLabelsCounts(c, labels, k);
    assert k == [] ==> k !in labels;
  }

  /** One pass of the row loop. */
  function Step(t: Tallies, cols: map<string, nat>, fields: seq<string>, row: Option<Row>): (r: Tallies)
    ensures !IsResponse(row) ==> r == t
    ensures r.totalResponses == t.totalResponses + if IsResponse(row) then 1 else 0
  {
    if !IsResponse(row) then t
    else
      var cells := row.value;
      Tallies(
        t.totalResponses + 1,
        CountyStep(t.byCounty, cols, cells),
        SentimentTally(t.screenTimeSentiment, cols, cells, fields),
        TopLineStep(t.concernsTopLine, cols, cells),
        ConcernsStep(t.concernsBreakdown, cols, cells),
        PoliciesStep(t.policies, cols, cells))
  }

  /** The tallies after the row loop has run over `rows`. */
  function Aggregated(cols: map<string, nat>, fields: seq<string>, rows: seq<Option<Row>>): (r: Tallies)
    ensures r.totalResponses <= |rows|
  {
    if rows == [] then Initial
    else
      var n := |rows| - 1;
      Step(Aggregated(cols, fields, rows[..n]), cols, fields, rows[n])
  }

  // ---------------------------------------------------------------------------
  // Reference counts, defined row by row independently of the buckets.

  /** A quantity a single response row contributes to. */
  datatype Measure =
    | Responses
    | County(name: string)
    | Answer(answer: string)
    | Sentiment(value: string)
    | Concern(concern: string)
    | Policy(policy: string)

  /** How much one response row contributes to a measure. */
  function Score(cols: map<string, nat>, fields: seq<string>, row: Row, m: Measure): nat {
    match m
    case Responses => 1
    case County(k) => if GetCell(cols, row, "county") == k then 1 else 0
    case Answer(a) => if GetCell(cols, row, "hasConcerns") == a then 1 else 0
    case Sentiment(v) => multiset(FieldValues(cols, row, fields))[v]
    case Concern(k) =>
      if GetCell(cols, row, "hasConcerns") == "Yes"
      then multiset(ParseMultiSelect(GetCell(cols, row, "concerns")))[k] else 0
    case Policy(k) => multiset(ParseMultiSelect(GetCell(cols, row, "policies")))[k]
  }

  /** A measure summed over the response rows of `rows`. */
  function Sum(cols: map<string, nat>, fields: seq<string>, rows: seq<Option<Row>>, m: Measure): nat {
    if rows == [] then 0
    else
      var n := |rows| - 1;
      Sum(cols, fields, rows[..n], m) + if IsResponse(rows[n]) then Score(cols, fields, rows[n].value, m) else 0
  }

  // ---------------------------------------------------------------------------
  // What the buckets count.

  /** `totalResponses` is the number of rows that are neither missing nor blank. */
  lemma {:induction false} TotalCountsResponses(cols: map<string, nat>, fields: seq<string>, rows: seq<Option<Row>>)
    ensures Aggregated(cols, fields, rows).totalResponses == Sum(cols, fields, rows, Responses)
  {
    if rows != [] {
      TotalCountsResponses(cols, fields, rows[..|rows| - 1]);
    }
  }

  /** `byCounty` counts the responses naming each county; a blank county is not
      counted. */
  lemma {:induction false} CountyCounts(cols: map<string, nat>, fields: seq<string>, rows: seq<Option<Row>>, k: string)
    ensures Count(Aggregated(cols, fields, rows).byCounty, k) == if k == [] then 0 else Sum(cols, fields, rows, County(k))
  {
    if rows != [] {
      var n := |rows| - 1;
      CountyCounts(cols, fields, rows[..n], k);
      if IsResponse(rows[n]) {
        var county := GetCell(cols, rows[n].value, "county");
        assert Trim(county) == county;
        IncrementedCounts(Aggregated(cols, fields, rows[..n]).byCounty, county);
      }
    }
  }

  /** `concernsTopLine.Yes` and `.No` count the responses answering exactly "Yes"
      and exactly "No"; any other answer counts for neither. */
  lemma {:induction false} TopLineCounts(cols: map<string, nat>, fields: seq<string>, rows: seq<Option<Row>>)
    ensures Keys(Aggregated(cols, fields, rows).concernsTopLine) == TopLineKeys
    ensures Count(Aggregated(cols, fields, rows).concernsTopLine, "Yes") == Sum(cols, fields, rows, Answer("Yes"))
    ensures Count(Aggregated(cols, fields, rows).concernsTopLine, "No") == Sum(cols, fields, rows, Answer("No"))
  {
    if rows != [] {
      var n := |rows| - 1;
      TopLineCounts(cols, fields, rows[..n]);
      if IsResponse(rows[n]) {
        TopLineStepCounts(Aggregated(cols, fields, rows[..n]).concernsTopLine, cols, rows[n].value);
      }
    }
  }

  lemma InitialSentimentIsZero(v: string)
    ensures Keys(InitialSentiment) == SentimentKeys
    ensures Count(InitialSentiment, v) == 0
  {
    assert InitialSentiment[1..][1..][1..][1..] == [];
  }

  /** Each sentiment key counts the sentiment cells, over all responses and all
      sentiment columns, holding exactly that value; the key set never changes. */
  lemma {:induction false} SentimentCounts(cols: map<string, nat>, fields: seq<string>, rows: seq<Option<Row>>, v: string)
    requires v in SentimentKeys
    ensures Keys(Aggregated(cols, fields, rows).screenTimeSentiment) == SentimentKeys
    ensures Count(Aggregated(cols, fields, rows).screenTimeSentiment, v) == Sum(cols, fields, rows, Sentiment(v))
  {
    if rows == [] {
      InitialSentimentIsZero(v);
    } else {
      var n := |rows| - 1;
      SentimentCounts(cols, fields, rows[..n], v);
      SentimentStepCounts(Aggregated(cols, fields, rows[..n]), cols, fields, rows[n], v);
    }
  }

  /** One pass of the loop adds the row's cells holding `v` to the count of `v`. */
  lemma SentimentStepCounts(t: Tallies, cols: map<string, nat>, fields: seq<string>, row: Option<Row>, v: string)
    requires v in SentimentKeys && Keys(t.screenTimeSentiment) == SentimentKeys
    ensures Keys(Step(t, cols, fields, row).screenTimeSentiment) == SentimentKeys
    ensures Count(Step(t, cols, fields, row).screenTimeSentiment, v)
         == Count(t.screenTimeSentiment, v) + if IsResponse(row) then Score(cols, fields, row.value, Sentiment(v)) else 0
  {
    assert v != [];
    if IsResponse(row) {
      SentimentTallyCounts(t.screenTimeSentiment, cols, row.value, fields, v);
    }
  }

  /** `concernsBreakdown` counts each label over the responses answering "Yes",
      once per occurrence in the cell; "Other" is never counted. */
  lemma {:induction false} ConcernCounts(cols: map<string, nat>, fields: seq<string>, rows: seq<Option<Row>>, k: string)
    ensures Count(Aggregated(cols, fields, rows).concernsBreakdown, k) == if k == "Other" then 0 else Sum(cols, fields, rows, Concern(k))
  {
    if rows != [] {
      var n := |rows| - 1;
      ConcernCounts(cols, fields, rows[..n], k);
      if IsResponse(rows[n]) {
        ConcernsStepCounts(Aggregated(cols, fields, rows[..n]).concernsBreakdown, cols, rows[n].value, k);
      }
    }
  }

  /** `policies` counts each label over all responses, whatever their concerns
      answer, once per occurrence in the cell; "Other" is never counted. */
  lemma {:induction false} PolicyCounts(cols: map<string, nat>, fields: seq<string>, rows: seq<Option<Row>>, k: string)
    ensures Count(Aggregated(cols, fields, rows).policies, k) == if k == "Other" then 0 else Sum(cols, fields, rows, Policy(k))
  {
    if rows != [] {
      var n := |rows| - 1;
      PolicyCounts(cols, fields, rows[..n], k);
      if IsResponse(rows[n]) {
        PoliciesStepCounts(Aggregated(cols, fields, rows[..n]).policies, cols, rows[n].value, k);
      }
    }
  }

  /** A row whose concerns answer is not exactly "Yes" leaves `concernsBreakdown`
      as it was. */
  lemma ConcernsOnlyFromYes(t: Tallies, cols: map<string, nat>, fields: seq<string>, row: Option<Row>)
    requires row.Some? ==> GetCell(cols, row.value, "hasConcerns") != "Yes"
    ensures Step(t, cols, fields, row).concernsBreakdown == t.concernsBreakdown
  {
  }

  // ---------------------------------------------------------------------------
  // Invariants of the buckets.

  /** The shape every reachable state of the buckets has. */
  ghost predicate Consistent(t: Tallies) {
    && Keys(t.screenTimeSentiment) == SentimentKeys
    && Keys(t.concernsTopLine) == TopLineKeys
    && Total(t.concernsTopLine) <= t.totalResponses
    && Total(t.byCounty) <= t.totalResponses
    && IsLabelMap(t.byCounty)
    && IsLabelMap(t.concernsBreakdown) && "Other" !in Keys(t.concernsBreakdown)
    && IsLabelMap(t.policies) && "Other" !in Keys(t.policies)
  }

  lemma MulSucc(a: nat, b: nat)
    ensures (a + 1) * b == a * b + b
  {
  }

  lemma StepKeepsCountyMap(t: Tallies, cols: map<string, nat>, fields: seq<string>, row: Option<Row>)
    requires IsLabelMap(t.byCounty) && Total(t.byCounty) <= t.totalResponses
    ensures var t' := Step(t, cols, fields, row);
            IsLabelMap(t'.byCounty) && Total(t'.byCounty) <= t'.totalResponses
  {
    if IsResponse(row) {
      CountyStepKeepsLabelMap(t.byCounty, cols, row.value);
    }
  }

  lemma StepKeepsTopLine(t: Tallies, cols: map<string, nat>, fields: seq<string>, row: Option<Row>)
    requires Keys(t.concernsTopLine) == TopLineKeys && Total(t.concernsTopLine) <= t.totalResponses
    ensures var t' := Step(t, cols, fields, row);
            Keys(t'.concernsTopLine) == TopLineKeys && Total(t'.concernsTopLine) <= t'.totalResponses
  {
    if IsResponse(row) {
      TopLineStepCounts(t.concernsTopLine, cols, row.value);
    }
  }

  lemma StepKeepsLabelMaps(t: Tallies, cols: map<string, nat>, fields: seq<string>, row: Option<Row>)
    requires IsLabelMap(t.concernsBreakdown) && "Other" !in Keys(t.concernsBreakdown)
    requires IsLabelMap(t.policies) && "Other" !in Keys(t.policies)
    ensures var t' := Step(t, cols, fields, row);
            && IsLabelMap(t'.concernsBreakdown) && "Other" !in Keys(t'.concernsBreakdown)
            && IsLabelMap(t'.policies) && "Other" !in Keys(t'.policies)
  {
    if IsResponse(row) {
      var cells := row.value;
      WithLabelsKeepsLabelMap(t.concernsBreakdown, ParseMultiSelect(GetCell(cols, cells, "concerns")));
      WithLabelsKeepsLabelMap(t.policies, ParseMultiSelect(GetCell(cols, cells, "policies")));
    }
  }

  lemma StepKeepsConsistent(t: Tallies, cols: map<string, nat>, fields: seq<string>, row: Option<Row>)
    requires Consistent(t)
    ensures Consistent(Step(t, cols, fields, row))
  {
    StepKeepsCountyMap(t, cols, fields, row);
    StepKeepsTopLine(t, cols, fields, row);
    StepKeepsLabelMaps(t, cols, fields, row);
  }

  /** Every state the row loop reaches is consistent: the fixed-vocabulary maps
      keep their declared keys, the sums are bounded by the response count, and
      the open-ended maps hold distinct, trimmed, non-empty labels, never "Other". */
  lemma {:induction false} AggregatedIsConsistent(cols: map<string, nat>, fields: seq<string>, rows: seq<Option<Row>>)
    ensures Consistent(Aggregated(cols, fields, rows))
  {
    if rows == [] {
      assert Keys(InitialSentiment) == SentimentKeys;
      assert Keys(InitialTopLine) == TopLineKeys;
      assert Total(InitialSentiment) == 0;
      assert Total(InitialTopLine) == 0;
    } else {
      var n := |rows| - 1;
      AggregatedIsConsistent(cols, fields, rows[..n]);
      StepKeepsConsistent(Aggregated(cols, fields, rows[..n]), cols, fields, rows[n]);
    }
  }

  lemma {:induction false} AnswersWithinResponses(cols: map<string, nat>, fields: seq<string>, rows: seq<Option<Row>>)
    ensures Sum(cols, fields, rows, Answer("Yes")) + Sum(cols, fields, rows, Answer("No")) <= Sum(cols, fields, rows, Responses)
  {
    if rows != [] {
      AnswersWithinResponses(cols, fields, rows[..|rows| - 1]);
    }
  }

  /** The sentiment counts add up to at most one per response and sentiment column. */
  lemma {:induction false} SentimentWithinResponses(cols: map<string, nat>, fields: seq<string>, rows: seq<Option<Row>>)
    ensures var t := Aggregated(cols, fields, rows);
            Total(t.screenTimeSentiment) <= t.totalResponses * |fields|
  {
    if rows == [] {
      assert Total(InitialSentiment) == 0;
    } else {
      var n := |rows| - 1;
      var t := Aggregated(cols, fields, rows[..n]);
      SentimentWithinResponses(cols, fields, rows[..n]);
      if IsResponse(rows[n]) {
        var t' := Step(t, cols, fields, rows[n]);
        assert t'.totalResponses == t.totalResponses + 1;
        assert Total(t'.screenTimeSentiment) <= Total(t.screenTimeSentiment) + |fields|;
        MulSucc(t.totalResponses, |fields|);
      }
    }
  }

  /** `concernsTopLine.Yes + concernsTopLine.No <= totalResponses`. */
  lemma TopLineWithinResponses(cols: map<string, nat>, fields: seq<string>, rows: seq<Option<Row>>)
    ensures var t := Aggregated(cols, fields, rows);
            Count(t.concernsTopLine, "Yes") + Count(t.concernsTopLine, "No") <= t.totalResponses
  {
    TopLineCounts(cols, fields, rows);
    TotalCountsResponses(cols, fields, rows);
    AnswersWithinResponses(cols, fields, rows);
  }
}
