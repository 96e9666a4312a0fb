/** A worked example of the whole build: one header row and one answer row, run
    through `DashboardOf` down to the written document. */
module Example {
  import opened Wrappers
  import opened Text
  import opened Counts
  import opened Ranking
  import opened Columns
  import opened Aggregate
  import opened BuildData

  /** The header row of the example sheet. */
  const Headers: Row := ["county", "hasConcerns", "concerns"]
  /** Its one answer row. */
  const Answers: Row := ["Berks", "Yes", "Social media, Screen time"]
  /** The column index of `Headers`. */
  const Cols: map<string, nat> := map["county" := 0, "hasConcerns" := 1, "concerns" := 2]

  lemma FirstConcernParsed()
    ensures ParseMultiSelect("Social media") == ["Social media"]
  {
    assert IsTrimmed("Social media");
    SingleAnswer("Social media");
  }

  lemma LeadingSpaceRemoved()
    ensures TrimStart(" Screen time") == "Screen time"
  {
    assert " Screen time"[1..] == "Screen time";
    assert !IsSpace('S');
  }

  lemma NoTrailingSpace()
    ensures TrimEnd("Screen time") == "Screen time"
  {
    assert !IsSpace('e');
  }

  lemma SecondConcernTrimmed()
    ensures Trim(" Screen time") == "Screen time"
  {
    LeadingSpaceRemoved();
    NoTrailingSpace();
  }

  lemma SecondConcernParsed()
    ensures ParseMultiSelect(" Screen time") == ["Screen time"]
  {
    SecondConcernTrimmed();
    SecondConcernHasNoComma();
    SingleAnswer(" Screen time");
  }

  lemma SecondConcernHasNoComma()
    ensures ',' !in " Screen time"
  {
  }

  lemma ConcernsCellParsed()
    ensures ParseMultiSelect("Social media, Screen time") == ["Social media", "Screen time"]
  {
    ConcernsCellAroundComma();
    FirstConcernParsed();
    SecondConcernParsed();
    ParseAroundComma("Social media", " Screen time");
  }

  lemma ConcernsCellAroundComma()
    ensures "Social media, Screen time" == "Social media" + [','] + " Screen time"
  {
  }

  lemma ColumnsOfExample()
    ensures ColumnIndex(Headers) == Cols
  {
  }

  lemma CountyRead()
    ensures GetCell(Cols, Answers, "county") == "Berks"
  {
    assert Cols["county"] == 0 && Answers[0] == "Berks";
    assert Trim("Berks") == "Berks" by { assert IsTrimmed("Berks"); }
  }

  lemma AnswerRead()
    ensures GetCell(Cols, Answers, "hasConcerns") == "Yes"
  {
    assert Cols["hasConcerns"] == 1 && Answers[1] == "Yes";
    assert Trim("Yes") == "Yes" by { assert IsTrimmed("Yes"); }
  }

  lemma ConcernsRead()
    ensures GetCell(Cols, Answers, "concerns") == "Social media, Screen time"
  {
    assert Cols["concerns"] == 2 && Answers[2] == "Social media, Screen time";
    assert Trim("Social media, Screen time") == "Social media, Screen time" by {
      assert IsTrimmed("Social media, Screen time");
    }
  }

  lemma PoliciesRead()
    ensures GetCell(Cols, Answers, "policies") == []
  {
    assert "policies" !in Cols;
  }

  lemma BerksIncremented()
    ensures Incremented([], "Berks") == [Entry("Berks", 1)]
  {
    assert Trim("Berks") == "Berks" by { assert IsTrimmed("Berks"); }
  }

  lemma CountyCounted()
    ensures CountyStep([], Cols, Answers) == [Entry("Berks", 1)]
  {
    CountyRead();
    BerksIncremented();
  }

  lemma YesBumped()
    ensures Bumped(InitialTopLine, "Yes") == [Entry("Yes", 1), Entry("No", 0)]
  {
    assert InitialTopLine[0].key == "Yes";
    assert InitialTopLine[1..] == [Entry("No", 0)];
  }

  lemma YesCounted()
    ensures TopLineStep(InitialTopLine, Cols, Answers) == [Entry("Yes", 1), Entry("No", 0)]
  {
    AnswerRead();
    YesBumped();
  }

  lemma FirstLabelCounted()
    ensures WithLabels([], ["Social media"]) == [Entry("Social media", 1)]
  {
    assert ["Social media"][..0] == [];
    assert Trim("Social media") == "Social media" by { assert IsTrimmed("Social media"); }
  }

  lemma SecondLabelCounted()
    ensures Incremented([Entry("Social media", 1)], "Screen time")
         == [Entry("Social media", 1), Entry("Screen time", 1)]
  {
    var first := [Entry("Social media", 1)];
    assert Trim("Screen time") == "Screen time" by { assert IsTrimmed("Screen time"); }
    assert "Screen time" != "Social media";
    assert Bumped(first, "Screen time") == [first[0]] + Bumped(first[1..], "Screen time");
    assert first[1..] == [];
  }

  lemma ConcernLabelsCounted()
    ensures WithLabels([], ["Social media", "Screen time"]) == [Entry("Social media", 1), Entry("Screen time", 1)]
  {
    var labels := ["Social media", "Screen time"];
    assert labels[..1] == ["Social media"];
    FirstLabelCounted();
    SecondLabelCounted();
  }

  lemma ConcernsCounted()
    ensures ConcernsStep([], Cols, Answers) == [Entry("Social media", 1), Entry("Screen time", 1)]
  {
    AnswerRead();
    ConcernsRead();
    ConcernsCellParsed();
    ConcernLabelsCounted();
  }

  lemma NoPolicies()
    ensures PoliciesStep([], Cols, Answers) == []
  {
    PoliciesRead();
  }

  lemma ExampleStep(cols: map<string, nat>)
    ensures Step(Initial, cols, [], Some(Answers))
         == Tallies(1, CountyStep([], cols, Answers), InitialSentiment,
                    TopLineStep(InitialTopLine, cols, Answers),
                    ConcernsStep([], cols, Answers), PoliciesStep([], cols, Answers))
  {
    assert IsResponse(Some(Answers)) by { assert Answers[0] != []; }
  }

  lemma ExampleTallies()
    ensures Aggregated(ColumnIndex(Headers), [], [Some(Answers)])
         == Tallies(1, [Entry("Berks", 1)], InitialSentiment, [Entry("Yes", 1), Entry("No", 0)],
                    [Entry("Social media", 1), Entry("Screen time", 1)], [])
  {
    assert [Some(Answers)][..0] == [];
    ColumnsOfExample();
    ExampleStep(Cols);
    CountyCounted();
    YesCounted();
    ConcernsCounted();
    NoPolicies();
  }

  lemma ConcernsAlreadySorted()
    ensures SortByCount([Entry("Social media", 1), Entry("Screen time", 1)])
         == [Entry("Social media", 1), Entry("Screen time", 1)]
  {
    assert [Entry("Social media", 1), Entry("Screen time", 1)][1..] == [Entry("Screen time", 1)];
    assert [Entry("Screen time", 1)][1..] == [];
  }

  lemma CountiesAlreadySorted()
    ensures SortByCount([Entry("Berks", 1)]) == [Entry("Berks", 1)]
  {
    assert [Entry("Berks", 1)][1..] == [];
  }

  /** A sheet with the header row `county, hasConcerns, concerns` and the single
      answer row `Berks, Yes, "Social media, Screen time"` yields one response from
      Berks, one "Yes", and one count for each of the two concerns, in the order
      they were first seen. */
  lemma OneResponseFromBerks(generated: string)
    ensures DashboardOf(Some([Some(Headers), Some(Answers)]), [], generated)
         == Some(Output(generated, 1, [Entry("Berks", 1)], InitialSentiment,
                        [Entry("Yes", 1), Entry("No", 0)],
                        [Entry("Social media", 1), Entry("Screen time", 1)], []))
  {
    assert [Some(Headers), Some(Answers)][1..] == [Some(Answers)];
    ExampleTallies();
    ConcernsAlreadySorted();
    CountiesAlreadySorted();
  }
}
