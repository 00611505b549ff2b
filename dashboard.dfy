/** The two read-only views the dashboard derives from the finished table:
    the average fairness index with its note (`render_fairness_index`) and
    the one-sector narrative (`render_storytelling`).  Only the selection
    and sign logic is modelled; the wording and formatting are not. */
module Dashboard {
  import opened Wrappers
  import opened Series
  import opened CivicMetrics

  /** Which note accompanies the average. */
  datatype Note = HigherIsBetter | UnderFundingNote | OverFundingNote

  /** The average fairness index (`None` for the NaN of an empty table) and
      its note. */
  datatype Summary = Summary(average: Option<real>, note: Note)

  /** How the narrative words the selected sector. */
  datatype Tone = LowestFairness | UnderFunded | OverFunded

  /** The narrative: the selected row's position, its sector, its fairness
      index and the wording chosen for it. */
  datatype Story = Story(row: nat, sector: string, value: real, tone: Tone)

  /** `render_fairness_index`: the mean of the fairness-index column; for
      "proportional" the note always reads "higher is better", for any other
      method it reports under-funding exactly when the mean is negative (a
      NaN mean is not negative). */
  function FairnessSummary(rows: seq<Row>, fairnessMethod: string): (s: Summary)
    ensures s.average.Some? <==> |rows| > 0
    ensures s.average.Some? ==> s.average.value * |rows| as real == Sum(Col(rows, FairnessIndex))
    ensures s.note == HigherIsBetter <==> fairnessMethod == "proportional"
    ensures s.note == UnderFundingNote <==>
              fairnessMethod != "proportional" && s.average.Some? && s.average.value < 0.0
  {
    var average := Mean(Col(rows, FairnessIndex));
    var note :=
      if fairnessMethod == "proportional" then HigherIsBetter
      else if average.Some? && average.value < 0.0 then UnderFundingNote
      else OverFundingNote;
    Summary(average, note)
  }

  /** `render_storytelling`: under "proportional" the first row with the
      lowest index, otherwise the first row with the largest index in
      absolute value, worded "under-funded" exactly when its index is
      negative.  `None` is the ValueError pandas raises on an empty table. */
  function Storytelling(rows: seq<Row>, fairnessMethod: string): (s: Option<Story>)
    ensures s.None? <==> |rows| == 0
    ensures s.Some? ==>
              s.value.row < |rows| &&
              s.value.sector == rows[s.value.row].sector &&
              s.value.value == rows[s.value.row].fairnessIndex
    ensures s.Some? && fairnessMethod == "proportional" ==>
              s.value.tone == LowestFairness &&
              IsFirstMin(Col(rows, FairnessIndex), s.value.row)
    ensures s.Some? && fairnessMethod != "proportional" ==>
              (s.value.tone == UnderFunded <==> s.value.value < 0.0) &&
              (s.value.tone == OverFunded <==> s.value.value >= 0.0) &&
              IsFirstMax(AbsAll(Col(rows, FairnessIndex)), s.value.row)
  {
    if |rows| == 0 then None
    else
      var column := Col(rows, FairnessIndex);
      if fairnessMethod == "proportional" then
        var worst := IdxMin(column);
        Some(Story(worst, rows[worst].sector, rows[worst].fairnessIndex, LowestFairness))
      else
        var largestGap := IdxMax(AbsAll(column));
        var delta := rows[largestGap].fairnessIndex;
        Some(Story(largestGap, rows[largestGap].sector, delta,
                   if delta < 0.0 then UnderFunded else OverFunded))
  }

  /** Under "proportional" the average of a non-empty computed table lies in
      [0, 100], as the note "100% is perfectly proportional" presumes. */
  lemma ProportionalAverageBounded(rows: seq<Row>)
    requires Computable(rows) && |rows| > 0
    ensures var s := FairnessSummary(Metrics(rows, "proportional"), "proportional");
            s.average.Some? && 0.0 <= s.average.value <= 100.0
  {
    var out := Metrics(rows, "proportional");
    forall i | 0 <= i < |out|
      ensures 0.0 <= Col(out, FairnessIndex)[i] <= 100.0
    {
      ProportionalIndex(rows, i);
    }
    MeanBounds(Col(out, FairnessIndex), 0.0, 100.0);
  }

  /** Under "difference" the indices of a non-empty computed table sum to
      100 - 100 = 0, so the average is exactly 0 and the note is always the
      over-funding one. */
  lemma DifferenceAverageIsZero(rows: seq<Row>)
    requires Computable(rows) && |rows| > 0
    ensures FairnessSummary(Metrics(rows, "difference"), "difference") == Summary(Some(0.0), OverFundingNote)
  {
    DifferenceIndicesSumToZero(rows);
    var column := Col(Metrics(rows, "difference"), FairnessIndex);
    assert Mean(column) == Some(0.0);
  }

  /** Under "proportional" the narrative reports an index within [0, 100]. */
  lemma ProportionalStoryBounded(rows: seq<Row>)
    requires Computable(rows) && |rows| > 0
    ensures var s := Storytelling(Metrics(rows, "proportional"), "proportional");
            s.Some? && 0.0 <= s.value.value <= 100.0
  {
    var s := Storytelling(Metrics(rows, "proportional"), "proportional");
    ProportionalIndex(rows, s.value.row);
  }
}
