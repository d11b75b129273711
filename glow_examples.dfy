/** Worked examples of the scorer, each pinned to its exact prediction and,
    where it is short enough to evaluate, its explanation text. */
module GlowExamples {
  import opened Rounding
  import opened GlowReasons
  import opened GlowScorer

  // Single evaluation steps, each in its own small proof.

  lemma CloudScoreOfHighCloudMorning()
    ensures CloudScore(10.0, 20.0, 50.0) == 4.7
  {
  }

  lemma ScoreOfHighCloudMorning()
    ensures Score(10.0, 20.0, 50.0, 70.0, 1015.0) == 4.0
  {
    CloudScoreOfHighCloudMorning();
    assert Clamped(10.0, 20.0, 50.0, 70.0, 1015.0) == 4.014;
    RoundHalfEvenUnique(40.14, 40);
  }

  lemma TextOfHighCloudMorning()
    ensures ReasonText([HighCloud(50.0), FewLowCloud, ModerateHumidity]) == "高云 50%，低云少，湿度适中"
  {
    RoundHalfEvenUnique(50.0, 50);
    assert NatText(50) == "50";
    assert ClauseText(HighCloud(50.0)) == "高云 50%";
    assert ClauseTexts([HighCloud(50.0), FewLowCloud, ModerateHumidity]) == ["高云 50%", "低云少", "湿度适中"];
    assert Join(["湿度适中"], SEPARATOR) == "湿度适中";
    assert Join(["低云少", "湿度适中"], SEPARATOR) == "低云少，湿度适中";
  }

  /** Clear low sky under thick high cloud, moderate humidity, normal pressure:
      composite 3.345, scaled 4.014, score 4.0, orange-red with three stars. */
  lemma HighCloudMorning()
    ensures var g := GlowScore(10.0, 20.0, 50.0, 70.0, 1015.0);
            && g == GlowPrediction(4.0, OrangeRed, [HighCloud(50.0), FewLowCloud, ModerateHumidity])
            && g.Color() == "橙红色" && g.Stars() == "⭐⭐⭐"
            && g.Reason() == "高云 50%，低云少，湿度适中"
  {
    ScoreOfHighCloudMorning();
    assert Reasons(10.0, 20.0, 50.0, 70.0) == [HighCloud(50.0), FewLowCloud, ModerateHumidity];
    TextOfHighCloudMorning();
  }

  /** The single clause of a clear, dry sky reads "低云少". */
  lemma TextOfFewLowCloud()
    ensures ReasonText([FewLowCloud]) == "低云少"
  {
    assert ClauseTexts([FewLowCloud]) == ["低云少"];
  }

  /** Full high and mid cloud, no low cloud, best humidity and pressure:
      composite 4.725, scaled 5.67, score 5.7, still only orange-red. */
  lemma BestPossibleSky()
    ensures var g := GlowScore(0.0, 100.0, 100.0, 65.0, 1015.0);
            g == GlowPrediction(5.7, OrangeRed, [HighCloud(100.0), MidCloud(100.0), FewLowCloud, ModerateHumidity])
  {
    ScoreMaximumAttained();
    assert Reasons(0.0, 100.0, 100.0, 65.0) == [HighCloud(100.0), MidCloud(100.0), FewLowCloud, ModerateHumidity];
  }
}
