/** The glow scorer: five averaged readings (low, mid and high cloud cover,
    relative humidity, surface pressure) become a score from 1 to 10, a
    colour band with its star rating, and the clauses that explain it. */
module GlowScorer {
  import opened Rounding
  import opened GlowReasons

  /** Python's `min(a, b)`: the smaller argument, the first one on a tie. */
  function Min(a: real, b: real): (r: real)
    ensures r <= a && r <= b && (r == a || r == b)
  {
    if b < a then b else a
  }

  /** Python's `max(a, b)`: the larger argument, the first one on a tie. */
  function Max(a: real, b: real): (r: real)
    ensures a <= r && b <= r && (r == a || r == b)
  {
    if b > a then b else a
  }

  // ---------------------------------------------------------------------
  // Cloud, humidity and pressure terms

  /** High cloud reflects light: 0.08 per percent, capped at 4. */
  function HighBonus(cloudHigh: real): (r: real)
    ensures r <= 4.0
    ensures 0.0 <= cloudHigh ==> 0.0 <= r
    ensures cloudHigh <= 50.0 ==> r == cloudHigh * 0.08
  {
    Min(cloudHigh * 0.08, 4.0)
  }

  /** Mid cloud scatters light: 0.06 per percent, capped at 3. */
  function MidBonus(cloudMid: real): (r: real)
    ensures r <= 3.0
    ensures 0.0 <= cloudMid ==> 0.0 <= r
    ensures cloudMid <= 50.0 ==> r == cloudMid * 0.06
  {
    Min(cloudMid * 0.06, 3.0)
  }

  /** Low cloud blocks light: 0.05 per percent, capped at 3. */
  function LowPenalty(cloudLow: real): (r: real)
    ensures r <= 3.0
    ensures 0.0 <= cloudLow ==> 0.0 <= r
    ensures cloudLow <= 60.0 ==> r == cloudLow * 0.05
  {
    Min(cloudLow * 0.05, 3.0)
  }

  function CloudScore(cloudLow: real, cloudMid: real, cloudHigh: real): (r: real)
    ensures 0.0 <= cloudLow && 0.0 <= cloudMid && 0.0 <= cloudHigh ==> -3.0 <= r <= 7.0
  {
    HighBonus(cloudHigh) + MidBonus(cloudMid) - LowPenalty(cloudLow)
  }

  /** Humidity band: best between 60 and 80 percent, worst below 40. */
  function HumidityScore(humidity: real): (r: real)
    ensures r == 2.0 <==> 60.0 <= humidity <= 80.0
    ensures r == 1.0 <==> 40.0 <= humidity < 60.0 || 80.0 < humidity
    ensures r == 0.5 <==> humidity < 40.0
    ensures 0.5 <= r <= 2.0
  {
    if 60.0 <= humidity <= 80.0 then 2.0
    else if 40.0 <= humidity then 1.0
    else 0.5
  }

  /** Pressure band: best between 1010 and 1020 hPa. */
  function PressureScore(pressure: real): (r: real)
    ensures r == 1.5 <==> 1010.0 <= pressure <= 1020.0
    ensures r == 0.5 <==> pressure < 1010.0 || 1020.0 < pressure
  {
    if 1010.0 <= pressure <= 1020.0 then 1.5 else 0.5
  }

  /** The weighted composite (weights 0.6, 0.15 and 0.15, as coded). */
  function Weighted(cloudScore: real, humScore: real, pressScore: real): (r: real)
    ensures -3.0 <= cloudScore <= 7.0 && 0.5 <= humScore <= 2.0 && 0.5 <= pressScore <= 1.5 ==>
              -1.65 <= r <= 4.725
  {
    cloudScore * 0.6 + humScore * 0.15 + pressScore * 0.15
  }

  /** The weighted total; for cloud readings that are not negative it lies
      in [-1.65, 4.725]. */
  function Composite(cloudLow: real, cloudMid: real, cloudHigh: real, humidity: real, pressure: real): (r: real)
    ensures 0.0 <= cloudLow && 0.0 <= cloudMid && 0.0 <= cloudHigh ==> -1.65 <= r <= 4.725
  {
    Weighted(CloudScore(cloudLow, cloudMid, cloudHigh), HumidityScore(humidity), PressureScore(pressure))
  }

  /** The composite scaled by 1.2 and clamped to [1, 10], before rounding. */
  function Clamped(cloudLow: real, cloudMid: real, cloudHigh: real, humidity: real, pressure: real): (r: real)
    ensures 1.0 <= r <= 10.0
  {
    Min(Max(Composite(cloudLow, cloudMid, cloudHigh, humidity, pressure) * 1.2, 1.0), 10.0)
  }

  /** The final score: within [1, 10], on the one-decimal grid, and within
      0.05 of the clamped composite. */
  function Score(cloudLow: real, cloudMid: real, cloudHigh: real, humidity: real, pressure: real): (r: real)
    ensures 1.0 <= r <= 10.0
    ensures OnTenthGrid(r)
    ensures var c := Clamped(cloudLow, cloudMid, cloudHigh, humidity, pressure); c - 0.05 <= r <= c + 0.05
  {
    var c := Clamped(cloudLow, cloudMid, cloudHigh, humidity, pressure);
    RoundTenthWithin(10, 100, c);
    RoundTenth(c)
  }

  // ---------------------------------------------------------------------
  // Colour bands

  /** The five colour bands, from best to worst. */
  datatype Band = PurpleRed | GoldenRed | OrangeRed | GrayWhite | AlmostNoGlow

  /** Descending thresholds 8, 6, 4, 2; the first that the score reaches wins. */
  function BandOf(score: real): (b: Band)
    ensures b == PurpleRed <==> 8.0 <= score
    ensures b == GoldenRed <==> 6.0 <= score < 8.0
    ensures b == OrangeRed <==> 4.0 <= score < 6.0
    ensures b == GrayWhite <==> 2.0 <= score < 4.0
    ensures b == AlmostNoGlow <==> score < 2.0
  {
    if score >= 8.0 then PurpleRed
    else if score >= 6.0 then GoldenRed
    else if score >= 4.0 then OrangeRed
    else if score >= 2.0 then GrayWhite
    else AlmostNoGlow
  }

  function StarCount(b: Band): (n: nat)
    ensures 1 <= n <= 5
  {
    match b
    case PurpleRed => 5
    case GoldenRed => 4
    case OrangeRed => 3
    case GrayWhite => 2
    case AlmostNoGlow => 1
  }

  /** The colour label; the "almost no glow" text is used for the lowest band only. */
  function ColorLabel(b: Band): (s: string)
    ensures s == "几乎无霞光" <==> b == AlmostNoGlow
  {
    match b
    case PurpleRed => "紫红色"
    case GoldenRed => "金红色"
    case OrangeRed => "橙红色"
    case GrayWhite => "灰白色"
    case AlmostNoGlow => "几乎无霞光"
  }

  /** The star rating as shown: one star glyph per star. */
  function StarText(n: nat): (s: string)
    ensures |s| == n && forall i :: 0 <= i < n ==> s[i] == '⭐'
  {
    seq(n, _ => '⭐')
  }

  /** A higher score never earns fewer stars. */
  lemma StarsMonotone(s1: real, s2: real)
    requires s1 <= s2
    ensures StarCount(BandOf(s1)) <= StarCount(BandOf(s2))
  {
  }

  /** Each band is distinct in label and star count, so the mapping from
      score to (colour, stars) is a function onto five distinct pairs. */
  lemma BandsDistinct(b1: Band, b2: Band)
    requires b1 != b2
    ensures StarCount(b1) != StarCount(b2)
    ensures ColorLabel(b1) != ColorLabel(b2)
  {
  }

  // ---------------------------------------------------------------------
  // The prediction

  /** What the scorer returns: the Python dict's colour, stars and reason
      strings are views of the band and the clause list. */
  datatype GlowPrediction = GlowPrediction(score: real, band: Band, reasons: seq<Clause>)
  {
    /** The "color" entry. */
    function Color(): (s: string)
      ensures s == "几乎无霞光" <==> band == AlmostNoGlow
    {
      ColorLabel(band)
    }

    /** The "stars" entry: one to five star glyphs, as many as the band earns. */
    function Stars(): (s: string)
      ensures 1 <= |s| <= 5 && |s| == StarCount(band)
      ensures forall i :: 0 <= i < |s| ==> s[i] == '⭐'
    {
      StarText(StarCount(band))
    }

    /** The "reason" entry: the sentinel exactly when no clause fired. */
    function Reason(): (s: string)
      ensures s == AVERAGE_CONDITIONS <==> reasons == []
    {
      ReasonText(reasons)
    }
  }

  function GlowScore(cloudLow: real, cloudMid: real, cloudHigh: real, humidity: real, pressure: real): (g: GlowPrediction)
    ensures 1.0 <= g.score <= 10.0 && OnTenthGrid(g.score)
    ensures g.score == Score(cloudLow, cloudMid, cloudHigh, humidity, pressure)
    ensures g.band == BandOf(g.score)
    ensures g.reasons == Reasons(cloudLow, cloudMid, cloudHigh, humidity)
    ensures g.Reason() == AVERAGE_CONDITIONS <==> g.reasons == []
  {
    var score := Score(cloudLow, cloudMid, cloudHigh, humidity, pressure);
    GlowPrediction(score, BandOf(score), Reasons(cloudLow, cloudMid, cloudHigh, humidity))
  }

  // ---------------------------------------------------------------------
  // Properties of the score

  /** The cloud terms are capped: high bonus at 4, mid bonus at 3, low penalty at 3. */
  lemma CloudTermsCapped(cloudLow: real, cloudMid: real, cloudHigh: real)
    ensures HighBonus(cloudHigh) <= 4.0 && MidBonus(cloudMid) <= 3.0 && LowPenalty(cloudLow) <= 3.0
    ensures 0.0 <= cloudLow && 0.0 <= cloudMid && 0.0 <= cloudHigh ==>
              -3.0 <= CloudScore(cloudLow, cloudMid, cloudHigh) <= 7.0
  {
  }

  /** More high cloud never lowers the score. */
  lemma ScoreMonotoneInHighCloud(cloudLow: real, cloudMid: real, h1: real, h2: real, humidity: real, pressure: real)
    requires h1 <= h2
    ensures Score(cloudLow, cloudMid, h1, humidity, pressure) <= Score(cloudLow, cloudMid, h2, humidity, pressure)
  {
    RoundTenthMonotone(Clamped(cloudLow, cloudMid, h1, humidity, pressure),
                       Clamped(cloudLow, cloudMid, h2, humidity, pressure));
  }

  /** More mid cloud never lowers the score. */
  lemma ScoreMonotoneInMidCloud(cloudLow: real, m1: real, m2: real, cloudHigh: real, humidity: real, pressure: real)
    requires m1 <= m2
    ensures Score(cloudLow, m1, cloudHigh, humidity, pressure) <= Score(cloudLow, m2, cloudHigh, humidity, pressure)
  {
    RoundTenthMonotone(Clamped(cloudLow, m1, cloudHigh, humidity, pressure),
                       Clamped(cloudLow, m2, cloudHigh, humidity, pressure));
  }

  /** More low cloud never raises the score. */
  lemma ScoreAntitoneInLowCloud(l1: real, l2: real, cloudMid: real, cloudHigh: real, humidity: real, pressure: real)
    requires l1 <= l2
    ensures Score(l2, cloudMid, cloudHigh, humidity, pressure) <= Score(l1, cloudMid, cloudHigh, humidity, pressure)
  {
    RoundTenthMonotone(Clamped(l2, cloudMid, cloudHigh, humidity, pressure),
                       Clamped(l1, cloudMid, cloudHigh, humidity, pressure));
  }

  /** With cloud readings that are percentages (not negative), the composite
      is at most 7*0.6 + 2*0.15 + 1.5*0.15 = 4.725, so the score never exceeds
      5.7 and the golden-red and purple-red bands (4 and 5 stars) are never
      reached. */
  lemma ScoreAtMostFivePointSeven(cloudLow: real, cloudMid: real, cloudHigh: real, humidity: real, pressure: real)
    requires 0.0 <= cloudLow && 0.0 <= cloudMid && 0.0 <= cloudHigh
    ensures Score(cloudLow, cloudMid, cloudHigh, humidity, pressure) <= 5.7
    ensures StarCount(BandOf(Score(cloudLow, cloudMid, cloudHigh, humidity, pressure))) <= 3
  {
    var c := Clamped(cloudLow, cloudMid, cloudHigh, humidity, pressure);
    assert c <= 5.67;
    RoundTenthMonotone(c, 5.67);
    assert RoundTenth(5.67) == 5.7 by {
      assert RoundHalfEven(56.7) == 57;
    }
  }

  /** Without high or mid cloud there is no glow: as long as the low-cloud
      reading is not negative the score is the minimum 1.0, whatever the
      humidity and pressure. */
  lemma NoUpperCloudMeansNoGlow(cloudLow: real, cloudMid: real, cloudHigh: real, humidity: real, pressure: real)
    requires 0.0 <= cloudLow && cloudMid <= 0.0 && cloudHigh <= 0.0
    ensures Score(cloudLow, cloudMid, cloudHigh, humidity, pressure) == 1.0
    ensures BandOf(Score(cloudLow, cloudMid, cloudHigh, humidity, pressure)) == AlmostNoGlow
  {
    assert Clamped(cloudLow, cloudMid, cloudHigh, humidity, pressure) == 1.0;
    RoundTenthOfGridValue(10);
  }

  /** Without upper cloud, with little low cloud and humidity outside
      60-80%, the prediction is the lowest score, no glow, and the single
      "few low clouds" reason. */
  lemma ClearDrySky(cloudLow: real, cloudMid: real, cloudHigh: real, humidity: real, pressure: real)
    requires 0.0 <= cloudLow < 15.0 && cloudMid <= 0.0 && cloudHigh <= 0.0
    requires humidity < 60.0 || 80.0 < humidity
    ensures GlowScore(cloudLow, cloudMid, cloudHigh, humidity, pressure)
            == GlowPrediction(1.0, AlmostNoGlow, [FewLowCloud])
  {
    NoUpperCloudMeansNoGlow(cloudLow, cloudMid, cloudHigh, humidity, pressure);
    assert Reasons(cloudLow, cloudMid, cloudHigh, humidity) == [FewLowCloud];
  }

  /** All readings 0 (what a missing forecast averages to): composite 0.15,
      scaled 0.18, clamped up to 1.0. */
  lemma ScoreOfZeroReadings()
    ensures Score(0.0, 0.0, 0.0, 0.0, 0.0) == 1.0
  {
    NoUpperCloudMeansNoGlow(0.0, 0.0, 0.0, 0.0, 0.0);
  }

  /** All readings 0: only the "few low clouds" clause fires. */
  lemma ReasonsOfZeroReadings()
    ensures Reasons(0.0, 0.0, 0.0, 0.0) == [FewLowCloud]
  {
  }

  /** The full prediction for all-zero readings. */
  lemma ZeroReadings()
    ensures GlowScore(0.0, 0.0, 0.0, 0.0, 0.0) == GlowPrediction(1.0, AlmostNoGlow, [FewLowCloud])
  {
    ScoreOfZeroReadings();
    ReasonsOfZeroReadings();
  }

  /** The bound 5.7 is attained: full high and mid cloud, no low cloud,
      humidity and pressure in their best bands. */
  lemma ScoreMaximumAttained()
    ensures Score(0.0, 100.0, 100.0, 65.0, 1015.0) == 5.7
  {
    assert Clamped(0.0, 100.0, 100.0, 65.0, 1015.0) == 5.67;
    assert RoundHalfEven(56.7) == 57;
  }
}
