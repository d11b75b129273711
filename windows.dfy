/** Window averaging: each hourly series is cut to a four-hour slice with
    Python's clamping slice semantics, summed and divided by four, whatever
    the number of samples the slice actually holds. */
module Windows {
  import opened Rounding

  /** One hourly forecast series (index = hour of the combined two-day period). */
  type Series = seq<real>

  /** The "hourly" object of the forecast payload: field name to series. */
  type Hourly = map<string, Series>

  const LOW_CLOUD: string := "cloudcover_1000hPa"
  const MID_CLOUD: string := "cloudcover_850hPa"
  const HIGH_CLOUD: string := "cloudcover_500hPa"
  const HUMIDITY: string := "relative_humidity_2m"
  const PRESSURE: string := "surface_pressure"

  /** Every window is four hours long and every average divides by this. */
  const WINDOW_HOURS: nat := 4
  /** Morning window: hours 6 to 9, the slice [6:10]. */
  const MORNING_START: nat := 6
  /** Evening window: hours 17 to 20, the slice [17:21]. */
  const EVENING_START: nat := 17

  /** `hourly.get(key, [0])`. */
  function Field(hourly: Hourly, key: string): (s: Series)
    ensures key in hourly ==> s == hourly[key]
    ensures key !in hourly ==> s == [0.0]
  {
    if key in hourly then hourly[key] else [0.0]
  }

  function MinNat(a: nat, b: nat): nat { if a <= b then a else b }

  /** Python's `s[lo:hi]`: bounds beyond the end are cut back to the end. */
  function Slice(s: Series, lo: nat, hi: nat): (r: Series)
    requires lo <= hi
    ensures |r| == MinNat(hi, |s|) - MinNat(lo, |s|)
    ensures |r| <= hi - lo
    ensures forall i :: 0 <= i < |r| ==> r[i] == s[lo + i]
  {
    s[MinNat(lo, |s|)..MinNat(hi, |s|)]
  }

  /** Python's `sum(s)`. */
  function Sum(s: Series): (r: real)
    ensures (forall i :: 0 <= i < |s| ==> 0.0 <= s[i]) ==> 0.0 <= r
  {
    if s == [] then 0.0 else s[0] + Sum(s[1..])
  }

  /** `sum(s[start:start+4]) / 4`. */
  function WindowAverage(s: Series, start: nat): (r: real)
    ensures |s| <= start ==> r == 0.0
    ensures (forall i :: 0 <= i < |s| ==> 0.0 <= s[i]) ==> 0.0 <= r
  {
    Sum(Slice(s, start, start + WINDOW_HOURS)) / (WINDOW_HOURS as real)
  }

  /** The five readings the scorer takes. */
  datatype Readings = Readings(cloudLow: real, cloudMid: real, cloudHigh: real, humidity: real, pressure: real)

  /** The five fields averaged over the window that starts at `start`. */
  function WindowReadings(hourly: Hourly, start: nat): (r: Readings)
    ensures r.cloudLow == WindowAverage(Field(hourly, LOW_CLOUD), start)
    ensures r.cloudMid == WindowAverage(Field(hourly, MID_CLOUD), start)
    ensures r.cloudHigh == WindowAverage(Field(hourly, HIGH_CLOUD), start)
    ensures r.humidity == WindowAverage(Field(hourly, HUMIDITY), start)
    ensures r.pressure == WindowAverage(Field(hourly, PRESSURE), start)
  {
    Readings(
      WindowAverage(Field(hourly, LOW_CLOUD), start),
      WindowAverage(Field(hourly, MID_CLOUD), start),
      WindowAverage(Field(hourly, HIGH_CLOUD), start),
      WindowAverage(Field(hourly, HUMIDITY), start),
      WindowAverage(Field(hourly, PRESSURE), start))
  }

  /** Every reading of `q` is within 0.05 of the same reading of `r`. */
  predicate WithinRounding(q: Readings, r: Readings) {
    && r.cloudLow - 0.05 <= q.cloudLow <= r.cloudLow + 0.05
    && r.cloudMid - 0.05 <= q.cloudMid <= r.cloudMid + 0.05
    && r.cloudHigh - 0.05 <= q.cloudHigh <= r.cloudHigh + 0.05
    && r.humidity - 0.05 <= q.humidity <= r.humidity + 0.05
    && r.pressure - 0.05 <= q.pressure <= r.pressure + 0.05
  }

  /** Each reading rounded to one decimal, as stored in the result. */
  function RoundedReadings(r: Readings): (q: Readings)
    ensures OnTenthGrid(q.cloudLow) && OnTenthGrid(q.cloudMid) && OnTenthGrid(q.cloudHigh)
    ensures OnTenthGrid(q.humidity) && OnTenthGrid(q.pressure)
    ensures WithinRounding(q, r)
  {
    Readings(RoundTenth(r.cloudLow), RoundTenth(r.cloudMid), RoundTenth(r.cloudHigh),
             RoundTenth(r.humidity), RoundTenth(r.pressure))
  }

  // ---------------------------------------------------------------------
  // Properties of the averages

  lemma {:induction false} SumAppend(a: Series, b: Series)
    ensures Sum(a + b) == Sum(a) + Sum(b)
  {
    if a == [] {
      assert a + b == b;
    } else {
      assert (a + b)[1..] == a[1..] + b;
      SumAppend(a[1..], b);
    }
  }

  /** A series covering the whole window averages its four samples. */
  lemma {:induction false} FullWindowAverage(s: Series, start: nat)
    requires start + 4 <= |s|
    ensures WindowAverage(s, start) == (s[start] + s[start + 1] + s[start + 2] + s[start + 3]) / 4.0
  {
    var w := Slice(s, start, start + 4);
    assert w == [s[start]] + ([s[start + 1]] + ([s[start + 2]] + [s[start + 3]]));
    assert Sum([s[start + 3]]) == s[start + 3];
    SumAppend([s[start + 2]], [s[start + 3]]);
    SumAppend([s[start + 1]], [s[start + 2]] + [s[start + 3]]);
    SumAppend([s[start]], [s[start + 1]] + ([s[start + 2]] + [s[start + 3]]));
  }

  /** A series that ends inside the window contributes only the samples it
      has, and the divisor is still 4. */
  lemma PartialWindowAverage(s: Series, start: nat)
    requires start <= |s| < start + 4
    ensures WindowAverage(s, start) == Sum(s[start..]) / 4.0
  {
    assert Slice(s, start, start + WINDOW_HOURS) == s[start..];
  }

  /** A series that ends before the window opens averages to 0. */
  lemma ShortSeriesAveragesToZero(s: Series, start: nat)
    requires |s| <= start
    ensures WindowAverage(s, start) == 0.0
  {
  }

  /** A field missing from the payload defaults to [0] and so averages to 0
      over every window. */
  lemma MissingFieldAveragesToZero(hourly: Hourly, key: string, start: nat)
    requires key !in hourly
    ensures WindowAverage(Field(hourly, key), start) == 0.0
  {
    if start == 0 {
      assert Slice([0.0], 0, WINDOW_HOURS) == [0.0];
    }
  }

  /** Every window of a forecast whose series all end before `start` averages to 0. */
  lemma ShortForecastWindow(hourly: Hourly, start: nat)
    requires 1 <= start
    requires forall key :: key in hourly ==> |hourly[key]| <= start
    ensures WindowReadings(hourly, start) == Readings(0.0, 0.0, 0.0, 0.0, 0.0)
  {
    ShortSeriesAveragesToZero(Field(hourly, LOW_CLOUD), start);
    ShortSeriesAveragesToZero(Field(hourly, MID_CLOUD), start);
    ShortSeriesAveragesToZero(Field(hourly, HIGH_CLOUD), start);
    ShortSeriesAveragesToZero(Field(hourly, HUMIDITY), start);
    ShortSeriesAveragesToZero(Field(hourly, PRESSURE), start);
  }

  /** Bounds on a sum of values that all lie in [0, hi]. */
  lemma {:induction false} SumBounds(s: Series, hi: real)
    requires forall i :: 0 <= i < |s| ==> 0.0 <= s[i] <= hi
    ensures 0.0 <= Sum(s) <= hi * (|s| as real)
  {
    if s != [] {
      SumBounds(s[1..], hi);
    }
  }

  /** With samples in [0, hi] the average is at most hi scaled by the share
      of the window the series covers: missing hours pull it towards 0. */
  lemma {:induction false} WindowAverageBounds(s: Series, start: nat, hi: real)
    requires forall i :: 0 <= i < |s| ==> 0.0 <= s[i] <= hi
    ensures var n := MinNat(start + 4, |s|) - MinNat(start, |s|);
            0.0 <= WindowAverage(s, start) <= hi * (n as real) / 4.0
  {
    var w := Slice(s, start, start + WINDOW_HOURS);
    SumBounds(w, hi);
  }
}
