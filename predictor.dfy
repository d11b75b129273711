/** Prediction assembly: the forecast and sun-time payloads (fetched over
    the network by the original, passed in here) become one result record
    holding the two window averages and the sunrise and sunset predictions. */
module Predictor {
  import opened Wrappers
  import opened Rounding
  import opened GlowScorer
  import opened Windows

  /** Where to predict for; the time zone only steers the forecast request. */
  datatype Location = Location(name: string, latitude: real, longitude: real, timezone: string)

  datatype SunTimes = SunTimes(sunrise: string, sunset: string)

  /** The key whose absence from the sun-time payload ends the request. */
  datatype PredictError = MissingKey(key: string)

  datatype PredictionResult = PredictionResult(
    location: string,
    latitude: real,
    longitude: real,
    date: string,
    sunTimes: SunTimes,
    morningWeather: Readings,
    eveningWeather: Readings,
    sunriseGlow: GlowPrediction,
    sunsetGlow: GlowPrediction)

  /** `weather.get("hourly", {})`: a payload without the key has no series. */
  function HourlyOf(weatherHourly: Option<Hourly>): (h: Hourly)
    ensures weatherHourly.None? ==> h == map[]
    ensures weatherHourly.Some? ==> h == weatherHourly.value
  {
    if weatherHourly.Some? then weatherHourly.value else map[]
  }

  /** `sun_times["results"]["sunrise"]` and `["sunset"]`: each missing key
      is an error, checked in that order. */
  function SunTimesOf(results: Option<map<string, string>>): (r: Result<SunTimes, PredictError>)
    ensures r.Success? <==> results.Some? && "sunrise" in results.value && "sunset" in results.value
    ensures r.Success? ==> r.value == SunTimes(results.value["sunrise"], results.value["sunset"])
    ensures results.None? ==> r == Failure(MissingKey("results"))
    ensures results.Some? && "sunrise" !in results.value ==> r == Failure(MissingKey("sunrise"))
    ensures results.Some? && "sunrise" in results.value && "sunset" !in results.value ==>
              r == Failure(MissingKey("sunset"))
  {
    if results.None? then Failure(MissingKey("results"))
    else if "sunrise" !in results.value then Failure(MissingKey("sunrise"))
    else if "sunset" !in results.value then Failure(MissingKey("sunset"))
    else Success(SunTimes(results.value["sunrise"], results.value["sunset"]))
  }

  /** The scorer applied to one window's averages. */
  function ScoreReadings(r: Readings): (g: GlowPrediction)
    ensures 1.0 <= g.score <= 10.0 && OnTenthGrid(g.score)
    ensures g.score == Score(r.cloudLow, r.cloudMid, r.cloudHigh, r.humidity, r.pressure)
    ensures g.band == BandOf(g.score)
    ensures g.reasons == GlowReasons.Reasons(r.cloudLow, r.cloudMid, r.cloudHigh, r.humidity)
  {
    GlowScore(r.cloudLow, r.cloudMid, r.cloudHigh, r.humidity, r.pressure)
  }

  /** One prediction request, all or nothing: the sunrise prediction scores
      the morning averages, the sunset prediction the evening averages, and
      the stored weather is those same averages rounded to one decimal. */
  function Predict(location: Location, date: string, weatherHourly: Option<Hourly>,
                   sunResults: Option<map<string, string>>): (r: Result<PredictionResult, PredictError>)
    ensures r.Success? <==> SunTimesOf(sunResults).Success?
    ensures r.Failure? ==> r.error == SunTimesOf(sunResults).error
    ensures r.Success? ==>
              var hourly := HourlyOf(weatherHourly);
              var morning := WindowReadings(hourly, MORNING_START);
              var evening := WindowReadings(hourly, EVENING_START);
              && r.value.location == location.name
              && r.value.latitude == location.latitude
              && r.value.longitude == location.longitude
              && r.value.date == date
              && r.value.sunTimes == SunTimesOf(sunResults).value
              && r.value.sunriseGlow == GlowScore(morning.cloudLow, morning.cloudMid, morning.cloudHigh,
                                                  morning.humidity, morning.pressure)
              && r.value.sunsetGlow == GlowScore(evening.cloudLow, evening.cloudMid, evening.cloudHigh,
                                                 evening.humidity, evening.pressure)
              && r.value.morningWeather == RoundedReadings(morning)
              && r.value.eveningWeather == RoundedReadings(evening)
  {
    var hourly := HourlyOf(weatherHourly);
    var morning := WindowReadings(hourly, MORNING_START);
    var evening := WindowReadings(hourly, EVENING_START);
    var sunrisePred := ScoreReadings(morning);
    var sunsetPred := ScoreReadings(evening);
    match SunTimesOf(sunResults)
    case Failure(e) => Failure(e)
    case Success(sun) =>
      Success(PredictionResult(location.name, location.latitude, location.longitude, date, sun,
                               RoundedReadings(morning), RoundedReadings(evening), sunrisePred, sunsetPred))
  }

  // ---------------------------------------------------------------------
  // Properties of a prediction

  /** Both predictions carry a score in [1, 10] on the one-decimal grid, and
      the stored averages are within 0.05 of the averages that were scored. */
  lemma PredictionScoresInRange(location: Location, date: string, weatherHourly: Option<Hourly>,
                                sunResults: Option<map<string, string>>)
    requires Predict(location, date, weatherHourly, sunResults).Success?
    ensures var p := Predict(location, date, weatherHourly, sunResults).value;
            && 1.0 <= p.sunriseGlow.score <= 10.0 && OnTenthGrid(p.sunriseGlow.score)
            && 1.0 <= p.sunsetGlow.score <= 10.0 && OnTenthGrid(p.sunsetGlow.score)
            && WithinRounding(p.morningWeather, WindowReadings(HourlyOf(weatherHourly), MORNING_START))
            && WithinRounding(p.eveningWeather, WindowReadings(HourlyOf(weatherHourly), EVENING_START))
  {
  }

  /** A forecast whose series all end before hour 6 averages every reading
      to 0 in both windows: score 1.0, no glow, and only the "few low
      clouds" reason. */
  lemma ShortForecastGivesLowestScore(location: Location, date: string, hourly: Hourly,
                                      sunResults: Option<map<string, string>>)
    requires SunTimesOf(sunResults).Success?
    requires forall key :: key in hourly ==> |hourly[key]| <= MORNING_START
    ensures var p := Predict(location, date, Some(hourly), sunResults).value;
            && p.sunriseGlow == GlowPrediction(1.0, AlmostNoGlow, [GlowReasons.FewLowCloud])
            && p.sunsetGlow == GlowPrediction(1.0, AlmostNoGlow, [GlowReasons.FewLowCloud])
            && p.morningWeather == Readings(0.0, 0.0, 0.0, 0.0, 0.0)
            && p.eveningWeather == Readings(0.0, 0.0, 0.0, 0.0, 0.0)
  {
    ShortForecastWindow(hourly, MORNING_START);
    ShortForecastWindow(hourly, EVENING_START);
    RoundTenthOfGridValue(0);
    ZeroReadings();
  }

  /** A response without the "hourly" object is scored as the empty forecast. */
  lemma NoForecastGivesLowestScore(location: Location, date: string, sunResults: Option<map<string, string>>)
    requires SunTimesOf(sunResults).Success?
    ensures var p := Predict(location, date, None, sunResults).value;
            && p.sunriseGlow == GlowPrediction(1.0, AlmostNoGlow, [GlowReasons.FewLowCloud])
            && p.sunsetGlow == GlowPrediction(1.0, AlmostNoGlow, [GlowReasons.FewLowCloud])
  {
    var empty: Hourly := map[];
    assert Predict(location, date, None, sunResults) == Predict(location, date, Some(empty), sunResults);
    ShortForecastGivesLowestScore(location, date, empty, sunResults);
  }

  /** Only hours 6 to 9 decide the sunrise prediction: two forecasts that
      agree on those hours of every field give the same sunrise prediction. */
  lemma {:induction false} SunriseDependsOnMorningOnly(location: Location, date: string, h1: Hourly, h2: Hourly,
                                                       sunResults: Option<map<string, string>>)
    requires SunTimesOf(sunResults).Success?
    requires forall key :: key in {LOW_CLOUD, MID_CLOUD, HIGH_CLOUD, HUMIDITY, PRESSURE} ==>
               Slice(Field(h1, key), MORNING_START, MORNING_START + 4)
               == Slice(Field(h2, key), MORNING_START, MORNING_START + 4)
    ensures Predict(location, date, Some(h1), sunResults).value.sunriseGlow
            == Predict(location, date, Some(h2), sunResults).value.sunriseGlow
  {
    assert WindowReadings(h1, MORNING_START) == WindowReadings(h2, MORNING_START) by {
      assert LOW_CLOUD in {LOW_CLOUD, MID_CLOUD, HIGH_CLOUD, HUMIDITY, PRESSURE};
      assert MID_CLOUD in {LOW_CLOUD, MID_CLOUD, HIGH_CLOUD, HUMIDITY, PRESSURE};
      assert HIGH_CLOUD in {LOW_CLOUD, MID_CLOUD, HIGH_CLOUD, HUMIDITY, PRESSURE};
      assert HUMIDITY in {LOW_CLOUD, MID_CLOUD, HIGH_CLOUD, HUMIDITY, PRESSURE};
      assert PRESSURE in {LOW_CLOUD, MID_CLOUD, HIGH_CLOUD, HUMIDITY, PRESSURE};
    }
  }

  /** Only hours 17 to 20 decide the sunset prediction. */
  lemma {:induction false} SunsetDependsOnEveningOnly(location: Location, date: string, h1: Hourly, h2: Hourly,
                                                      sunResults: Option<map<string, string>>)
    requires SunTimesOf(sunResults).Success?
    requires forall key :: key in {LOW_CLOUD, MID_CLOUD, HIGH_CLOUD, HUMIDITY, PRESSURE} ==>
               Slice(Field(h1, key), EVENING_START, EVENING_START + 4)
               == Slice(Field(h2, key), EVENING_START, EVENING_START + 4)
    ensures Predict(location, date, Some(h1), sunResults).value.sunsetGlow
            == Predict(location, date, Some(h2), sunResults).value.sunsetGlow
  {
    assert WindowReadings(h1, EVENING_START) == WindowReadings(h2, EVENING_START) by {
      assert LOW_CLOUD in {LOW_CLOUD, MID_CLOUD, HIGH_CLOUD, HUMIDITY, PRESSURE};
      assert MID_CLOUD in {LOW_CLOUD, MID_CLOUD, HIGH_CLOUD, HUMIDITY, PRESSURE};
      assert HIGH_CLOUD in {LOW_CLOUD, MID_CLOUD, HIGH_CLOUD, HUMIDITY, PRESSURE};
      assert HUMIDITY in {LOW_CLOUD, MID_CLOUD, HIGH_CLOUD, HUMIDITY, PRESSURE};
      assert PRESSURE in {LOW_CLOUD, MID_CLOUD, HIGH_CLOUD, HUMIDITY, PRESSURE};
    }
  }
}
