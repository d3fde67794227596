/** The raw telemetry fetch (services/weatherApiService.ts): three provider
    bodies — forecast, air quality, nearest earthquake — are read into one
    record, or the whole fetch fails with one message.

    A body is the provider's parsed JSON as far as the code reads it. An
    object the code dereferences (`current`, `daily`, a feature's
    `properties`) may be absent, and dereferencing it then throws; the leaf
    values are present numbers and strings. The network request together
    with `.json()` is a `Result`: `Err` for a rejected fetch or unparsable
    text. */
module WeatherApi {
  import opened Wrappers
  import opened Types

  const StableActivity := "مستقر"
  const ObservedActivity := "نشاط مرصود"
  const FetchFailedMessage := "فشل جلب البيانات المتكاملة."

  /** The earthquake query asks for events within this radius ... */
  const SeismicRadiusKm: nat := 500
  /** ... and for at most this many of them. */
  const SeismicLimit: nat := 1

  datatype CurrentWeather = CurrentWeather(
    temperature2m: int,
    relativeHumidity2m: int,
    windSpeed10m: int,
    windDirection10m: int,
    visibility: int,
    apparentTemperature: int,
    weatherCode: int)

  datatype DailyWeather = DailyWeather(
    temperature2mMax: seq<int>,
    temperature2mMin: seq<int>,
    time: seq<string>,
    weatherCode: seq<int>)

  datatype ForecastBody = ForecastBody(current: Option<CurrentWeather>, daily: Option<DailyWeather>)

  datatype AirQualityBody = AirQualityBody(current: Option<AirQualityCurrent>)
  datatype AirQualityCurrent = AirQualityCurrent(usAqi: int)

  datatype QuakeProperties = QuakeProperties(mag: Option<int>, place: Option<string>)
  datatype QuakeFeature = QuakeFeature(properties: Option<QuakeProperties>)
  /** `features` is absent when the body has no such array. */
  datatype QuakeBody = QuakeBody(features: Option<seq<QuakeFeature>>)

  datatype DailySeries = DailySeries(maxTemp: seq<int>, minTemp: seq<int>, time: seq<string>, weatherCode: seq<int>)

  datatype RawWeatherData = RawWeatherData(
    temp: int,
    humidity: int,
    windSpeed: int,
    windDirection: int,
    visibility: int,
    apparentTemp: int,
    weatherCode: int,
    aqi: int,
    seismicData: SeismicSummary,
    daily: DailySeries)

  /** The parameters of the earthquake query for a coordinate. */
  datatype SeismicQuery = SeismicQuery(latitude: int, longitude: int, maxRadiusKm: nat, limit: nat)

  function EarthquakeQuery(lat: int, lng: int): (q: SeismicQuery)
    ensures q.latitude == lat && q.longitude == lng
    ensures q.maxRadiusKm == 500 && q.limit == 1
  {
    SeismicQuery(lat, lng, SeismicRadiusKm, SeismicLimit)
  }

  const StableSummary := SeismicSummary(StableActivity, None, None)

  /** The summaries the seismic rule can produce. */
  predicate IsSeismicSummary(s: SeismicSummary) {
    || (s.activity == StableActivity && s.magnitude.None? && s.nearest.None?)
    || s.activity == ObservedActivity
  }

  /** The seismic rule: no features (absent or empty) is a stable summary;
      otherwise the first feature alone is reported, and a first feature
      without properties makes the fetch throw. */
  function SeismicSummaryOf(body: QuakeBody): (r: Result<SeismicSummary>)
    ensures r.Ok? ==> IsSeismicSummary(r.value)
    ensures r.Err? <==> body.features.Some? && |body.features.value| > 0 && body.features.value[0].properties.None?
    ensures (body.features.None? || |body.features.value| == 0) ==> r == Ok(StableSummary)
    ensures r.Ok? && r.value.activity == ObservedActivity ==>
      && body.features.Some? && |body.features.value| > 0
      && body.features.value[0].properties == Some(QuakeProperties(r.value.magnitude, r.value.nearest))
    ensures body.features.Some? && |body.features.value| > 0 && body.features.value[0].properties.Some? ==>
      var p := body.features.value[0].properties.value;
      r == Ok(SeismicSummary(ObservedActivity, p.mag, p.place))
  {
    match body.features
    case None => Ok(StableSummary)
    case Some(features) =>
      if |features| == 0 then Ok(StableSummary)
      else
        match features[0].properties
        case None => Err(FetchFailedMessage)
        case Some(p) => Ok(SeismicSummary(ObservedActivity, p.mag, p.place))
  }

  /** The record is built only when all three bodies arrived and every object the code dereferences exists. */
  predicate Extractable(forecast: Result<ForecastBody>, air: Result<AirQualityBody>, quake: Result<QuakeBody>) {
    && forecast.Ok? && forecast.value.current.Some? && forecast.value.daily.Some?
    && air.Ok? && air.value.current.Some?
    && quake.Ok? && SeismicSummaryOf(quake.value).Ok?
  }

  /** fetchOpenMeteoData after the three requests settled: all or nothing. */
  function FetchOpenMeteoData(forecast: Result<ForecastBody>, air: Result<AirQualityBody>, quake: Result<QuakeBody>)
    : (r: Result<RawWeatherData>)
    ensures r.Ok? <==> Extractable(forecast, air, quake)
    ensures r.Err? ==> r.message == FetchFailedMessage
    ensures r.Ok? ==>
      var now := forecast.value.current.value;
      var daily := forecast.value.daily.value;
      && r.value.temp == now.temperature2m
      && r.value.humidity == now.relativeHumidity2m
      && r.value.windSpeed == now.windSpeed10m
      && r.value.windDirection == now.windDirection10m
      && r.value.visibility == now.visibility
      && r.value.apparentTemp == now.apparentTemperature
      && r.value.weatherCode == now.weatherCode
      && r.value.aqi == air.value.current.value.usAqi
      && r.value.seismicData == SeismicSummaryOf(quake.value).value
      && r.value.daily == DailySeries(daily.temperature2mMax, daily.temperature2mMin, daily.time, daily.weatherCode)
  {
    if !Extractable(forecast, air, quake) then Err(FetchFailedMessage)
    else
      var now := forecast.value.current.value;
      var daily := forecast.value.daily.value;
      Ok(RawWeatherData(
        now.temperature2m,
        now.relativeHumidity2m,
        now.windSpeed10m,
        now.windDirection10m,
        now.visibility,
        now.apparentTemperature,
        now.weatherCode,
        air.value.current.value.usAqi,
        SeismicSummaryOf(quake.value).value,
        DailySeries(daily.temperature2mMax, daily.temperature2mMin, daily.time, daily.weatherCode)))
  }

  // Bodies a provider could have sent for a given record: the inverse of the extraction.

  function ForecastBodyOf(raw: RawWeatherData): ForecastBody {
    ForecastBody(
      Some(CurrentWeather(raw.temp, raw.humidity, raw.windSpeed, raw.windDirection, raw.visibility, raw.apparentTemp, raw.weatherCode)),
      Some(DailyWeather(raw.daily.maxTemp, raw.daily.minTemp, raw.daily.time, raw.daily.weatherCode)))
  }

  function AirQualityBodyOf(raw: RawWeatherData): AirQualityBody {
    AirQualityBody(Some(AirQualityCurrent(raw.aqi)))
  }

  function QuakeBodyOf(s: SeismicSummary): QuakeBody {
    if s.activity == ObservedActivity then QuakeBody(Some([QuakeFeature(Some(QuakeProperties(s.magnitude, s.nearest)))]))
    else QuakeBody(Some([]))
  }

  /** Every record whose seismic part is a summary the rule can produce is
      extracted, unchanged, from the bodies that describe it. */
  lemma ExtractionRoundTrip(raw: RawWeatherData)
    requires IsSeismicSummary(raw.seismicData)
    ensures FetchOpenMeteoData(Ok(ForecastBodyOf(raw)), Ok(AirQualityBodyOf(raw)), Ok(QuakeBodyOf(raw.seismicData))) == Ok(raw)
  {
    var s := raw.seismicData;
    if s.activity == ObservedActivity {
      assert SeismicSummaryOf(QuakeBodyOf(s)) == Ok(s);
    } else {
      assert SeismicSummaryOf(QuakeBodyOf(s)) == Ok(StableSummary);
    }
  }

  /** Only the first feature counts: whatever follows it never changes the summary. */
  lemma OnlyFirstFeatureCounts(first: QuakeFeature, rest1: seq<QuakeFeature>, rest2: seq<QuakeFeature>)
    ensures SeismicSummaryOf(QuakeBody(Some([first] + rest1))) == SeismicSummaryOf(QuakeBody(Some([first] + rest2)))
  {
    assert ([first] + rest1)[0] == first;
    assert ([first] + rest2)[0] == first;
  }

  /** One failed request fails the whole fetch, whatever the other two returned. */
  lemma AnyFailureFailsAll(forecast: Result<ForecastBody>, air: Result<AirQualityBody>, quake: Result<QuakeBody>)
    requires forecast.Err? || air.Err? || quake.Err?
    ensures FetchOpenMeteoData(forecast, air, quake) == Err(FetchFailedMessage)
  {
  }
}
