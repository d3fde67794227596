/** The narrative-synthesis client (services/geminiService.ts): the API-key
    lookup, the location resolver and the assembly of a `WeatherData` from the
    language model's report and the raw telemetry. The model calls themselves
    are abstract: each is a `Result` the caller supplies. */
module Gemini {
  import opened Wrappers
  import opened Types
  import opened WeatherApi
  import Decimal

  const MissingKeyMessage := "Missing Gemini API key. Set it in Settings or as an environment variable."
  const LocationFailedMessage := "فشل تحديد الموقع."

  // ---------------------------------------------------------------- API key

  /** The three places a key may come from. `inBrowser` is `typeof window !== 'undefined'`;
      outside a browser the stored key is not consulted. */
  datatype KeySources = KeySources(inBrowser: bool, stored: Option<string>, geminiEnv: Option<string>, apiEnv: Option<string>)

  /** JavaScript truthiness of a string that may be null or undefined. */
  predicate Truthy(v: Option<string>) {
    v.Some? && v.value != ""
  }

  /** The candidates getApiKey consults, in order of precedence. */
  function Candidates(k: KeySources): seq<Option<string>> {
    if k.inBrowser then [k.stored, k.geminiEnv, k.apiEnv] else [k.geminiEnv, k.apiEnv]
  }

  /** `a || b || c`: the first truthy candidate, or else the last one as it is. */
  function GetApiKey(k: KeySources): (r: Option<string>)
    ensures Truthy(r) <==> exists i :: 0 <= i < |Candidates(k)| && Truthy(Candidates(k)[i])
    ensures Truthy(r) ==>
      exists i :: 0 <= i < |Candidates(k)| && r == Candidates(k)[i] && forall j :: 0 <= j < i ==> !Truthy(Candidates(k)[j])
    ensures !Truthy(r) ==> r == k.apiEnv
  {
    var c := Candidates(k);
    if k.inBrowser && Truthy(k.stored) then
      assert c[0] == k.stored;
      k.stored
    else if Truthy(k.geminiEnv) then
      var i := if k.inBrowser then 1 else 0;
      assert c[i] == k.geminiEnv;
      k.geminiEnv
    else
      assert c[|c| - 1] == k.apiEnv;
      k.apiEnv
  }

  /** getAI: the key the client is built with, or the missing-key error. */
  function GetAI(k: KeySources): (r: Result<string>)
    ensures r.Ok? <==> exists i :: 0 <= i < |Candidates(k)| && Truthy(Candidates(k)[i])
    ensures r.Ok? ==> r.value != "" && Some(r.value) == GetApiKey(k)
    ensures r.Err? ==> r.message == MissingKeyMessage
  {
    var key := GetApiKey(k);
    if Truthy(key) then Ok(key.value) else Err(MissingKeyMessage)
  }

  /** A key saved in the browser wins over both environment variables; the
      Gemini variable wins over the generic one. */
  lemma KeyPrecedence(k: KeySources)
    ensures k.inBrowser && Truthy(k.stored) ==> GetAI(k) == Ok(k.stored.value)
    ensures !(k.inBrowser && Truthy(k.stored)) && Truthy(k.geminiEnv) ==> GetAI(k) == Ok(k.geminiEnv.value)
    ensures !(k.inBrowser && Truthy(k.stored)) && !Truthy(k.geminiEnv) && Truthy(k.apiEnv) ==> GetAI(k) == Ok(k.apiEnv.value)
    ensures !(k.inBrowser && Truthy(k.stored)) && !Truthy(k.geminiEnv) && !Truthy(k.apiEnv) ==> GetAI(k) == Err(MissingKeyMessage)
  {
  }

  // ------------------------------------------------------- location resolver

  datatype Place = Place(lat: int, lng: int, name: string)

  /** resolveLocationCoords: `response` is the model's answer, already parsed
      against the {lat, lng, name} schema (`Err` for a provider error or
      unparsable text). Every failure, the missing key included, becomes one
      message. */
  function ResolveLocationCoords(keys: KeySources, response: Result<Place>): (r: Result<Place>)
    ensures r.Ok? <==> GetAI(keys).Ok? && response.Ok?
    ensures r.Ok? ==> r.value == response.value
    ensures r.Err? ==> r.message == LocationFailedMessage
  {
    match GetAI(keys)
    case Err(_) => Err(LocationFailedMessage)
    case Ok(_) =>
      match response
      case Err(_) => Err(LocationFailedMessage)
      case Ok(place) => Ok(place)
  }

  // ------------------------------------------------------ AQI classification

  datatype AqiBand = Good | Moderate | Unhealthy | VeryUnhealthy

  function BandLabel(b: AqiBand): string {
    match b
    case Good => "جيد"
    case Moderate => "متوسط"
    case Unhealthy => "غير صحي"
    case VeryUnhealthy => "خطر جداً"
  }

  function BandColor(b: AqiBand): string {
    match b
    case Good => "#22c55e"
    case Moderate => "#eab308"
    case Unhealthy => "#f97316"
    case VeryUnhealthy => "#ef4444"
  }

  /** Bands in increasing order of harm. */
  function Rank(b: AqiBand): nat {
    match b
    case Good => 0
    case Moderate => 1
    case Unhealthy => 2
    case VeryUnhealthy => 3
  }

  /** The breakpoint table: each band is a half-open interval (lower, upper]. */
  predicate InBand(aqi: int, b: AqiBand) {
    match b
    case Good => aqi <= 50
    case Moderate => 50 < aqi <= 100
    case Unhealthy => 100 < aqi <= 150
    case VeryUnhealthy => 150 < aqi
  }

  function ClassifyAqi(aqi: int): (b: AqiBand)
    ensures InBand(aqi, b)
    ensures forall other: AqiBand :: InBand(aqi, other) ==> other == b
  {
    if aqi > 150 then VeryUnhealthy
    else if aqi > 100 then Unhealthy
    else if aqi > 50 then Moderate
    else Good
  }

  /** A worse air-quality index never yields a milder band. */
  lemma ClassifyAqiMonotone(a: int, b: int)
    requires a <= b
    ensures Rank(ClassifyAqi(a)) <= Rank(ClassifyAqi(b))
  {
  }

  /** The boundary values belong to the lower band. */
  lemma AqiBoundaries()
    ensures ClassifyAqi(151) == VeryUnhealthy && ClassifyAqi(150) == Unhealthy
    ensures ClassifyAqi(101) == Unhealthy && ClassifyAqi(100) == Moderate
    ensures ClassifyAqi(51) == Moderate && ClassifyAqi(50) == Good && ClassifyAqi(49) == Good
  {
  }

  function AqiReadingOf(aqi: int): (r: AqiReading)
    ensures r.value == aqi
    ensures exists b :: InBand(aqi, b) && r.rating == BandLabel(b) && r.color == BandColor(b)
  {
    var b := ClassifyAqi(aqi);
    AqiReading(aqi, BandLabel(b), BandColor(b))
  }

  // ---------------------------------------------------------------- assembly

  /** The model's report: the keys the response schema asks for. Any other
      key the model returns is not represented; the assembly overrides temp,
      humidity, windSpeed, windDirection, visibility, timestamp, aqi, seismic
      and sources, and would keep any other extra key as it came. */
  datatype ProviderReport = ProviderReport(
    condition: string,
    location: string,
    riskAnalysis: string,
    infrastructureImpact: string,
    protocols: seq<string>,
    forecast: seq<ForecastDay>,
    alerts: seq<WeatherAlert>)

  /** `${windDirection}°` */
  function WindDirectionText(degrees: int): string {
    Decimal.Show(degrees) + "°"
  }

  /** The wind-direction text ends in a degree sign and reads back as the raw number. */
  lemma WindDirectionReadsBack(degrees: int)
    ensures var s := WindDirectionText(degrees);
      && 1 < |s| && s[|s| - 1] == '°'
      && var figure := s[..|s| - 1];
      && (figure[0] == '-' ==> Decimal.AllDigits(figure[1..]))
      && (figure[0] != '-' ==> Decimal.AllDigits(figure))
      && Decimal.Parse(figure) == degrees
  {
    var s := WindDirectionText(degrees);
    assert s[..|s| - 1] == Decimal.Show(degrees);
    Decimal.ShowRoundTrip(degrees);
  }

  /** The report's narrative fields are kept; the numbers come from the
      telemetry; air quality is classified locally; sources are emptied.
      `timeLabel` is the localised clock text and `visibilityKm` the
      one-decimal kilometre figure, both rendered by the browser. */
  function Assemble(report: ProviderReport, raw: RawWeatherData, timeLabel: string, visibilityKm: string): (w: WeatherData)
    ensures w.temp == raw.temp && w.humidity == raw.humidity && w.windSpeed == raw.windSpeed
    ensures w.aqi.Some? && w.aqi.value.value == raw.aqi && InBand(raw.aqi, ClassifyAqi(raw.aqi))
    ensures w.aqi.value.rating == BandLabel(ClassifyAqi(raw.aqi)) && w.aqi.value.color == BandColor(ClassifyAqi(raw.aqi))
    ensures w.seismic == Some(raw.seismicData) && w.sources == []
    ensures && w.condition == report.condition && w.location == report.location
            && w.riskAnalysis == report.riskAnalysis && w.infrastructureImpact == report.infrastructureImpact
            && w.protocols == report.protocols && w.forecast == report.forecast && w.alerts == report.alerts
    ensures w.windDirection == WindDirectionText(raw.windDirection)
    ensures w.timestamp == timeLabel && w.visibility == visibilityKm + " كم"
  {
    WeatherData(
      raw.temp,
      report.condition,
      report.location,
      raw.humidity,
      raw.windSpeed,
      WindDirectionText(raw.windDirection),
      visibilityKm + " كم",
      timeLabel,
      report.riskAnalysis,
      report.infrastructureImpact,
      report.protocols,
      report.forecast,
      report.alerts,
      [],
      Some(AqiReadingOf(raw.aqi)),
      Some(raw.seismicData))
  }

  /** fetchLiveWeatherData: the key is looked up before the model is asked, and
      a model failure propagates as it is. */
  function FetchLiveWeatherData(keys: KeySources, response: Result<ProviderReport>, raw: RawWeatherData,
                                timeLabel: string, visibilityKm: string): (r: Result<WeatherData>)
    ensures r.Ok? <==> GetAI(keys).Ok? && response.Ok?
    ensures GetAI(keys).Err? ==> r == Err(MissingKeyMessage)
    ensures GetAI(keys).Ok? && response.Err? ==> r == Err(response.message)
    ensures r.Ok? ==> r.value == Assemble(response.value, raw, timeLabel, visibilityKm)
  {
    match GetAI(keys)
    case Err(e) => Err(e)
    case Ok(_) =>
      match response
      case Err(e) => Err(e)
      case Ok(report) => Ok(Assemble(report, raw, timeLabel, visibilityKm))
  }

  /** Without a key the answer of the model never matters: nothing is sent. */
  lemma MissingKeyBeforeProviderCall(keys: KeySources, r1: Result<ProviderReport>, r2: Result<ProviderReport>,
                                     raw: RawWeatherData, timeLabel: string, visibilityKm: string)
    requires forall i :: 0 <= i < |Candidates(keys)| ==> !Truthy(Candidates(keys)[i])
    ensures FetchLiveWeatherData(keys, r1, raw, timeLabel, visibilityKm) == Err(MissingKeyMessage)
    ensures FetchLiveWeatherData(keys, r1, raw, timeLabel, visibilityKm) == FetchLiveWeatherData(keys, r2, raw, timeLabel, visibilityKm)
  {
  }
}
