/** The records the dashboard passes around (types.ts). Numbers the browser
    holds as IEEE doubles (temperatures, coordinates, the air-quality index,
    magnitudes) are integers here; text the code only displays is an opaque
    string. */
module Types {
  import opened Wrappers

  /** Declared in increasing order of danger. */
  datatype AlertSeverity = LOW | MEDIUM | HIGH | CRITICAL

  /** One alert of the synthesized report; `category` is the source's `type` field. */
  datatype WeatherAlert = WeatherAlert(
    id: string,
    title: string,
    description: string,
    severity: AlertSeverity,
    category: string,
    timestamp: string)

  datatype ForecastDay = ForecastDay(day: string, temp: string, condition: string)

  datatype Source = Source(title: string, uri: string)

  /** `rating` is the source's `label` field. */
  datatype AqiReading = AqiReading(value: int, rating: string, color: string)

  /** The nearest-earthquake summary; magnitude and place are absent when nothing was recorded. */
  datatype SeismicSummary = SeismicSummary(activity: string, magnitude: Option<int>, nearest: Option<string>)

  /** The display-ready weather record. `aqi` and `seismic` are optional in the
      source's type; every record the dashboard builds carries both. */
  datatype WeatherData = WeatherData(
    temp: int,
    condition: string,
    location: string,
    humidity: int,
    windSpeed: int,
    windDirection: string,
    visibility: string,
    timestamp: string,
    riskAnalysis: string,
    infrastructureImpact: string,
    protocols: seq<string>,
    forecast: seq<ForecastDay>,
    alerts: seq<WeatherAlert>,
    sources: seq<Source>,
    aqi: Option<AqiReading>,
    seismic: Option<SeismicSummary>)

  /** What the dashboard shows about the selected place. */
  datatype LocationState = LocationState(
    lat: Option<int>,
    lng: Option<int>,
    address: string,
    loading: bool,
    error: Option<string>)
}
