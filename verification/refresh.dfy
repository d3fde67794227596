/** The refresh orchestration of the dashboard (App.tsx): the choice between
    the full path (telemetry plus synthesis, replacing the weather record) and
    the cheap path (telemetry only, patching four live fields), the location
    display state around it, and the three ways a refresh is started: a
    search, a device fix and the restore-or-locate step at start-up.

    Every call into the outside world (the telemetry fetch, the language
    model, the geolocation service, the saved-location store) is an input.
    Each operation returns the state once every call it makes has settled,
    including the refresh that a search, a device fix or start-up launches
    without awaiting it; overlapping refreshes are not modelled, and the code
    has no mechanism that orders or cancels them. */
module Refresh {
  import opened Wrappers
  import opened Types
  import opened WeatherApi
  import opened Gemini
  import opened Severity

  /** Thirty minutes: an older full sync is stale. */
  const StaleAfterMs := 1800000

  const SyncFailedMessage := "فشل المزامنة"
  const LocationNotFoundMessage := "لم يتم العثور على الموقع"
  const GpsDisabledMessage := "GPS معطل"
  const CurrentLocationAddress := "الموقع الحالي"
  const SavedLocationAddress := "موقع محفوظ"
  const LocatingAddress := "جاري التحديد..."

  /** The App component's state that the core reads and writes. Times are milliseconds since the epoch. */
  datatype Session = Session(
    weather: Option<WeatherData>,
    lastSyncTime: Option<int>,
    location: LocationState,
    alarmMuted: bool)

  function InitialSession(): (s: Session)
    ensures s.weather.None? && s.lastSyncTime.None? && !s.alarmMuted
    ensures s.location == LocationState(None, None, LocatingAddress, true, None)
  {
    Session(None, None, LocationState(None, None, LocatingAddress, true, None), false)
  }

  /** A weather record only ever arrives together with the time of its full sync. */
  predicate SyncInvariant(s: Session) {
    s.weather.Some? ==> s.lastSyncTime.Some?
  }

  /** What the outside world answers during one refresh: the telemetry fetch
      (already reduced to a record or the fetch error), the key sources, the
      model's report, and the browser's one-decimal rendering of the fetched
      visibility in kilometres. */
  datatype Providers = Providers(
    telemetry: Result<RawWeatherData>,
    keys: KeySources,
    report: Result<ProviderReport>,
    visibilityKm: string)

  /** The clock as the refresh reads it, and its localised time-of-day text. */
  datatype Moment = Moment(nowMs: int, timeLabel: string)

  /** Which way a refresh went: no refresh, stopped by the telemetry fetch, full path, cheap path. */
  datatype Route = Skipped | TelemetryFailed | Full | Cheap

  datatype Refreshed = Refreshed(session: Session, route: Route)

  /** The staleness rule: a manual trigger, no weather yet, or a full sync
      more than thirty minutes old. */
  predicate ShouldCallAI(manual: bool, weather: Option<WeatherData>, lastSyncTime: Option<int>, nowMs: int) {
    manual || weather.None? || (lastSyncTime.Some? && nowMs - lastSyncTime.value > StaleAfterMs)
  }

  /** `b` is `a` with at most the four live fields changed. */
  predicate SameNarrative(a: WeatherData, b: WeatherData) {
    a.(temp := b.temp, humidity := b.humidity, windSpeed := b.windSpeed, timestamp := b.timestamp) == b
  }

  /** The cheap path's functional update of the previous weather record. */
  function PatchLive(prev: Option<WeatherData>, raw: RawWeatherData, timeLabel: string): (r: Option<WeatherData>)
    ensures r.None? <==> prev.None?
    ensures r.Some? ==>
      && r.value.temp == raw.temp && r.value.humidity == raw.humidity
      && r.value.windSpeed == raw.windSpeed && r.value.timestamp == timeLabel
      && SameNarrative(prev.value, r.value)
  {
    match prev
    case None => None
    case Some(w) => Some(w.(temp := raw.temp, humidity := raw.humidity, windSpeed := raw.windSpeed, timestamp := timeLabel))
  }

  /** Patching twice with the same readings is patching once. */
  lemma PatchLiveIdempotent(prev: Option<WeatherData>, raw: RawWeatherData, timeLabel: string)
    ensures PatchLive(PatchLive(prev, raw, timeLabel), raw, timeLabel) == PatchLive(prev, raw, timeLabel)
  {
  }

  function Loaded(l: LocationState): LocationState {
    l.(loading := false, error := None)
  }

  function Failed(l: LocationState, message: string): LocationState {
    l.(error := Some(message), loading := false)
  }

  /** The place shown is the same (coordinates and address). */
  predicate SamePlace(a: LocationState, b: LocationState) {
    a.lat == b.lat && a.lng == b.lng && a.address == b.address
  }

  /** updateWeather: the telemetry first, then the staleness rule. */
  function UpdateWeather(s: Session, manual: bool, p: Providers, m: Moment): (r: Refreshed)
    ensures r.route != Skipped
    ensures r.route == TelemetryFailed <==> p.telemetry.Err?
    ensures r.route == Full <==> p.telemetry.Ok? && ShouldCallAI(manual, s.weather, s.lastSyncTime, m.nowMs)
    ensures r.route == Cheap <==> p.telemetry.Ok? && !ShouldCallAI(manual, s.weather, s.lastSyncTime, m.nowMs)
    ensures SamePlace(s.location, r.session.location) && !r.session.location.loading
    ensures r.session.alarmMuted == s.alarmMuted
    // a failure of either path leaves the weather and its sync time as they were
    ensures r.session.location.error.Some? ==>
      && r.session.location.error == Some(SyncFailedMessage)
      && r.session.weather == s.weather && r.session.lastSyncTime == s.lastSyncTime
    ensures r.route == TelemetryFailed ==> r.session.location.error.Some?
    // the full path replaces the record wholesale and stamps the sync time
    ensures r.route == Full && r.session.location.error.None? ==>
      var fetched := FetchLiveWeatherData(p.keys, p.report, p.telemetry.value, m.timeLabel, p.visibilityKm);
      && fetched.Ok?
      && r.session.weather == Some(fetched.value)
      && r.session.lastSyncTime == Some(m.nowMs)
    ensures r.route == Full ==>
      (r.session.location.error.None? <==> FetchLiveWeatherData(p.keys, p.report, p.telemetry.value, m.timeLabel, p.visibilityKm).Ok?)
    // the cheap path patches four fields and never touches the sync time
    ensures r.route == Cheap ==>
      && r.session.location.error.None?
      && r.session.lastSyncTime == s.lastSyncTime
      && r.session.weather.Some? && s.weather.Some?
      && SameNarrative(s.weather.value, r.session.weather.value)
      && r.session.weather.value.temp == p.telemetry.value.temp
      && r.session.weather.value.humidity == p.telemetry.value.humidity
      && r.session.weather.value.windSpeed == p.telemetry.value.windSpeed
      && r.session.weather.value.timestamp == m.timeLabel
    ensures SyncInvariant(s) ==> SyncInvariant(r.session)
  {
    match p.telemetry
    case Err(_) =>
      Refreshed(s.(location := Failed(s.location, SyncFailedMessage)), TelemetryFailed)
    case Ok(raw) =>
      if ShouldCallAI(manual, s.weather, s.lastSyncTime, m.nowMs) then
        match FetchLiveWeatherData(p.keys, p.report, raw, m.timeLabel, p.visibilityKm)
        case Err(_) =>
          Refreshed(s.(location := Failed(s.location, SyncFailedMessage)), Full)
        case Ok(data) =>
          Refreshed(s.(weather := Some(data), lastSyncTime := Some(m.nowMs), location := Loaded(s.location)), Full)
      else
        Refreshed(s.(weather := PatchLive(s.weather, raw, m.timeLabel), location := Loaded(s.location)), Cheap)
  }

  /** The staleness boundary is strict: exactly thirty minutes after the last
      full sync a non-manual refresh is still cheap, one millisecond later it
      is full; a manual refresh is always full. */
  lemma StalenessBoundary(s: Session, p: Providers, m: Moment)
    requires s.weather.Some? && s.lastSyncTime.Some? && p.telemetry.Ok?
    ensures m.nowMs == s.lastSyncTime.value + 1800000 ==> UpdateWeather(s, false, p, m).route == Cheap
    ensures m.nowMs == s.lastSyncTime.value + 1800001 ==> UpdateWeather(s, false, p, m).route == Full
    ensures UpdateWeather(s, true, p, m).route == Full
  {
  }

  /** Non-manual refreshes, all fresh and all fetched. The app itself always
      passes `manual = true`; these stand for `updateWeather` called directly. */
  predicate CheapRun(s: Session, steps: seq<(Providers, Moment)>) {
    forall i :: 0 <= i < |steps| ==>
      steps[i].0.telemetry.Ok? && s.lastSyncTime.Some? && steps[i].1.nowMs - s.lastSyncTime.value <= StaleAfterMs
  }

  /** Non-manual refreshes applied one after another. */
  function NonManualRefreshes(s: Session, steps: seq<(Providers, Moment)>): Session
    decreases |steps|
  {
    if |steps| == 0 then s else NonManualRefreshes(UpdateWeather(s, false, steps[0].0, steps[0].1).session, steps[1..])
  }

  /** Any number of cheap refreshes leaves the narrative (risk analysis,
      protocols, alerts, forecast, air quality, seismic summary, ...) and the
      sync time exactly as the last full sync left them. */
  lemma {:induction false} CheapRefreshesKeepNarrative(s: Session, steps: seq<(Providers, Moment)>)
    requires s.weather.Some? && CheapRun(s, steps)
    ensures NonManualRefreshes(s, steps).lastSyncTime == s.lastSyncTime
    ensures NonManualRefreshes(s, steps).weather.Some?
    ensures SameNarrative(s.weather.value, NonManualRefreshes(s, steps).weather.value)
    decreases |steps|
  {
    if |steps| > 0 {
      var next := UpdateWeather(s, false, steps[0].0, steps[0].1).session;
      assert next.weather.Some? && next.lastSyncTime == s.lastSyncTime;
      assert CheapRun(next, steps[1..]) by {
        forall i | 0 <= i < |steps[1..]|
          ensures steps[1..][i].0.telemetry.Ok? && steps[1..][i].1.nowMs - next.lastSyncTime.value <= StaleAfterMs
        {
          assert steps[1..][i] == steps[i + 1];
        }
      }
      CheapRefreshesKeepNarrative(next, steps[1..]);
    }
  }

  // ------------------------------------------------------------------ search

  /** The characters String.prototype.trim removes: white space and line terminators. */
  predicate IsTrimmed(c: char) {
    || c == '\t' || c == '\n' || c == '\U{000B}' || c == '\U{000C}' || c == '\r' || c == ' '
    || c == '\U{00A0}' || c == '\U{1680}' || ('\U{2000}' <= c <= '\U{200A}')
    || c == '\U{2028}' || c == '\U{2029}' || c == '\U{202F}' || c == '\U{205F}'
    || c == '\U{3000}' || c == '\U{FEFF}'
  }

  /** `!query.trim()`: nothing is left once the ends are trimmed. */
  predicate Blank(query: string) {
    forall i :: 0 <= i < |query| ==> IsTrimmed(query[i])
  }

  /** What saveLocation stores: coordinates and address, never the loading or error flags. */
  datatype SavedLocation = SavedLocation(lat: int, lng: int, address: string)

  datatype Searched = Searched(session: Session, route: Route, saved: Option<SavedLocation>)

  /** handleSearch: a blank query does nothing; an unresolved one shows "not
      found"; a resolved one moves the location, runs a manual refresh and is saved. */
  function HandleSearch(s: Session, query: string, keys: KeySources, resolution: Result<Place>, p: Providers, m: Moment)
    : (r: Searched)
    ensures Blank(query) ==> r == Searched(s, Skipped, None)
    ensures !Blank(query) && ResolveLocationCoords(keys, resolution).Err? ==>
      && r.route == Skipped && r.saved.None?
      && r.session == s.(location := Failed(s.location, LocationNotFoundMessage))
    ensures !Blank(query) && ResolveLocationCoords(keys, resolution).Ok? ==>
      var place := resolution.value;
      var moved := s.(location := LocationState(Some(place.lat), Some(place.lng), place.name, false, None));
      && r.saved == Some(SavedLocation(place.lat, place.lng, place.name))
      && Refreshed(r.session, r.route) == UpdateWeather(moved, true, p, m)
      && r.route in {TelemetryFailed, Full}
      && r.session.location.lat == Some(place.lat) && r.session.location.lng == Some(place.lng)
      && r.session.location.address == place.name
    ensures SyncInvariant(s) ==> SyncInvariant(r.session)
  {
    if Blank(query) then Searched(s, Skipped, None)
    else
      var pending := s.(location := s.location.(loading := true));
      match ResolveLocationCoords(keys, resolution)
      case Err(_) =>
        Searched(pending.(location := Failed(pending.location, LocationNotFoundMessage)), Skipped, None)
      case Ok(place) =>
        var moved := pending.(location := LocationState(Some(place.lat), Some(place.lng), place.name, false, None));
        var refreshed := UpdateWeather(moved, true, p, m);
        Searched(refreshed.session, refreshed.route, Some(SavedLocation(place.lat, place.lng, place.name)))
  }

  // ---------------------------------------------------------- device position

  datatype Coordinates = Coordinates(latitude: int, longitude: int)

  /** requestLocation: a fix moves the location and runs a manual refresh; a
      refusal shows "GPS disabled" and keeps the previous place. */
  function RequestLocation(s: Session, fix: Result<Coordinates>, p: Providers, m: Moment): (r: Refreshed)
    ensures fix.Err? ==> r == Refreshed(s.(location := Failed(s.location, GpsDisabledMessage)), Skipped)
    ensures fix.Ok? ==>
      r == UpdateWeather(s.(location := LocationState(Some(fix.value.latitude), Some(fix.value.longitude), CurrentLocationAddress, false, None)), true, p, m)
    ensures fix.Ok? ==> r.route in {TelemetryFailed, Full}
    ensures SyncInvariant(s) ==> SyncInvariant(r.session)
  {
    match fix
    case Err(_) => Refreshed(s.(location := Failed(s.location, GpsDisabledMessage)), Skipped)
    case Ok(c) =>
      UpdateWeather(s.(location := LocationState(Some(c.latitude), Some(c.longitude), CurrentLocationAddress, false, None)), true, p, m)
  }

  // ----------------------------------------------------------------- start-up

  /** The record getSavedLocation returns; any field may be missing. */
  datatype StoredLocation = StoredLocation(lat: Option<int>, lng: Option<int>, address: Option<string>)

  /** `saved?.lat && saved?.lng`: truthiness, so a coordinate of 0 counts as missing. */
  predicate Restorable(saved: Option<StoredLocation>) {
    && saved.Some?
    && saved.value.lat.Some? && saved.value.lat.value != 0
    && saved.value.lng.Some? && saved.value.lng.value != 0
  }

  /** `saved.address || 'موقع محفوظ'` */
  function RestoredAddress(stored: StoredLocation): (a: string)
    ensures stored.address.Some? && stored.address.value != "" ==> a == stored.address.value
    ensures !(stored.address.Some? && stored.address.value != "") ==> a == SavedLocationAddress
  {
    match stored.address
    case Some(text) => if text != "" then text else SavedLocationAddress
    case None => SavedLocationAddress
  }

  /** init: restore the saved place and refresh it, or ask the device. */
  function Init(s: Session, saved: Option<StoredLocation>, fix: Result<Coordinates>, p: Providers, m: Moment): (r: Refreshed)
    ensures Restorable(saved) ==>
      var place := LocationState(saved.value.lat, saved.value.lng, RestoredAddress(saved.value), false, None);
      r == UpdateWeather(s.(location := place), true, p, m)
    ensures !Restorable(saved) ==> r == RequestLocation(s, fix, p, m)
    ensures SyncInvariant(s) ==> SyncInvariant(r.session)
  {
    if Restorable(saved) then
      var stored := saved.value;
      UpdateWeather(s.(location := LocationState(stored.lat, stored.lng, RestoredAddress(stored), false, None)), true, p, m)
    else
      RequestLocation(s, fix, p, m)
  }

  /** A saved place on the equator or the prime meridian is not restored: the device is asked instead. */
  lemma ZeroCoordinateIsNotRestored(s: Session, lat: int, lng: int, address: Option<string>,
                                    fix: Result<Coordinates>, p: Providers, m: Moment)
    requires lat == 0 || lng == 0
    ensures Init(s, Some(StoredLocation(Some(lat), Some(lng), address)), fix, p, m) == RequestLocation(s, fix, p, m)
  {
  }

  // ------------------------------------------------------------------- mute

  /** The header's mute button. */
  function ToggleMute(s: Session): (r: Session)
    ensures r.alarmMuted != s.alarmMuted
    ensures r.(alarmMuted := s.alarmMuted) == s
  {
    s.(alarmMuted := !s.alarmMuted)
  }

  /** The severity the alarm sees for a session. */
  function SessionAlarmInput(s: Session): (r: Option<AlertSeverity>)
    ensures s.alarmMuted ==> r.None?
    ensures !s.alarmMuted ==> r == HighestSeverity(AlertsOf(s.weather))
  {
    AlarmInput(s.alarmMuted, s.weather)
  }

  // ------------------------------------------------------------- any history

  datatype Event =
    | Refresh(manual: bool, p: Providers, m: Moment)
    | Search(query: string, keys: KeySources, resolution: Result<Place>, p: Providers, m: Moment)
    | Locate(fix: Result<Coordinates>, p: Providers, m: Moment)
    | Start(saved: Option<StoredLocation>, fix: Result<Coordinates>, p: Providers, m: Moment)
    | Mute

  function Apply(s: Session, e: Event): Session {
    match e
    case Refresh(manual, p, m) => UpdateWeather(s, manual, p, m).session
    case Search(q, keys, res, p, m) => HandleSearch(s, q, keys, res, p, m).session
    case Locate(fix, p, m) => RequestLocation(s, fix, p, m).session
    case Start(saved, fix, p, m) => Init(s, saved, fix, p, m).session
    case Mute => ToggleMute(s)
  }

  function Run(s: Session, events: seq<Event>): Session
    decreases |events|
  {
    if |events| == 0 then s else Run(Apply(s, events[0]), events[1..])
  }

  /** From start-up on, whatever happens, a weather record is never shown without a sync time. */
  lemma {:induction false} RunKeepsSyncInvariant(s: Session, events: seq<Event>)
    requires SyncInvariant(s)
    ensures SyncInvariant(Run(s, events))
    decreases |events|
  {
    if |events| > 0 {
      RunKeepsSyncInvariant(Apply(s, events[0]), events[1..]);
    }
  }

  lemma InitialSessionIsSynced()
    ensures SyncInvariant(InitialSession())
  {
  }
}
