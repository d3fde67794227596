/** End-to-end runs through the dashboard's core: a search that ends in a
    sounding alarm, and the mute button's effect on the alarm. */
module Scenarios {
  import opened Wrappers
  import opened Types
  import opened WeatherApi
  import opened Gemini
  import opened Severity
  import opened Refresh
  import opened Alarm

  /** A resolved search with a key and fresh telemetry takes the full path
      and stores the merged record, stamped with the refresh time. */
  lemma SearchStoresReport(s: Session, keys: KeySources, place: Place, raw: RawWeatherData,
                           report: ProviderReport, visibilityKm: string, m: Moment)
    requires GetAI(keys).Ok?
    ensures var r := HandleSearch(s, "X", keys, Ok(place), Providers(Ok(raw), keys, Ok(report), visibilityKm), m);
      && r.route == Full
      && r.saved == Some(SavedLocation(place.lat, place.lng, place.name))
      && r.session.lastSyncTime == Some(m.nowMs)
      && r.session.alarmMuted == s.alarmMuted
      && r.session.weather == Some(Assemble(report, raw, m.timeLabel, visibilityKm))
  {
    var p := Providers(Ok(raw), keys, Ok(report), visibilityKm);
    assert !Blank("X") by { assert !IsTrimmed("X"[0]); }
    assert ResolveLocationCoords(keys, Ok(place)) == Ok(place);
    assert FetchLiveWeatherData(keys, Ok(report), raw, m.timeLabel, visibilityKm)
      == Ok(Assemble(report, raw, m.timeLabel, visibilityKm));
  }

  /** A search resolves, the manual refresh takes the full path, the report
      carries one CRITICAL alert and the air is very unhealthy; the alarm, on
      the same clock, then opens a fifteen-second window of paired bursts (whose tones
      `PairedWindowSoundsEighteenBursts` counts). */
  lemma SearchRaisesCriticalAlarm(s: Session, keys: KeySources, place: Place, raw: RawWeatherData,
                                  report: ProviderReport, visibilityKm: string, m: Moment,
                                  alert: WeatherAlert, st: AlarmState)
    requires GetAI(keys).Ok? && !s.alarmMuted
    requires raw.aqi == 160 && alert.severity == CRITICAL && report.alerts == [alert]
    requires Valid(st) && st.severity != Some(CRITICAL) && st.nowMs == m.nowMs
    ensures var r := HandleSearch(s, "X", keys, Ok(place), Providers(Ok(raw), keys, Ok(report), visibilityKm), m);
      && r.route == Full
      && r.session.weather.Some? && r.session.weather.value.aqi == Some(AqiReading(160, "خطر جداً", "#ef4444"))
      && SessionAlarmInput(r.session) == Some(CRITICAL)
      && var sounding := Observe(st, SessionAlarmInput(r.session));
      && sounding.shouldPlay && sounding.window == Some(m.nowMs + WindowMs)
      && sounding.loop == Some(ToneLoop(Paired, m.nowMs + PairedPeriodMs))
  {
    var r := HandleSearch(s, "X", keys, Ok(place), Providers(Ok(raw), keys, Ok(report), visibilityKm), m);
    SearchStoresReport(s, keys, place, raw, report, visibilityKm, m);
    var w := Assemble(report, raw, m.timeLabel, visibilityKm);
    assert r.session.weather == Some(w);
    assert ClassifyAqi(160) == VeryUnhealthy;
    assert w.aqi == Some(AqiReading(160, "خطر جداً", "#ef4444"));
    assert w.alerts == [alert];
    assert HighestSeverity([alert]) == Some(CRITICAL) by {
      HighestIsMaximum([alert], CRITICAL);
    }
    assert SessionAlarmInput(r.session) == Some(CRITICAL);
  }

  /** Muting while a level sounds silences the alarm at once; unmuting with
      the same alerts hands it the level again, which opens a fresh window. */
  lemma MuteThenUnmute(s: Session, st: AlarmState, tMute: int, tUnmute: int)
    requires !s.alarmMuted && Valid(st) && st.nowMs <= tMute <= tUnmute
    requires SessionAlarmInput(s).Some? && st.severity == SessionAlarmInput(s)
    ensures var muted := Receive(st, tMute, SessionAlarmInput(ToggleMute(s))).state;
      && !muted.shouldPlay && muted.loop.None?
      && var unmuted := Receive(muted, tUnmute, SessionAlarmInput(ToggleMute(ToggleMute(s)))).state;
      && unmuted.shouldPlay && unmuted.window == Some(tUnmute + WindowMs)
  {
    assert ToggleMute(ToggleMute(s)) == s;
    UnmuteRestartsWindow(st, SessionAlarmInput(s).value, tMute, tUnmute);
  }
}
