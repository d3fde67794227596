# WEATHERSHIELD core, modelled in Dafny

WEATHERSHIELD is a weather dashboard. It fetches raw telemetry for a place
from three public APIs: Open-Meteo weather, Open-Meteo air quality, and USGS
earthquakes. It asks a language model for a narrative (risk analysis,
protocols, forecast, alerts) and merges the two into one weather record. It
then derives the highest alert severity, which drives a fifteen-second audible
alarm and the colour of the risk circle on the map.

This project models that core as pure functions over immutable datatypes:

- `WeatherApi`: how the three provider bodies are reduced to one raw record,
  and the seismic summary.
- `Gemini`: API-key lookup, place resolution, the AQI band table, and how the
  model's report is merged with the telemetry.
- `Severity`: the highest-severity reduction, and the alarm input after muting.
- `Refresh`: the refresh orchestration of the App component.
  - The staleness rule picks the full path or the cheap path.
  - It also covers search, device location, start-up restore and mute.
  - Histories of events keep the sync invariant.
  - The app itself calls `updateWeather` only with `manual = true` (App.tsx:56,
    68, 80): it has no background refresh, so in the app as written every
    refresh takes the full path. The cheap path, the thirty-minute rule,
    `Refresh.StalenessBoundary`, `Refresh.CheapRefreshesKeepNarrative` and the
    `Refresh(false, …)` event model `updateWeather` called directly with
    `manual = false`, which the app never does.
- `Alarm`: the alarm component as a discrete-event machine on a millisecond
  clock.
  - The fifteen-second window timeout and the tone interval are the two timers.
  - When both fall due at the same instant, the window wins.
  - Lemmas count the tones a window sounds.
- `LiveMap`: the severity colour and radius, the tile URL of each layer, the
  single-overlay invariant of layer switching, and the choice of radar frame.
- `Decimal`: the decimal rendering a template literal gives an integer, used
  for the wind direction.
- `Scenarios`: two end-to-end runs.
  - A search that raises a critical alarm.
  - Mute then unmute.

Every call to the outside world is a parameter holding what it answered:

- a provider body, or the failure of its fetch;
- the language model's report;
- the geolocation fix;
- the saved-location record;
- the clock reading and its localised time text;
- the browser's one-decimal rendering of the visibility.

The model follows the code as written. Some points a reader may not expect:

- Unmuting restarts the alarm window. Muting passes "no severity" to the
  alarm. Unmuting passes the unchanged level back, which counts as a change,
  so a fresh fifteen-second window opens (`Alarm.UnmuteRestartsWindow`).
- A refresh has no sequence number or cancellation. A late refresh can
  overwrite a newer one; that interleaving is not modelled.
- Provider bodies are not checked field by field. A missing object on the path
  (`current`, `daily`, `properties`) makes the fetch fail. A missing leaf value
  is copied as it is.
- The AQI bands are "> 50", "> 100" and "> 150". So 100 is moderate, 101 is
  unhealthy, and 150 is still unhealthy (`Gemini.AqiBoundaries`).
- Alerts are not de-duplicated. The highest severity is a fold over the list
  exactly as it arrives.
- A saved latitude or longitude of 0 counts as "no saved location", because
  the test is JavaScript truthiness (`Refresh.ZeroCoordinateIsNotRestored`).

Numbers that are floating point in the source (temperatures, coordinates,
magnitudes, AQI) are integers here. Every property proved compares them, and
none does arithmetic on them, except the thirty-minute staleness difference on
the millisecond clock.

## Model

| member | source | states |
|---|---|---|
| WeatherApi.EarthquakeQuery | services/weatherApiService.ts:24 | the earthquake query is centred on the given coordinates, with a 500 km radius and at most one event |
| WeatherApi.SeismicSummaryOf | services/weatherApiService.ts:38-46 | no features, or an empty list, gives "stable" with nothing else. Otherwise the first feature gives "activity observed" with its magnitude and place. The summary fails exactly when that first feature has no properties object |
| WeatherApi.OnlyFirstFeatureCounts | services/weatherApiService.ts:39-40 | features after the first never change the summary |
| WeatherApi.FetchOpenMeteoData | services/weatherApiService.ts:20-68 | the raw record exists exactly when all three fetches answered and the `current` and `daily` objects exist. Every field is copied from its path in the bodies. Any failure becomes the one fixed Arabic error message |
| WeatherApi.ExtractionRoundTrip | services/weatherApiService.ts:48-64 | for every raw record with a well-formed seismic summary, bodies built from it extract back to exactly that record |
| WeatherApi.AnyFailureFailsAll | services/weatherApiService.ts:26-35 | one failed fetch fails the whole operation with the fixed message, whatever the other two answered |
| Gemini.GetApiKey | services/geminiService.ts:6-11 | the key is truthy exactly when some source is truthy. It is then the first truthy source in the order: browser-stored key (only in a browser), GEMINI_API_KEY, API_KEY. Otherwise it is the last source as found |
| Gemini.GetAI | services/geminiService.ts:13-17 | a client is built exactly when a non-empty key exists, and with that key. Otherwise the call fails with the missing-key message |
| Gemini.KeyPrecedence | services/geminiService.ts:6-16 | the four cases of the precedence chain, each with the key or error it yields |
| Gemini.ResolveLocationCoords | services/geminiService.ts:19-42 | the place is the model's answer exactly when a key exists and the model answered. Every failure, including a missing key, becomes the one "location failed" message |
| Gemini.ClassifyAqi | services/geminiService.ts:106-110 | the chosen band is the one band whose interval (≤ 50, 51–100, 101–150, > 150) holds the value |
| Gemini.ClassifyAqiMonotone | services/geminiService.ts:106-110 | a higher AQI never gets a milder band |
| Gemini.AqiBoundaries | services/geminiService.ts:108-110 | the thresholds are strict: 50→good, 51 and 100→moderate, 101 and 150→unhealthy, 151→very unhealthy |
| Gemini.AqiReadingOf | services/geminiService.ts:120 | the AQI reading keeps the value, and its label and colour belong to the value's band |
| Gemini.WindDirectionReadsBack | services/geminiService.ts:117 | the wind-direction text is the decimal degrees followed by "°". Reading the digits back gives the degrees |
| Gemini.Assemble | services/geminiService.ts:112-123 | the record takes the model's narrative fields. Temperature, humidity, wind speed, AQI and the seismic summary come from the telemetry, overriding any number the model returns. The wind direction is the telemetry degrees in decimal followed by "°". Sources are empty, visibility is the rendered kilometres plus " كم", and the timestamp is the time text |
| Gemini.FetchLiveWeatherData | services/geminiService.ts:44-127 | a record exists exactly when a key exists and the model answered, and it is the merged record. A missing key gives the missing-key error. A model failure passes through unchanged |
| Gemini.MissingKeyBeforeProviderCall | services/geminiService.ts:13-16 | without a key the operation fails with the missing-key message, whatever the model would have answered |
| Decimal.ShowRoundTrip | services/geminiService.ts:117 | the decimal text of every integer parses back to that integer |
| Decimal.ShowInjective | services/geminiService.ts:117 | distinct integers render to distinct texts |
| Severity.Reduce | App.tsx:88-92 | the fold never lowers its accumulator. Its result outweighs every alert and is either the starting value or some alert's severity. A non-empty list always yields a severity |
| Severity.HighestSeverity | App.tsx:88-92 | none exactly for an empty list. Otherwise a severity that occurs in the list and that no alert outweighs |
| Severity.HighestIsMaximum | App.tsx:88-92 | both directions: the result is `s` if and only if `s` occurs and no alert outweighs it |
| Severity.HighestOfConcat | App.tsx:88-92 | the highest severity of two lists joined is the heavier of their two highest severities |
| Severity.AlarmInput | App.tsx:285 | muted gives none. Otherwise the input is the highest severity of the current alerts (none without weather). It is a level exactly when unmuted, with weather and at least one alert |
| Refresh.InitialSession | App.tsx:15-22 | start with no weather, no sync time, unmuted, and the location "locating…" with loading set |
| Refresh.UpdateWeather | App.tsx:24-46 | a telemetry failure, or a failed full path, shows the sync error and leaves the weather and sync time untouched. The full path runs exactly when the refresh is manual, there is no weather, or the last full sync is over thirty minutes old. It replaces the record and stamps the sync time. The cheap path patches only temperature, humidity, wind speed and time text, keeps the narrative and sync time, and clears the error. The place never changes and loading ends |
| Refresh.StalenessBoundary | App.tsx:28 | exactly thirty minutes after the last full sync a non-manual `updateWeather` call is still cheap; one millisecond later it is full. A manual refresh is always full |
| Refresh.PatchLive | App.tsx:35-38 | no weather stays none. Otherwise only temperature, humidity, wind speed and time text change, to the telemetry values |
| Refresh.PatchLiveIdempotent | App.tsx:35-38 | patching twice with the same telemetry equals patching once |
| Refresh.CheapRefreshesKeepNarrative | App.tsx:34-39 | any run of non-manual `updateWeather` calls that stays within thirty minutes keeps the narrative fields and the sync time of the last full sync |
| Refresh.HandleSearch | App.tsx:48-61 | a blank query (after trimming JavaScript white space) does nothing. An unresolved query shows "location not found" and keeps the weather. A resolved query moves to the place, runs a manual (full) refresh there and saves the place |
| Refresh.RequestLocation | App.tsx:63-73 | a refusal shows "GPS disabled" and keeps everything else. A fix moves to "current location" and runs a manual refresh |
| Refresh.RestoredAddress | App.tsx:79 | the stored address when it is non-empty, otherwise "saved location" |
| Refresh.Init | App.tsx:75-86 | with truthy saved coordinates, restore that place and run a manual refresh. Otherwise ask the device |
| Refresh.ZeroCoordinateIsNotRestored | App.tsx:78 | a saved latitude or longitude of 0 is treated as no saved place, and the device is asked |
| Refresh.ToggleMute | App.tsx:119 | the mute flag flips and nothing else changes |
| Refresh.SessionAlarmInput | App.tsx:285 | the alarm receives none while muted, otherwise the session's highest severity |
| Refresh.RunKeepsSyncInvariant | App.tsx:30-42 | across every history of refreshes, searches, fixes, start-ups and mute toggles, a weather record is never present without a sync time |
| Refresh.InitialSessionIsSynced | App.tsx:15-22 | the initial state satisfies the sync invariant |
| Alarm.LoopFor | components/AlarmSystem.tsx:55-68 | a tone loop runs exactly when a level is present, the window is open and the level is MEDIUM, HIGH or CRITICAL. Its first tick is one period away: 800 ms paired, 2500 ms single |
| Alarm.Observe | components/AlarmSystem.tsx:13-28 | the same level again changes nothing. A new level opens a fifteen-second window from now and restarts the loop. None closes the window and stops the loop. Validity is kept |
| Alarm.AdvanceTo | components/AlarmSystem.tsx:13-71 | as time passes the level never changes and a closed window never reopens. Without a loop nothing sounds. The window is still open exactly when its deadline is later than the target time, and then it is unchanged |
| Alarm.LoopEmissions | components/AlarmSystem.tsx:55-71 | a running loop sounds exactly one burst per tick: from the next tick, every period, up to the earlier of the target time and the last instant before the window closes |
| Alarm.PairedWindowSoundsEighteenBursts | components/AlarmSystem.tsx:59-63 | a fresh HIGH or CRITICAL window sounds exactly eighteen 880/660 Hz bursts, 800 ms apart, and then the window is closed |
| Alarm.MediumWindowSoundsFiveTones | components/AlarmSystem.tsx:64-67 | a fresh MEDIUM window sounds exactly five 440 Hz tones; the tick due at fifteen seconds loses to the window timeout |
| Alarm.WindowLastsFifteenSeconds | components/AlarmSystem.tsx:13-19 | a new level plays until fifteen seconds have passed, then stops with its loop cleared |
| Alarm.LowIsSilent | components/AlarmSystem.tsx:58-68 | LOW opens a window but never sounds |
| Alarm.RepeatedLevelKeepsWindow | components/AlarmSystem.tsx:28 | receiving the same level again inside its window does not restart the window |
| Alarm.NoneSilencesAtOnce | components/AlarmSystem.tsx:24-26 | dropping to none stops playing and nothing more is scheduled |
| Alarm.UnmuteRestartsWindow | components/AlarmSystem.tsx:14-16 | muting stops the alarm. Unmuting with the level unchanged opens a fresh fifteen-second window at the moment of unmuting |
| Alarm.TonesMatchLevel | components/AlarmSystem.tsx:58-67 | every tone sounded belongs to the current level: 880/660 Hz for HIGH and CRITICAL, 440 Hz for MEDIUM, nothing otherwise |
| LiveMap.SeverityColor | components/LiveMap.tsx:42-49 | both directions for each colour: red iff CRITICAL, orange iff HIGH, yellow iff MEDIUM, blue iff LOW or none |
| LiveMap.ColorIdentifiesAlarmingLevels | components/LiveMap.tsx:42-49 | a colour other than the default determines the severity |
| LiveMap.RiskRadiusM | components/LiveMap.tsx:121 | 50 km iff CRITICAL, 25 km otherwise |
| LiveMap.LayerUrl | components/LiveMap.tsx:60-81 | the radar layer has a URL exactly when the radar timestamp is truthy. The four fixed layers always have one |
| LiveMap.FixedLayersIgnoreTimestamp | components/LiveMap.tsx:69-80 | the wind, temperature, pressure and cloud URLs do not depend on the radar timestamp |
| LiveMap.RadarUrlEmbedsTimestamp | components/LiveMap.tsx:64-67 | the timestamp can be read back out of the radar tile URL |
| LiveMap.SwitchLayer | components/LiveMap.tsx:52-86 | before the map is ready nothing changes. Otherwise the previous overlay is removed and the new layer is added exactly when it has a URL. At most one overlay is ever on the map |
| LiveMap.PickRadarTimestamp | components/LiveMap.tsx:24-34 | a response with past frames gives the time of the last frame. Anything else keeps the current timestamp |
| LiveMap.PickRadarTimestampIdempotent | components/LiveMap.tsx:28-30 | applying the same radar response twice equals applying it once |
| Scenarios.SearchStoresReport | App.tsx:48-57 | a resolved search, with a key and fresh telemetry, takes the full path. It stores exactly the merged record stamped with the refresh time, saves the place and leaves the mute flag alone |
| Scenarios.SearchRaisesCriticalAlarm | App.tsx:48-92 | a search whose synthesis reports one CRITICAL alert and AQI 160 gives a record rated "very unhealthy". The alarm input is CRITICAL, and the alarm, on the same clock as the refresh, opens a fifteen-second window from that instant with the 800 ms paired-burst loop running |
| Scenarios.MuteThenUnmute | App.tsx:285 | muting silences the alarm at once, and unmuting opens a fresh fifteen-second window |

## Left out

- Rendering: the JSX of every component, tabs, the settings screen, the legend, voice alerts (`generateVoiceAlert`) and the refresh spinner's 800 ms delay. None of these feeds the core's state.
- Local storage: services/dbService.ts is not part of this model. The saved record is an input of `Refresh.Init`. A save after a search is recorded in the result rather than performed. `saveLocation` swallows its own errors, so a failed save is never shown.
- I/O: the HTTP fetches, the generative-model calls and the geolocation API. Each is replaced by its answer, passed as a parameter.
- Concurrency: `Promise.all`, and overlapping refreshes whose results land out of order. Each operation returns the state once every call it makes has settled, including the refresh that a search, a device fix or start-up launches without awaiting it (App.tsx:56, 68, 80). The source has no mechanism that orders or cancels refreshes.
- Clock: each refresh reads the clock once (`Moment`). The source reads it once for the staleness rule and again for the sync stamp and time text; the two readings differ by the synthesis latency.
- Floating point: temperatures, coordinates and AQI are integers. The `toFixed(1)` kilometre text and the `toLocaleTimeString` text are inputs. NaN, which is falsy in the source, has no counterpart.
- Gemini.Assemble: does not check the shape of the model's JSON. The report's schema fields are taken as given, and a malformed answer is a failed response.
- WeatherApi.FetchOpenMeteoData: a leaf missing from a provider body is not modelled. The source copies `undefined` into the record; here every leaf is present once its parent object is.
- Alarm: the Web Audio oscillator is not modelled; a tone is its frequency and duration. The 660 Hz half of a burst is recorded when the burst fires, with its own due time 200 ms later. The source does not clear that echo timeout, so it can sound after the window has closed.
- Alarm: component unmount is not modelled.
- LiveMap: Leaflet itself, the marker, `setView` and the five-minute radar polling timer are not modelled. The polling fires `PickRadarTimestamp` again.
