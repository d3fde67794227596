/** The status mappings of the live map (components/LiveMap.tsx): the colour
    and radius of the risk circle, the tile URL of each overlay layer, the
    overlay switch, and the choice of radar frame. The Leaflet map itself is
    represented only by the set of tile layers on it. */
module LiveMap {
  import opened Wrappers
  import opened Types
  import Decimal

  const CriticalColor := "#ef4444"
  const HighColor := "#f97316"
  const MediumColor := "#eab308"
  const DefaultColor := "#3b82f6"

  const CriticalRadiusM: nat := 50000
  const DefaultRadiusM: nat := 25000

  /** getSeverityColor: LOW falls to the default like none does. */
  function SeverityColor(s: Option<AlertSeverity>): (c: string)
    ensures c == DefaultColor <==> s.None? || s == Some(LOW)
    ensures c == CriticalColor <==> s == Some(CRITICAL)
    ensures c == HighColor <==> s == Some(HIGH)
    ensures c == MediumColor <==> s == Some(MEDIUM)
  {
    match s
    case Some(CRITICAL) => CriticalColor
    case Some(HIGH) => HighColor
    case Some(MEDIUM) => MediumColor
    case _ => DefaultColor
  }

  /** The colour tells MEDIUM, HIGH and CRITICAL apart and from everything else. */
  lemma ColorIdentifiesAlarmingLevels(a: Option<AlertSeverity>, b: Option<AlertSeverity>)
    requires SeverityColor(a) == SeverityColor(b) && SeverityColor(a) != DefaultColor
    ensures a == b
  {
  }

  /** The risk circle doubles only for CRITICAL. */
  function RiskRadiusM(s: Option<AlertSeverity>): (r: nat)
    ensures r == CriticalRadiusM <==> s == Some(CRITICAL)
    ensures r == DefaultRadiusM <==> s != Some(CRITICAL)
    ensures r == 50000 || r == 25000
  {
    if s == Some(CRITICAL) then CriticalRadiusM else DefaultRadiusM
  }

  // ------------------------------------------------------------------ layers

  datatype MapLayer = Radar | Wind | Temp | Pressure | Clouds

  const RadarUrlPrefix := "https://tilecache.rainviewer.com/v2/radar/"
  const RadarUrlSuffix := "/256/{z}/{x}/{y}/4/1_1.png"

  /** The tile URL of a layer, "" for no layer. The radar layer needs a
      truthy frame time, so a time of 0 counts as none. */
  function LayerUrl(layer: MapLayer, radarTimestamp: Option<int>): (url: string)
    ensures layer == Radar ==> (url == "" <==> radarTimestamp.None? || radarTimestamp.value == 0)
    ensures layer != Radar ==> url != ""
  {
    match layer
    case Radar =>
      if radarTimestamp.Some? && radarTimestamp.value != 0 then
        RadarUrlPrefix + Decimal.Show(radarTimestamp.value) + RadarUrlSuffix
      else ""
    case Wind => "https://maps.open-meteo.com/v1/wind_speed_10m/{z}/{x}/{y}.png"
    case Temp => "https://maps.open-meteo.com/v1/temperature_2m/{z}/{x}/{y}.png"
    case Pressure => "https://maps.open-meteo.com/v1/pressure_msl/{z}/{x}/{y}.png"
    case Clouds => "https://maps.open-meteo.com/v1/cloud_cover/{z}/{x}/{y}.png"
  }

  /** Only the radar layer depends on the radar frame; the others are fixed. */
  lemma FixedLayersIgnoreTimestamp(layer: MapLayer, t1: Option<int>, t2: Option<int>)
    requires layer != Radar
    ensures LayerUrl(layer, t1) == LayerUrl(layer, t2)
  {
  }

  /** Reads the frame time back out of a radar tile URL. */
  function RadarTimestampOf(url: string): Option<int> {
    if |url| > |RadarUrlPrefix| + |RadarUrlSuffix|
       && url[..|RadarUrlPrefix|] == RadarUrlPrefix
       && url[|url| - |RadarUrlSuffix|..] == RadarUrlSuffix
    then
      var figure := url[|RadarUrlPrefix|..|url| - |RadarUrlSuffix|];
      if (figure[0] == '-' ==> Decimal.AllDigits(figure[1..])) && (figure[0] != '-' ==> Decimal.AllDigits(figure)) then
        Some(Decimal.Parse(figure))
      else None
    else None
  }

  /** The radar URL embeds its frame time: distinct frames give distinct URLs. */
  lemma RadarUrlEmbedsTimestamp(t: int)
    requires t != 0
    ensures RadarTimestampOf(LayerUrl(Radar, Some(t))) == Some(t)
  {
    var figure := Decimal.Show(t);
    var url := RadarUrlPrefix + figure + RadarUrlSuffix;
    assert url[..|RadarUrlPrefix|] == RadarUrlPrefix;
    assert url[|url| - |RadarUrlSuffix|..] == RadarUrlSuffix;
    assert url[|RadarUrlPrefix|..|url| - |RadarUrlSuffix|] == figure;
    Decimal.ShowRoundTrip(t);
  }

  /** A tile layer instance: `id` tells apart two layers made from one URL. */
  datatype TileLayer = TileLayer(id: nat, url: string)

  /** The overlays on the map and the one `activeLayerRef` points at. */
  datatype Overlays = Overlays(onMap: set<TileLayer>, active: Option<TileLayer>, created: nat)

  /** Every overlay on the map is the referenced one. */
  predicate AtMostOneOverlay(o: Overlays) {
    forall t :: t in o.onMap ==> o.active == Some(t)
  }

  /** Every layer was created before the counter's current value. */
  predicate Tracked(o: Overlays) {
    && (forall t :: t in o.onMap ==> t.id < o.created)
    && (o.active.Some? ==> o.active.value.id < o.created)
  }

  /** The layer effect: once the map is ready, remove the referenced layer,
      then create and add a new layer when the URL is not empty. */
  function SwitchLayer(o: Overlays, mapReady: bool, layer: MapLayer, radarTimestamp: Option<int>): (r: Overlays)
    ensures !mapReady ==> r == o
    ensures mapReady && LayerUrl(layer, radarTimestamp) != "" ==>
      exists t :: && r.onMap == (o.onMap - (if o.active.Some? then {o.active.value} else {})) + {t}
                  && t.url == LayerUrl(layer, radarTimestamp) && r.active == Some(t)
                  && (Tracked(o) ==> t !in o.onMap)
    ensures mapReady && LayerUrl(layer, radarTimestamp) == "" ==>
      r.onMap == o.onMap - (if o.active.Some? then {o.active.value} else {})
    ensures Tracked(o) ==> Tracked(r)
    ensures AtMostOneOverlay(o) ==> AtMostOneOverlay(r)
    ensures AtMostOneOverlay(o) && mapReady ==> (r.onMap == {} <==> LayerUrl(layer, radarTimestamp) == "")
  {
    if !mapReady then o
    else
      var kept := if o.active.Some? then o.onMap - {o.active.value} else o.onMap;
      var url := LayerUrl(layer, radarTimestamp);
      if url != "" then
        var t := TileLayer(o.created, url);
        Overlays(kept + {t}, Some(t), o.created + 1)
      else
        Overlays(kept, o.active, o.created)
  }

  // ------------------------------------------------------------ radar frame

  datatype RadarFrame = RadarFrame(time: int)
  datatype RadarInfo = RadarInfo(past: Option<seq<RadarFrame>>)
  /** The weather-maps index, as far as `data?.radar?.past` reads it. */
  datatype RadarBody = RadarBody(radar: Option<RadarInfo>)

  predicate HasFrames(body: RadarBody) {
    body.radar.Some? && body.radar.value.past.Some? && |body.radar.value.past.value| > 0
  }

  /** fetchRadarMetadata: the newest past frame when there is one; otherwise,
      and on any fetch error, the current time is kept. */
  function PickRadarTimestamp(current: Option<int>, response: Result<RadarBody>): (r: Option<int>)
    ensures response.Ok? && HasFrames(response.value) ==>
      var past := response.value.radar.value.past.value;
      r == Some(past[|past| - 1].time)
    ensures !(response.Ok? && HasFrames(response.value)) ==> r == current
  {
    match response
    case Err(_) => current
    case Ok(body) =>
      if HasFrames(body) then
        var past := body.radar.value.past.value;
        Some(past[|past| - 1].time)
      else current
  }

  /** Polling the same index twice changes nothing the second time. */
  lemma PickRadarTimestampIdempotent(current: Option<int>, response: Result<RadarBody>)
    ensures PickRadarTimestamp(PickRadarTimestamp(current, response), response) == PickRadarTimestamp(current, response)
  {
  }
}
