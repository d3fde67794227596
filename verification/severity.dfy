/** The highest active severity (App.tsx): the alert list reduced to its
    heaviest severity, or none for an absent or empty list; and the alarm's
    input, which the mute toggle forces to none. */
module Severity {
  import opened Wrappers
  import opened Types

  /** The reducer's weight table. */
  function Weight(s: AlertSeverity): nat {
    match s
    case LOW => 1
    case MEDIUM => 2
    case HIGH => 3
    case CRITICAL => 4
  }

  /** The weight of the running maximum; none weighs nothing. */
  function WeightOf(m: Option<AlertSeverity>): nat {
    match m
    case None => 0
    case Some(s) => Weight(s)
  }

  lemma WeightInjective(a: AlertSeverity, b: AlertSeverity)
    requires Weight(a) == Weight(b)
    ensures a == b
  {
  }

  /** One step of the reducer: an alert replaces the running maximum only when strictly heavier. */
  function Heavier(max: Option<AlertSeverity>, alert: WeatherAlert): Option<AlertSeverity> {
    if Weight(alert.severity) > WeightOf(max) then Some(alert.severity) else max
  }

  predicate Present(alerts: seq<WeatherAlert>, s: AlertSeverity) {
    exists i :: 0 <= i < |alerts| && alerts[i].severity == s
  }

  predicate Dominates(alerts: seq<WeatherAlert>, m: Option<AlertSeverity>) {
    forall i :: 0 <= i < |alerts| ==> Weight(alerts[i].severity) <= WeightOf(m)
  }

  /** `reduce` over the alerts, left to right, starting from `acc`. */
  function Reduce(alerts: seq<WeatherAlert>, acc: Option<AlertSeverity>): (r: Option<AlertSeverity>)
    ensures WeightOf(acc) <= WeightOf(r)
    ensures Dominates(alerts, r)
    ensures r == acc || (r.Some? && Present(alerts, r.value))
    ensures |alerts| > 0 ==> r.Some?
    decreases |alerts|
  {
    if |alerts| == 0 then acc
    else
      var r := Reduce(alerts[1..], Heavier(acc, alerts[0]));
      assert forall i :: 1 <= i < |alerts| ==> alerts[i] == alerts[1..][i - 1];
      assert r.Some? && Present(alerts[1..], r.value) ==> Present(alerts, r.value);
      r
  }

  /** activeHighestSeverity: the reduce started from null. */
  function HighestSeverity(alerts: seq<WeatherAlert>): (r: Option<AlertSeverity>)
    ensures r.None? <==> |alerts| == 0
    ensures r.Some? ==> Present(alerts, r.value)
    ensures Dominates(alerts, r)
  {
    Reduce(alerts, None)
  }

  /** The result is THE maximum: a present severity that no alert exceeds is exactly the result. */
  lemma HighestIsMaximum(alerts: seq<WeatherAlert>, s: AlertSeverity)
    ensures HighestSeverity(alerts) == Some(s) <==> Present(alerts, s) && Dominates(alerts, Some(s))
  {
    var r := HighestSeverity(alerts);
    if Present(alerts, s) && Dominates(alerts, Some(s)) {
      var i :| 0 <= i < |alerts| && alerts[i].severity == s;
      var j :| 0 <= j < |alerts| && alerts[j].severity == r.value;
      assert Weight(s) <= Weight(r.value) && Weight(r.value) <= Weight(s);
      WeightInjective(s, r.value);
    }
  }

  function Max(a: Option<AlertSeverity>, b: Option<AlertSeverity>): Option<AlertSeverity> {
    if WeightOf(a) >= WeightOf(b) then a else b
  }

  /** The order of the alerts does not matter: the maximum of a concatenation is the maximum of the parts. */
  lemma HighestOfConcat(a: seq<WeatherAlert>, b: seq<WeatherAlert>)
    ensures HighestSeverity(a + b) == Max(HighestSeverity(a), HighestSeverity(b))
  {
    var ab := a + b;
    var m := Max(HighestSeverity(a), HighestSeverity(b));
    if m.Some? {
      assert Present(ab, m.value) by {
        if m == HighestSeverity(a) {
          var i :| 0 <= i < |a| && a[i].severity == m.value;
          assert ab[i] == a[i];
        } else {
          var i :| 0 <= i < |b| && b[i].severity == m.value;
          assert ab[|a| + i] == b[i];
        }
      }
      assert Dominates(ab, m) by {
        forall i | 0 <= i < |ab|
          ensures Weight(ab[i].severity) <= WeightOf(m)
        {
          if i < |a| { assert ab[i] == a[i]; } else { assert ab[i] == b[i - |a|]; }
        }
      }
      HighestIsMaximum(ab, m.value);
    }
  }

  /** `weather?.alerts || []` */
  function AlertsOf(weather: Option<WeatherData>): seq<WeatherAlert> {
    match weather
    case None => []
    case Some(w) => w.alerts
  }

  /** The severity handed to the alarm: none while muted, the highest severity otherwise. */
  function AlarmInput(muted: bool, weather: Option<WeatherData>): (r: Option<AlertSeverity>)
    ensures muted ==> r.None?
    ensures !muted ==> r == HighestSeverity(AlertsOf(weather))
    ensures r.Some? <==> !muted && weather.Some? && |weather.value.alerts| > 0
  {
    if muted then None else HighestSeverity(AlertsOf(weather))
  }
}
