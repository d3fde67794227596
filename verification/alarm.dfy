/** The audio alarm (components/AlarmSystem.tsx) as a discrete-event machine
    over a millisecond clock.

    Two effects drive it. The window effect, keyed on the severity value,
    opens a fifteen-second window (`shouldPlay`) whenever the value changes to
    a level and closes it when the value changes to none; its timeout closes
    the window when it fires. The tone effect, keyed on (severity,
    shouldPlay), runs one repeating interval for an open window: a paired
    880/660 Hz burst every 800 ms for CRITICAL and HIGH, a single 440 Hz tone
    every 2500 ms for MEDIUM, nothing for LOW.

    The state is what React holds once the effects of a change have settled:
    the last severity value seen, `shouldPlay`, the due time of the pending
    window timeout and the live interval (its next tick). Playing a tone is an
    `Emission`. The 660 Hz half of a burst is a separate 200 ms timeout that
    clearing the interval does not cancel, so it is emitted, with its own due
    time, when its burst is. */
module Alarm {
  import opened Wrappers
  import opened Types

  const WindowMs := 15000
  const PairedPeriodMs := 800
  const EchoDelayMs := 200
  const SinglePeriodMs := 2500

  datatype Tone = Tone(frequencyHz: nat, durationMs: nat)

  const HighTone := Tone(880, 400)
  const EchoTone := Tone(660, 400)
  const MediumTone := Tone(440, 500)

  datatype Emission = Emission(atMs: int, tone: Tone)

  datatype Pattern = Paired | Single

  function PeriodMs(p: Pattern): nat {
    match p
    case Paired => PairedPeriodMs
    case Single => SinglePeriodMs
  }

  /** The loop a level gets while its window is open; LOW gets none. */
  function PatternFor(s: AlertSeverity): Option<Pattern> {
    match s
    case CRITICAL => Some(Paired)
    case HIGH => Some(Paired)
    case MEDIUM => Some(Single)
    case LOW => None
  }

  /** One firing of the interval. */
  function Burst(p: Pattern, tickMs: int): seq<Emission> {
    match p
    case Paired => [Emission(tickMs, HighTone), Emission(tickMs + EchoDelayMs, EchoTone)]
    case Single => [Emission(tickMs, MediumTone)]
  }

  /** The live interval: its pattern and the due time of its next firing. */
  datatype ToneLoop = ToneLoop(pattern: Pattern, nextTickMs: int)

  datatype AlarmState = AlarmState(
    nowMs: int,
    severity: Option<AlertSeverity>,
    shouldPlay: bool,
    window: Option<int>,
    loop: Option<ToneLoop>)

  /** The states the two effects can leave behind. */
  predicate Valid(st: AlarmState) {
    && (st.shouldPlay <==> st.window.Some?)
    && (st.shouldPlay ==> st.severity.Some?)
    && (st.window.Some? ==> st.nowMs <= st.window.value <= st.nowMs + WindowMs)
    && (st.loop.Some? <==> st.shouldPlay && PatternFor(st.severity.value).Some?)
    && (st.loop.Some? ==>
          && PatternFor(st.severity.value) == Some(st.loop.value.pattern)
          && st.nowMs <= st.loop.value.nextTickMs)
  }

  /** The tone effect: an interval only for an open window of a level that has a pattern. */
  function LoopFor(severity: Option<AlertSeverity>, shouldPlay: bool, nowMs: int): (l: Option<ToneLoop>)
    ensures l.Some? <==> severity.Some? && shouldPlay && PatternFor(severity.value).Some?
    ensures l.Some? ==> l.value == ToneLoop(PatternFor(severity.value).value, nowMs + PeriodMs(l.value.pattern))
  {
    if severity.None? || !shouldPlay then None
    else
      match PatternFor(severity.value)
      case None => None
      case Some(p) => Some(ToneLoop(p, nowMs + PeriodMs(p)))
  }

  /** The component receives a severity value at the current time. An equal
      value changes nothing; a different one restarts both effects: a level
      opens a fresh window (clearing the previous timeout and interval), none
      closes it at once. */
  function Observe(st: AlarmState, severity: Option<AlertSeverity>): (r: AlarmState)
    ensures r.nowMs == st.nowMs && r.severity == severity
    ensures severity == st.severity ==> r == st
    ensures severity != st.severity && severity.Some? ==>
      && r.shouldPlay && r.window == Some(st.nowMs + WindowMs)
      && r.loop == LoopFor(severity, true, st.nowMs)
    ensures Valid(st) && severity.None? ==> !r.shouldPlay && r.window.None? && r.loop.None?
    ensures Valid(st) ==> Valid(r)
  {
    if severity == st.severity then st
    else
      AlarmState(
        st.nowMs,
        severity,
        severity.Some?,
        if severity.Some? then Some(st.nowMs + WindowMs) else None,
        LoopFor(severity, severity.Some?, st.nowMs))
  }

  datatype Timer = WindowTimer | IntervalTimer

  /** The timer that fires next, if one is due by `until`. On a tie the
      window timeout, registered before the interval, fires first. */
  function NextTimer(st: AlarmState, until: int): Option<Timer> {
    if st.window.Some? && st.window.value <= until && (st.loop.None? || st.window.value <= st.loop.value.nextTickMs) then
      Some(WindowTimer)
    else if st.loop.Some? && st.loop.value.nextTickMs <= until then
      Some(IntervalTimer)
    else
      None
  }

  /** The window timeout: `shouldPlay` turns false and the tone effect clears the interval. */
  function FireWindow(st: AlarmState): AlarmState
    requires st.window.Some?
  {
    st.(nowMs := st.window.value, shouldPlay := false, window := None, loop := None)
  }

  /** One interval tick: a burst, and the next tick one period later. */
  function FireInterval(st: AlarmState): (AlarmState, seq<Emission>)
    requires st.loop.Some?
  {
    var l := st.loop.value;
    (st.(nowMs := l.nextTickMs, loop := Some(l.(nextTickMs := l.nextTickMs + PeriodMs(l.pattern)))),
     Burst(l.pattern, l.nextTickMs))
  }

  /** How much is left to fire by `until`: it shrinks with every firing. */
  function Pending(st: AlarmState, until: int): nat {
    (if st.window.Some? then 1 else 0)
    + (if st.loop.Some? && st.loop.value.nextTickMs <= until then until - st.loop.value.nextTickMs + 1 else 0)
  }

  function Max(a: int, b: int): int {
    if a >= b then a else b
  }

  datatype Advanced = Advanced(state: AlarmState, emitted: seq<Emission>)

  /** Let time pass to `until` with no change of severity: every timer due by
      then fires, earliest first. */
  function AdvanceTo(st: AlarmState, until: int): (r: Advanced)
    ensures r.state.severity == st.severity
    ensures r.state.shouldPlay ==> st.shouldPlay
    ensures st.loop.None? ==> r.emitted == [] && r.state.loop.None?
    ensures Valid(st) ==> Valid(r.state) && r.state.nowMs == Max(st.nowMs, until)
    ensures Valid(st) ==> (r.state.window.Some? <==> st.window.Some? && until < st.window.value)
    ensures Valid(st) && r.state.window.Some? ==> r.state.window == st.window
    decreases Pending(st, until)
  {
    match NextTimer(st, until)
    case None =>
      Advanced(st.(nowMs := Max(st.nowMs, until)), [])
    case Some(WindowTimer) =>
      AdvanceTo(FireWindow(st), until)
    case Some(IntervalTimer) =>
      var (next, burst) := FireInterval(st);
      var rest := AdvanceTo(next, until);
      Advanced(rest.state, burst + rest.emitted)
  }


  // ------------------------------------------------------------ tone counts

  /** The bursts of `n` consecutive ticks of a loop, the first at `firstTickMs`. */
  function Bursts(p: Pattern, firstTickMs: int, n: nat): seq<Emission>
    decreases n
  {
    if n == 0 then [] else Burst(p, firstTickMs) + Bursts(p, firstTickMs + PeriodMs(p), n - 1)
  }

  /** How many ticks of the pattern's loop from `firstTickMs` fall at or before `lastMs`. */
  function TickCount(p: Pattern, firstTickMs: int, lastMs: int): nat {
    if firstTickMs > lastMs then 0
    else
      match p
      case Paired => (lastMs - firstTickMs) / PairedPeriodMs + 1
      case Single => (lastMs - firstTickMs) / SinglePeriodMs + 1
  }

  lemma TickCountStep(p: Pattern, tick: int, lastMs: int)
    requires tick <= lastMs
    ensures TickCount(p, tick, lastMs) == TickCount(p, tick + PeriodMs(p), lastMs) + 1
  {
  }

  /** An open window's loop fires once per period from its next tick, for
      every tick strictly before the window closes (the timeout wins a tie)
      and no later than `until`. */
  lemma {:induction false} LoopEmissions(st: AlarmState, until: int)
    requires Valid(st) && st.loop.Some?
    ensures st.window.Some?
    ensures var l := st.loop.value;
      AdvanceTo(st, until).emitted
        == Bursts(l.pattern, l.nextTickMs, TickCount(l.pattern, l.nextTickMs, Min(until, st.window.value - 1)))
    decreases Pending(st, until)
  {
    var l := st.loop.value;
    var period := PeriodMs(l.pattern);
    var last := Min(until, st.window.value - 1);
    var n := TickCount(l.pattern, l.nextTickMs, last);
    match NextTimer(st, until)
    case None =>
      assert n == 0;
    case Some(WindowTimer) =>
      assert n == 0;
      assert AdvanceTo(st, until).emitted == AdvanceTo(FireWindow(st), until).emitted;
    case Some(IntervalTimer) =>
      var next := FireInterval(st).0;
      assert l.nextTickMs <= last;
      assert AdvanceTo(st, until).emitted == Burst(l.pattern, l.nextTickMs) + AdvanceTo(next, until).emitted;
      assert Valid(next) && next.window == st.window;
      assert next.loop == Some(ToneLoop(l.pattern, l.nextTickMs + period));
      var nl := next.loop.value;
      assert nl.pattern == l.pattern && nl.nextTickMs == l.nextTickMs + period;
      assert Min(until, next.window.value - 1) == last;
      var rest := TickCount(l.pattern, l.nextTickMs + period, last);
      assert rest == TickCount(nl.pattern, nl.nextTickMs, Min(until, next.window.value - 1));
      LoopEmissions(next, until);
      assert AdvanceTo(next, until).emitted == Bursts(nl.pattern, nl.nextTickMs, rest);
      TickCountStep(l.pattern, l.nextTickMs, last);
      assert n == rest + 1;
      assert Bursts(nl.pattern, nl.nextTickMs, rest) == Bursts(l.pattern, l.nextTickMs + period, rest);
      assert Bursts(l.pattern, l.nextTickMs, n) == Burst(l.pattern, l.nextTickMs) + Bursts(l.pattern, l.nextTickMs + period, rest);
      assert AdvanceTo(st, until).emitted == Bursts(l.pattern, l.nextTickMs, n);
  }

  function Min(a: int, b: int): int {
    if a <= b then a else b
  }

  /** A fresh HIGH or CRITICAL window sounds eighteen paired bursts, 800 ms
      apart from 800 ms after it started, and nothing more. */
  lemma PairedWindowSoundsEighteenBursts(st: AlarmState, s: AlertSeverity)
    requires Valid(st) && (s == HIGH || s == CRITICAL) && st.severity != Some(s)
    ensures var started := Observe(st, Some(s));
      && AdvanceTo(started, st.nowMs + WindowMs).emitted == Bursts(Paired, st.nowMs + PairedPeriodMs, 18)
      && !AdvanceTo(started, st.nowMs + WindowMs).state.shouldPlay
  {
    var started := Observe(st, Some(s));
    LoopEmissions(started, st.nowMs + WindowMs);
    assert TickCount(Paired, st.nowMs + 800, st.nowMs + 14999) == 18;
  }

  /** A fresh MEDIUM window sounds five single tones; the sixth tick would
      coincide with the window's end and is cleared first. */
  lemma MediumWindowSoundsFiveTones(st: AlarmState)
    requires Valid(st) && st.severity != Some(MEDIUM)
    ensures var started := Observe(st, Some(MEDIUM));
      AdvanceTo(started, st.nowMs + WindowMs).emitted == Bursts(Single, st.nowMs + SinglePeriodMs, 5)
  {
    var started := Observe(st, Some(MEDIUM));
    LoopEmissions(started, st.nowMs + WindowMs);
    assert TickCount(Single, st.nowMs + 2500, st.nowMs + 14999) == 5;
  }

  // ------------------------------------------------------- window behaviour

  /** Time passes to `atMs`, then the component receives `severity`. */
  function Receive(st: AlarmState, atMs: int, severity: Option<AlertSeverity>): (r: Advanced)
    requires Valid(st)
    ensures Valid(r.state) && r.state.severity == severity && r.state.nowMs == Max(st.nowMs, atMs)
    ensures r.emitted == AdvanceTo(st, atMs).emitted
  {
    var a := AdvanceTo(st, atMs);
    Advanced(Observe(a.state, severity), a.emitted)
  }

  /** A new level opens the window; it stays open for fifteen seconds without
      a change and is closed, with its interval cleared, from then on. */
  lemma WindowLastsFifteenSeconds(st: AlarmState, s: AlertSeverity, until: int)
    requires Valid(st) && st.severity != Some(s)
    ensures var started := Observe(st, Some(s));
      && started.shouldPlay
      && (until < st.nowMs + WindowMs ==> AdvanceTo(started, until).state.shouldPlay)
      && (st.nowMs + WindowMs <= until ==>
            !AdvanceTo(started, until).state.shouldPlay && AdvanceTo(started, until).state.loop.None?)
  {
  }

  /** LOW opens a window but schedules no tone in it. */
  lemma LowIsSilent(st: AlarmState, until: int)
    requires Valid(st)
    ensures AdvanceTo(Observe(st, Some(LOW)), until).emitted == []
  {
  }

  /** Receiving the same level again while its window is open does not
      restart the window: [none, HIGH, HIGH] opens one window only. */
  lemma RepeatedLevelKeepsWindow(st: AlarmState, s: AlertSeverity, t1: int, t2: int)
    requires Valid(st) && st.severity != Some(s) && st.nowMs <= t1 <= t2 < t1 + WindowMs
    ensures var first := Receive(st, t1, Some(s)).state;
      && first.window == Some(t1 + WindowMs)
      && var second := Receive(first, t2, Some(s)).state;
      && second.shouldPlay && second.window == Some(t1 + WindowMs)
  {
  }

  /** Dropping to none closes the window at once, and nothing sounds after it
      but the 660 Hz halves of bursts already played. */
  lemma NoneSilencesAtOnce(st: AlarmState, t: int, until: int)
    requires Valid(st)
    ensures var dropped := Receive(st, t, None).state;
      && !dropped.shouldPlay && dropped.window.None? && dropped.loop.None?
      && AdvanceTo(dropped, until).emitted == []
  {
  }

  /** As written, muting hands the alarm none and unmuting hands back the
      unchanged level: a change from none, so a fresh fifteen-second window
      opens at the moment of unmuting. */
  lemma UnmuteRestartsWindow(st: AlarmState, s: AlertSeverity, tMute: int, tUnmute: int)
    requires Valid(st) && st.severity == Some(s) && st.nowMs <= tMute <= tUnmute
    ensures var muted := Receive(st, tMute, None).state;
      && !muted.shouldPlay
      && var unmuted := Receive(muted, tUnmute, Some(s)).state;
      && unmuted.shouldPlay && unmuted.window == Some(tUnmute + WindowMs)
  {
  }

  // ---------------------------------------------------------- tone by level

  /** The tones a pattern plays. */
  function PatternTones(p: Pattern): set<Tone> {
    match p
    case Paired => {HighTone, EchoTone}
    case Single => {MediumTone}
  }

  /** The tones a severity value may sound: none for LOW and for none. */
  function LevelTones(severity: Option<AlertSeverity>): set<Tone> {
    if severity.None? then {}
    else
      match PatternFor(severity.value)
      case None => {}
      case Some(p) => PatternTones(p)
  }

  predicate OnlyTones(emitted: seq<Emission>, tones: set<Tone>) {
    forall i :: 0 <= i < |emitted| ==> emitted[i].tone in tones
  }

  /** Whatever time passes, the alarm sounds only its level's tones: 880 and
      660 Hz for CRITICAL and HIGH, 440 Hz for MEDIUM, nothing for LOW or none. */
  lemma {:induction false} TonesMatchLevel(st: AlarmState, until: int)
    requires Valid(st)
    ensures OnlyTones(AdvanceTo(st, until).emitted, LevelTones(st.severity))
    decreases Pending(st, until)
  {
    match NextTimer(st, until)
    case None =>
    case Some(WindowTimer) =>
      assert AdvanceTo(st, until).emitted == [];
    case Some(IntervalTimer) =>
      var next := FireInterval(st).0;
      var burst := FireInterval(st).1;
      TonesMatchLevel(next, until);
      assert OnlyTones(burst, LevelTones(st.severity));
      var all := AdvanceTo(st, until).emitted;
      var rest := AdvanceTo(next, until).emitted;
      assert all == burst + rest;
      forall i | 0 <= i < |all|
        ensures all[i].tone in LevelTones(st.severity)
      {
        if i >= |burst| {
          assert all[i] == rest[i - |burst|];
        }
      }
  }
}
