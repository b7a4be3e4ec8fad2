/** The focus dashboard: the session state machine that tracks which
    application has focus, credits elapsed milliseconds to per-application
    buckets, adds the time spent in applications judged not relevant to a
    distraction score, and keeps a log of focus changes.

    Each handler runs as one atomic step. The clock is a parameter `now`
    (milliseconds, as `Date.now()` gives them); the capture service, the
    model-backed routes and the Notification API are left outside: their
    results come in as parameters and the requests the page would send are
    returned as values. */
module FocusPage {
  import opened Wrappers
  import opened Text
  import opened Events
  import AnalyzeTask
  import FocusSettings

  type AppRelevance = AnalyzeTask.AppRelevance

  /** One entry of the session log: when focus left `app`, and for how
      long (unclamped) it had held it. */
  datatype FocusLog = FocusLog(timestamp: int, app: string, duration: int)

  function Max(a: int, b: int): int { if a < b then b else a }
  function Min(a: int, b: int): int { if a < b then a else b }

  /** JavaScript truthiness of a `string | null`: the empty name is falsy. */
  predicate Truthy(app: Option<string>) {
    app.Some? && app.value != ""
  }

  // ---------------------------------------------------------------------
  // Per-application buckets and their total
  // ---------------------------------------------------------------------

  /** `prev[app] || 0`. */
  function StatsOf(stats: map<string, int>, app: string): int {
    if app in stats then stats[app] else 0
  }

  predicate NonNegative(stats: map<string, int>) {
    forall a :: a in stats ==> stats[a] >= 0
  }

  /** The sum of all buckets. */
  ghost function Total(stats: map<string, int>): int
    decreases |stats|
  {
    if stats == map[] then 0
    else
      var a :| a in stats;
      stats[a] + Total(stats - {a})
  }

  lemma {:induction false} TotalRemove(stats: map<string, int>, a: string)
    requires a in stats
    ensures Total(stats) == stats[a] + Total(stats - {a})
    decreases |stats|
  {
    var b :| b in stats && Total(stats) == stats[b] + Total(stats - {b});
    if b != a {
      TotalRemove(stats - {b}, a);
      TotalRemove(stats - {a}, b);
      assert stats - {b} - {a} == stats - {a} - {b};
    }
  }

  /** Replacing one bucket changes the total by the difference. */
  lemma TotalUpdate(stats: map<string, int>, a: string, v: int)
    ensures Total(stats[a := v]) == Total(stats) - StatsOf(stats, a) + v
  {
    TotalRemove(stats[a := v], a);
    if a in stats {
      TotalRemove(stats, a);
      assert stats[a := v] - {a} == stats - {a};
    } else {
      assert stats[a := v] - {a} == stats;
    }
  }

  lemma {:induction false} TotalNonNegative(stats: map<string, int>)
    requires NonNegative(stats)
    ensures Total(stats) >= 0
    decreases |stats|
  {
    if stats != map[] {
      var a :| a in stats;
      TotalRemove(stats, a);
      TotalNonNegative(stats - {a});
    }
  }

  // ---------------------------------------------------------------------
  // Relevance verdicts
  // ---------------------------------------------------------------------

  /** `appRelevance.find(a => a.appName === app)`: exact, case-sensitive. */
  function FirstVerdict(verdicts: seq<AppRelevance>, app: string): Option<AppRelevance>
    decreases |verdicts|
  {
    if verdicts == [] then None
    else if verdicts[0].appName == app then Some(verdicts[0])
    else FirstVerdict(verdicts[1..], app)
  }

  /** The score is credited only when a verdict for the application exists
      and says "not relevant"; an application without a verdict adds nothing. */
  predicate IsDistracting(verdicts: seq<AppRelevance>, app: string) {
    match FirstVerdict(verdicts, app)
    case Some(v) => !v.isRelevant
    case None => false
  }

  /** Position `i` holds the first verdict carrying the name `app`. */
  predicate FirstNamedAt(verdicts: seq<AppRelevance>, app: string, i: int) {
    0 <= i < |verdicts| && verdicts[i].appName == app
    && forall j :: 0 <= j < i ==> verdicts[j].appName != app
  }

  lemma FirstNamedAtShift(verdicts: seq<AppRelevance>, app: string, i: int)
    requires verdicts != [] && verdicts[0].appName != app
    ensures FirstNamedAt(verdicts, app, i) <==> i > 0 && FirstNamedAt(verdicts[1..], app, i - 1)
  {
    if i > 0 && FirstNamedAt(verdicts[1..], app, i - 1) {
      forall j | 0 <= j < i ensures verdicts[j].appName != app {
        if j > 0 { assert verdicts[j] == verdicts[1..][j - 1]; }
      }
    }
  }

  /** An application counts as a distraction exactly when the first
      verdict carrying its name says "not relevant". */
  lemma {:induction false} IsDistractingSpec(verdicts: seq<AppRelevance>, app: string)
    ensures IsDistracting(verdicts, app) <==>
      exists i :: FirstNamedAt(verdicts, app, i) && !verdicts[i].isRelevant
    decreases |verdicts|
  {
    if verdicts == [] {
    } else if verdicts[0].appName == app {
      assert FirstNamedAt(verdicts, app, 0);
      forall i | FirstNamedAt(verdicts, app, i) ensures i == 0 { }
    } else {
      IsDistractingSpec(verdicts[1..], app);
      forall i ensures FirstNamedAt(verdicts, app, i) <==> i > 0 && FirstNamedAt(verdicts[1..], app, i - 1) {
        FirstNamedAtShift(verdicts, app, i);
      }
      if IsDistracting(verdicts, app) {
        var k :| FirstNamedAt(verdicts[1..], app, k) && !verdicts[1..][k].isRelevant;
        assert FirstNamedAt(verdicts, app, k + 1);
      }
    }
  }

  // ---------------------------------------------------------------------
  // The tracked session state and its steps
  // ---------------------------------------------------------------------

  /** The part of the page's state that focus tracking updates: the current
      application and when it gained focus, when the buckets were last
      credited, the buckets, the score and the session log. */
  datatype Tracker = Tracker(
    currentApp: Option<string>,
    appStartTime: int,
    lastStatsUpdate: int,
    appStats: map<string, int>,
    distractionScore: int,
    sessionLogs: seq<FocusLog>)

  /** Buckets never go negative, and the score never exceeds the time
      credited to the buckets. */
  ghost predicate TrackerInvariant(t: Tracker) {
    NonNegative(t.appStats) && 0 <= t.distractionScore <= Total(t.appStats)
  }

  /** `Math.max(0, Math.min(timeSpent, now - lastStatsUpdate))`. */
  function Credit(timeSpent: int, now: int, lastStatsUpdate: int): (c: int)
    ensures c >= 0
    ensures timeSpent >= 0 ==> c <= timeSpent
    ensures c <= Max(0, now - lastStatsUpdate)
    ensures 0 <= timeSpent <= now - lastStatsUpdate ==> c == timeSpent
    ensures 0 <= now - lastStatsUpdate <= timeSpent ==> c == now - lastStatsUpdate
    ensures timeSpent <= 0 || now <= lastStatsUpdate ==> c == 0
  {
    Max(0, Min(timeSpent, now - lastStatsUpdate))
  }

  /** `updateAppStats(app, timeSpent)` at time `now`, against `verdicts`. */
  function StatsStep(t: Tracker, app: string, timeSpent: int, now: int,
                     verdicts: seq<AppRelevance>): (r: Tracker)
    ensures r.appStats.Keys == t.appStats.Keys + {app}
    ensures forall a :: a in t.appStats && a != app ==> r.appStats[a] == t.appStats[a]
    ensures r.appStats[app] == StatsOf(t.appStats, app) + Credit(timeSpent, now, t.lastStatsUpdate)
    ensures StatsOf(t.appStats, app) <= r.appStats[app]
    ensures IsDistracting(verdicts, app) ==>
      r.distractionScore == t.distractionScore + Credit(timeSpent, now, t.lastStatsUpdate)
    ensures !IsDistracting(verdicts, app) ==> r.distractionScore == t.distractionScore
    ensures r.lastStatsUpdate == now
    ensures r.currentApp == t.currentApp && r.appStartTime == t.appStartTime
    ensures r.sessionLogs == t.sessionLogs
  {
    var credit := Credit(timeSpent, now, t.lastStatsUpdate);
    var stats := t.appStats[app := StatsOf(t.appStats, app) + credit];
    var score := if IsDistracting(verdicts, app) then t.distractionScore + credit else t.distractionScore;
    t.(appStats := stats, distractionScore := score, lastStatsUpdate := now)
  }

  /** Crediting adds exactly the credit to the total, and keeps the
      tracker invariant. */
  lemma StatsStepTotal(t: Tracker, app: string, timeSpent: int, now: int, verdicts: seq<AppRelevance>)
    ensures var r := StatsStep(t, app, timeSpent, now, verdicts);
      Total(r.appStats) == Total(t.appStats) + Credit(timeSpent, now, t.lastStatsUpdate)
      && (TrackerInvariant(t) ==> TrackerInvariant(r))
  {
    TotalUpdate(t.appStats, app, StatsOf(t.appStats, app) + Credit(timeSpent, now, t.lastStatsUpdate));
  }

  /** The buckets of the applications that `verdicts` marks as distractions. */
  ghost function DistractingStats(stats: map<string, int>, verdicts: seq<AppRelevance>): map<string, int> {
    map a | a in stats && IsDistracting(verdicts, a) :: stats[a]
  }

  /** The time credited to applications that `verdicts` marks as distractions. */
  ghost function DistractingTotal(stats: map<string, int>, verdicts: seq<AppRelevance>): int {
    Total(DistractingStats(stats, verdicts))
  }

  /** Crediting grows the score by exactly what it adds to the buckets of
      distracting applications. */
  lemma StatsStepScore(t: Tracker, app: string, timeSpent: int, now: int, verdicts: seq<AppRelevance>)
    ensures var r := StatsStep(t, app, timeSpent, now, verdicts);
      r.distractionScore - t.distractionScore
        == DistractingTotal(r.appStats, verdicts) - DistractingTotal(t.appStats, verdicts)
  {
    var r := StatsStep(t, app, timeSpent, now, verdicts);
    var d := DistractingStats(t.appStats, verdicts);
    if IsDistracting(verdicts, app) {
      assert DistractingStats(r.appStats, verdicts) == d[app := r.appStats[app]];
      assert StatsOf(d, app) == StatsOf(t.appStats, app);
      TotalUpdate(d, app, r.appStats[app]);
    } else {
      assert DistractingStats(r.appStats, verdicts) == d;
    }
  }

  /** `updateFocus(newApp)` at time `now`: a truthy current application is
      credited and logged with its raw elapsed time; then `newApp` becomes
      current, with focus gained at `now`. */
  function FocusStep(t: Tracker, newApp: string, now: int, verdicts: seq<AppRelevance>): (r: Tracker)
    ensures r.currentApp == Some(newApp) && r.appStartTime == now
    ensures Truthy(t.currentApp) ==>
      r.sessionLogs == t.sessionLogs + [FocusLog(now, t.currentApp.value, now - t.appStartTime)]
      && r == StatsStep(t, t.currentApp.value, now - t.appStartTime, now, verdicts)
                .(currentApp := Some(newApp), appStartTime := now,
                  sessionLogs := t.sessionLogs + [FocusLog(now, t.currentApp.value, now - t.appStartTime)])
    ensures !Truthy(t.currentApp) ==>
      r.sessionLogs == t.sessionLogs && r.appStats == t.appStats
      && r.distractionScore == t.distractionScore && r.lastStatsUpdate == t.lastStatsUpdate
  {
    if Truthy(t.currentApp) then
      var previous := t.currentApp.value;
      var timeSpent := now - t.appStartTime;
      var s := StatsStep(t, previous, timeSpent, now, verdicts);
      s.(sessionLogs := s.sessionLogs + [FocusLog(now, previous, timeSpent)],
         currentApp := Some(newApp), appStartTime := now)
    else
      t.(currentApp := Some(newApp), appStartTime := now)
  }

  lemma FocusStepInvariant(t: Tracker, newApp: string, now: int, verdicts: seq<AppRelevance>)
    requires TrackerInvariant(t)
    ensures TrackerInvariant(FocusStep(t, newApp, now, verdicts))
  {
    if Truthy(t.currentApp) {
      StatsStepTotal(t, t.currentApp.value, now - t.appStartTime, now, verdicts);
    }
  }

  /** The application name of the newest event of a poll, when it is a string. */
  function NewestApp(batch: seq<UiEvent>): Option<string> {
    if batch == [] then None else batch[NewestIndex(batch)].appName
  }

  /** A poll switches focus only when the newest event names an
      application other than the current one. */
  predicate PollSwitches(t: Tracker, batch: seq<UiEvent>) {
    NewestApp(batch).Some? && Some(NewestApp(batch).value) != t.currentApp
  }

  /** The focus part of one poll tick with a non-empty batch. */
  function PollStep(t: Tracker, batch: seq<UiEvent>, now: int, verdicts: seq<AppRelevance>): (r: Tracker)
    ensures !PollSwitches(t, batch) ==> r == t
    ensures PollSwitches(t, batch) ==> r.currentApp == NewestApp(batch) && r.appStartTime == now
    ensures NewestApp(batch).Some? ==> r.currentApp == NewestApp(batch)
    ensures PollSwitches(t, batch) ==> r == FocusStep(t, NewestApp(batch).value, now, verdicts)
  {
    if PollSwitches(t, batch) then FocusStep(t, NewestApp(batch).value, now, verdicts) else t
  }

  /** Polling again while the newest event still names the same
      application changes nothing: no log entry, no credit, no new start
      time. */
  lemma RepeatedPollIsIdle(t: Tracker, first: seq<UiEvent>, second: seq<UiEvent>,
                           now1: int, now2: int, v1: seq<AppRelevance>, v2: seq<AppRelevance>)
    requires NewestApp(first).Some? && NewestApp(second) == NewestApp(first)
    ensures var after := PollStep(t, first, now1, v1);
      PollStep(after, second, now2, v2) == after
  {
  }

  // ---------------------------------------------------------------------
  // Runs of focus changes
  // ---------------------------------------------------------------------

  /** A call `updateFocus(app)` made at time `now`. */
  datatype Observation = Observation(app: string, now: int)

  function FocusRun(t: Tracker, run: seq<Observation>, verdicts: seq<AppRelevance>): Tracker
    decreases |run|
  {
    if run == [] then t else FocusRun(FocusStep(t, run[0].app, run[0].now, verdicts), run[1..], verdicts)
  }

  /** The clock never runs backwards, neither within the run nor behind the
      state's own two timestamps. */
  predicate ClockNonDecreasing(t: Tracker, run: seq<Observation>) {
    (forall i :: 0 <= i < |run| ==> t.appStartTime <= run[i].now && t.lastStatsUpdate <= run[i].now)
    && (forall i, j :: 0 <= i < j < |run| ==> run[i].now <= run[j].now)
  }

  function SumDurations(logs: seq<FocusLog>): int
    decreases |logs|
  {
    if logs == [] then 0 else SumDurations(logs[..|logs| - 1]) + logs[|logs| - 1].duration
  }

  lemma SumDurationsAppend(logs: seq<FocusLog>, entry: FocusLog)
    ensures SumDurations(logs + [entry]) == SumDurations(logs) + entry.duration
  {
    assert (logs + [entry])[..|logs|] == logs;
  }

  /** One focus change at a time no earlier than the state's timestamps. */
  lemma FocusStepBounds(t: Tracker, app: string, now: int, verdicts: seq<AppRelevance>)
    requires t.appStartTime <= now && t.lastStatsUpdate <= now
    ensures var r := FocusStep(t, app, now, verdicts);
      t.lastStatsUpdate <= r.lastStatsUpdate <= now
      && Total(r.appStats) - Total(t.appStats) <= r.lastStatsUpdate - t.lastStatsUpdate
      && r.distractionScore - t.distractionScore <= Total(r.appStats) - Total(t.appStats)
      && SumDurations(r.sessionLogs) - SumDurations(t.sessionLogs) <= now - t.appStartTime
  {
    if Truthy(t.currentApp) {
      StatsStepTotal(t, t.currentApp.value, now - t.appStartTime, now, verdicts);
      SumDurationsAppend(t.sessionLogs, FocusLog(now, t.currentApp.value, now - t.appStartTime));
    }
  }

  /** Over a run with a non-decreasing clock, the buckets gain at most the
      time between the first and the last credit, the score gains no more
      than the buckets, and the logged durations add up to at most the time
      from when the first application gained focus to when the last did. */
  lemma {:induction false} FocusRunBounds(t: Tracker, run: seq<Observation>, verdicts: seq<AppRelevance>)
    requires ClockNonDecreasing(t, run)
    ensures var r := FocusRun(t, run, verdicts);
      t.lastStatsUpdate <= r.lastStatsUpdate
      && Total(r.appStats) - Total(t.appStats) <= r.lastStatsUpdate - t.lastStatsUpdate
      && r.distractionScore - t.distractionScore <= Total(r.appStats) - Total(t.appStats)
      && t.appStartTime <= r.appStartTime
      && SumDurations(r.sessionLogs) - SumDurations(t.sessionLogs) <= r.appStartTime - t.appStartTime
      && (run != [] ==> r.appStartTime == run[|run| - 1].now && r.lastStatsUpdate <= run[|run| - 1].now)
    decreases |run|
  {
    if run != [] {
      var s := FocusStep(t, run[0].app, run[0].now, verdicts);
      FocusStepBounds(t, run[0].app, run[0].now, verdicts);
      assert ClockNonDecreasing(s, run[1..]);
      FocusRunBounds(s, run[1..], verdicts);
      if |run| > 1 {
        assert run[1..][|run[1..]| - 1] == run[|run| - 1];
      }
    }
  }

  /** Over any run against fixed verdicts, the score grows by exactly the
      time credited to applications those verdicts mark as distractions. */
  lemma {:induction false} FocusRunScore(t: Tracker, run: seq<Observation>, verdicts: seq<AppRelevance>)
    ensures var r := FocusRun(t, run, verdicts);
      r.distractionScore - t.distractionScore
        == DistractingTotal(r.appStats, verdicts) - DistractingTotal(t.appStats, verdicts)
    decreases |run|
  {
    if run != [] {
      if Truthy(t.currentApp) {
        StatsStepScore(t, t.currentApp.value, run[0].now - t.appStartTime, run[0].now, verdicts);
      }
      FocusRunScore(FocusStep(t, run[0].app, run[0].now, verdicts), run[1..], verdicts);
    }
  }

  /** From a freshly started session (empty buckets, zero score), the score
      is the total time spent in applications marked as distractions. */
  lemma FreshSessionScore(t: Tracker, run: seq<Observation>, verdicts: seq<AppRelevance>)
    requires t.appStats == map[] && t.distractionScore == 0
    ensures var r := FocusRun(t, run, verdicts);
      r.distractionScore == DistractingTotal(r.appStats, verdicts)
  {
    FocusRunScore(t, run, verdicts);
    assert DistractingStats(t.appStats, verdicts) == map[];
  }

  /** A run that starts with no application in focus logs at most the
      time between its first and its last observation. */
  lemma SessionDurationsBound(t: Tracker, run: seq<Observation>, verdicts: seq<AppRelevance>)
    requires !Truthy(t.currentApp) && run != []
    requires ClockNonDecreasing(t, run)
    ensures SumDurations(FocusRun(t, run, verdicts).sessionLogs) - SumDurations(t.sessionLogs)
      <= run[|run| - 1].now - run[0].now
  {
    var s := FocusStep(t, run[0].app, run[0].now, verdicts);
    assert ClockNonDecreasing(s, run[1..]);
    FocusRunBounds(s, run[1..], verdicts);
    if |run| > 1 {
      assert run[1..][|run[1..]| - 1] == run[|run| - 1];
    }
  }

  // ---------------------------------------------------------------------
  // Pure helpers of the page
  // ---------------------------------------------------------------------

  /** `a % b` as JavaScript computes it: the remainder takes the sign of `a`. */
  function JsRemainder(a: int, b: int): (r: int)
    requires b > 0
    ensures a >= 0 ==> 0 <= r < b && r == a % b
    ensures a < 0 ==> -b < r <= 0 && 0 - r == (0 - a) % b
  {
    if a >= 0 then a % b else -((-a) % b)
  }

  /** `Math.floor(ms / 60000)`; Dafny's division by a positive divisor
      rounds down, as `Math.floor` does. */
  function Minutes(ms: int): int { ms / 60000 }

  /** `Math.floor((ms % 60000) / 1000)`. */
  function Seconds(ms: int): int { JsRemainder(ms, 60000) / 1000 }

  /** `formatTime(ms)`: `${minutes}m ${seconds}s`. */
  function FormatTime(ms: int): string {
    IntToDecimal(Minutes(ms)) + "m " + IntToDecimal(Seconds(ms)) + "s"
  }

  /** For a non-negative duration the two fields are whole minutes and the
      whole seconds left over, 0 to 59; a negative duration (never produced
      by the buckets or the score) shows seconds from -60 to 0. */
  lemma FormatTimeFields(ms: int)
    ensures ms >= 0 ==> (Minutes(ms) >= 0 && 0 <= Seconds(ms) <= 59
      && 60000 * Minutes(ms) + 1000 * Seconds(ms) <= ms < 60000 * Minutes(ms) + 1000 * Seconds(ms) + 1000)
    ensures ms < 0 ==> Minutes(ms) < 0 && -60 <= Seconds(ms) <= 0
  {
    var r := JsRemainder(ms, 60000);
    if ms >= 0 {
      assert r == ms % 60000;
      assert ms == 60000 * Minutes(ms) + r;
      assert 1000 * Seconds(ms) <= r < 1000 * Seconds(ms) + 1000;
    }
  }

  /** Reads `<int>m <int>s` back. */
  function ParseTime(s: string): Option<(int, int)> {
    match IndexOf(s, 'm')
    case None => None
    case Some(k) =>
      if k + 2 <= |s| - 1 && s[k + 1] == ' ' && s[|s| - 1] == 's' then
        match (ParseInt(s[..k]), ParseInt(s[k + 2..|s| - 1]))
        case (Some(m), Some(sec)) => Some((m, sec))
        case _ => None
      else None
  }

  /** The rendering is unambiguous: minutes and seconds read back from it. */
  lemma FormatTimeRoundTrip(ms: int)
    ensures ParseTime(FormatTime(ms)) == Some((Minutes(ms), Seconds(ms)))
  {
    var a := IntToDecimal(Minutes(ms));
    var b := IntToDecimal(Seconds(ms));
    var s := FormatTime(ms);
    assert s == a + "m " + b + "s";
    assert s[|a|] == 'm';
    var k := IndexOf(s, 'm');
    assert k.Some? && k.value <= |a|;
    assert forall i :: 0 <= i < |a| ==> s[i] == a[i] && s[i] != 'm';
    assert k.value == |a|;
    assert s[..|a|] == a;
    assert s[|a| + 2..|s| - 1] == b;
    IntRoundTrip(Minutes(ms));
    IntRoundTrip(Seconds(ms));
  }

  /** `checkForDistractions`: a notification when a truthy current
      application differs from the literal focus task. */
  function DistractionAlert(currentApp: Option<string>, focusTask: string): (r: Option<string>)
    ensures r.Some? <==> Truthy(currentApp) && currentApp.value != focusTask
  {
    if Truthy(currentApp) && currentApp.value != focusTask then
      Some("You are distracted by " + currentApp.value + ". Focus on " + focusTask + "!")
    else None
  }

  /** Both "high" and "distraction" occur somewhere in `s`. */
  ghost predicate MentionsHighDistraction(s: string) {
    (exists i :: OccursAt(s, "high", i)) && (exists j :: OccursAt(s, "distraction", j))
  }

  lemma BothWordsIff(s: string)
    ensures (Contains(s, "high") && Contains(s, "distraction")) <==> MentionsHighDistraction(s)
  {
    ContainsIff(s, "high");
    ContainsIff(s, "distraction");
  }

  /** The notification raised by a finished activity analysis: only when
      its text mentions both "high" and "distraction", ignoring case; it
      quotes at most the first 100 characters. */
  function AnalysisAlert(analysis: string): (r: Option<string>)
    ensures r.Some? <==> MentionsHighDistraction(Lower(analysis))
    ensures r.Some? ==> (exists n :: (0 <= n <= 100 && n <= |analysis|
      && r.value == "AI Analysis: " + analysis[..n] + "..." && (n < 100 ==> n == |analysis|)))
  {
    BothWordsIff(Lower(analysis));
    if Contains(Lower(analysis), "high") && Contains(Lower(analysis), "distraction") then
      Some("AI Analysis: " + analysis[..Min(100, |analysis|)] + "...")
    else None
  }

  // ---------------------------------------------------------------------
  // The page
  // ---------------------------------------------------------------------

  /** What the awaited capture query of a poll produced. */
  datatype PollOutcome = PollThrew | PollData(data: Option<seq<UiEvent>>)

  /** The events a poll works on: present and non-empty data. */
  function PollBatch(outcome: PollOutcome): Option<seq<UiEvent>> {
    if outcome.PollData? && outcome.data.Some? && outcome.data.value != [] then outcome.data else None
  }

  class FocusSession {
    var isSessionActive: bool
    var sessionStartTime: Option<int>
    var currentApp: Option<string>
    var currentAppStartTime: int
    var lastStatsUpdate: int
    var appStats: map<string, int>
    var distractionScore: int
    var sessionLogs: seq<FocusLog>
    var logsCount: nat
    var searchCount: nat
    var focusTask: string
    var aiAnalysis: Option<string>
    var aiSettings: Option<FocusSettings.AISettings>
    var appRelevance: seq<AppRelevance>
    var errorMessage: Option<string>

    /** The tracked part of the state as a value. */
    function Tracked(): Tracker
      reads this
    {
      Tracker(currentApp, currentAppStartTime, lastStatsUpdate, appStats, distractionScore, sessionLogs)
    }

    /** A session start time is set exactly while a session is active; the
        buckets and the score keep the tracker invariant. */
    ghost predicate Valid()
      reads this
    {
      (isSessionActive <==> sessionStartTime.Some?) && TrackerInvariant(Tracked())
    }

    /** The state of a freshly mounted page at time `now`. */
    constructor (now: int)
      ensures Valid()
      ensures !isSessionActive && sessionStartTime.None? && currentApp.None?
      ensures currentAppStartTime == now && lastStatsUpdate == now
      ensures appStats == map[] && distractionScore == 0 && sessionLogs == []
      ensures logsCount == 0 && searchCount == 0 && focusTask == "coding"
      ensures aiAnalysis.None? && aiSettings.None? && appRelevance == [] && errorMessage.None?
    {
      isSessionActive := false;
      sessionStartTime := None;
      currentApp := None;
      currentAppStartTime := now;
      lastStatsUpdate := now;
      appStats := map[];
      distractionScore := 0;
      sessionLogs := [];
      logsCount := 0;
      searchCount := 0;
      focusTask := "coding";
      aiAnalysis := None;
      aiSettings := None;
      appRelevance := [];
      errorMessage := None;
    }

    /** `toggleSession` at time `now`: starting clears the buckets, score,
        log count, analysis and session log; stopping only clears the start
        time. Neither touches the current application or its timestamps. */
    method ToggleSession(now: int)
      requires Valid()
      modifies this
      ensures Valid()
      ensures aiSettings == old(aiSettings)
      ensures isSessionActive == !old(isSessionActive)
      ensures !old(isSessionActive) ==>
        sessionStartTime == Some(now) && appStats == map[] && distractionScore == 0
        && logsCount == 0 && aiAnalysis.None? && sessionLogs == []
      ensures old(isSessionActive) ==>
        sessionStartTime.None? && appStats == old(appStats) && distractionScore == old(distractionScore)
        && logsCount == old(logsCount) && aiAnalysis == old(aiAnalysis) && sessionLogs == old(sessionLogs)
      ensures currentApp == old(currentApp) && currentAppStartTime == old(currentAppStartTime)
      ensures lastStatsUpdate == old(lastStatsUpdate) && searchCount == old(searchCount)
      ensures focusTask == old(focusTask) && appRelevance == old(appRelevance)
      ensures errorMessage == old(errorMessage)
    {
      if !isSessionActive {
        sessionStartTime := Some(now);
        appStats := map[];
        distractionScore := 0;
        logsCount := 0;
        aiAnalysis := None;
        sessionLogs := [];
      } else {
        sessionStartTime := None;
      }
      isSessionActive := !isSessionActive;
    }

    /** `updateAppStats(app, timeSpent)` at time `now`. */
    method UpdateAppStats(app: string, timeSpent: int, now: int)
      requires Valid()
      modifies this
      ensures Valid()
      ensures aiSettings == old(aiSettings)
      ensures Tracked() == StatsStep(old(Tracked()), app, timeSpent, now, appRelevance)
      ensures isSessionActive == old(isSessionActive) && sessionStartTime == old(sessionStartTime)
      ensures logsCount == old(logsCount) && searchCount == old(searchCount)
      ensures focusTask == old(focusTask) && aiAnalysis == old(aiAnalysis)
      ensures appRelevance == old(appRelevance) && errorMessage == old(errorMessage)
    {
      ghost var before := Tracked();
      var validTimeSpent := Max(0, Min(timeSpent, now - lastStatsUpdate));
      var previous := if app in appStats then appStats[app] else 0;
      appStats := appStats[app := previous + validTimeSpent];
      var analysis := FirstVerdict(appRelevance, app);
      if analysis.Some? && !analysis.value.isRelevant {
        distractionScore := distractionScore + validTimeSpent;
      }
      lastStatsUpdate := now;
      StatsStepTotal(before, app, timeSpent, now, appRelevance);
    }

    /** `updateFocus(newApp)` at time `now`. Also answers whether the page
        asks for a new relevance classification: a non-empty focus task
        and at least one bucket as they stood before this call. */
    method UpdateFocus(newApp: string, now: int) returns (requestClassification: bool)
      requires Valid()
      modifies this
      ensures Valid()
      ensures aiSettings == old(aiSettings)
      ensures Tracked() == FocusStep(old(Tracked()), newApp, now, appRelevance)
      ensures requestClassification == (focusTask != "" && |old(appStats)| > 0)
      ensures isSessionActive == old(isSessionActive) && sessionStartTime == old(sessionStartTime)
      ensures logsCount == old(logsCount) && searchCount == old(searchCount)
      ensures focusTask == old(focusTask) && aiAnalysis == old(aiAnalysis)
      ensures appRelevance == old(appRelevance) && errorMessage == old(errorMessage)
    {
      ghost var before := Tracked();
      var statsBefore := appStats;
      if currentApp.Some? && currentApp.value != "" {
        var previous := currentApp.value;
        var timeSpent := now - currentAppStartTime;
        UpdateAppStats(previous, timeSpent, now);
        sessionLogs := sessionLogs + [FocusLog(now, previous, timeSpent)];
      }
      currentApp := Some(newApp);
      currentAppStartTime := now;
      requestClassification := focusTask != "" && |statsBefore| > 0;
      FocusStepInvariant(before, newApp, now, appRelevance);
    }

    /** One tick of the poller at time `now`. It runs only while a session
        is active. A thrown query sets the error banner. A non-empty batch
        bumps the poll counter, hands the batch to the activity analysis on
        every tenth such poll (which goes ahead only once the AI settings are
        loaded), and switches focus when the newest event names a different
        application. */
    method PollTick(outcome: PollOutcome, now: int)
      returns (summaryBatch: Option<seq<UiEvent>>, requestClassification: bool)
      requires Valid()
      modifies this
      ensures Valid()
      ensures aiSettings == old(aiSettings)
      ensures !old(isSessionActive) || PollBatch(outcome).None? ==>
        Tracked() == old(Tracked()) && searchCount == old(searchCount)
        && summaryBatch.None? && !requestClassification
      ensures old(isSessionActive) && outcome.PollThrew? ==>
        errorMessage == Some("Error polling OCR events")
      ensures !old(isSessionActive) || !outcome.PollThrew? ==> errorMessage == old(errorMessage)
      ensures old(isSessionActive) && PollBatch(outcome).Some? ==>
        var batch := PollBatch(outcome).value;
        searchCount == old(searchCount) + 1
        && (summaryBatch.Some? <==> searchCount % 10 == 0 && aiSettings.Some?)
        && (summaryBatch.Some? ==> summaryBatch.value == batch)
        && Tracked() == PollStep(old(Tracked()), batch, now, appRelevance)
        && requestClassification == (PollSwitches(old(Tracked()), batch) && focusTask != "" && |old(appStats)| > 0)
      ensures isSessionActive == old(isSessionActive) && sessionStartTime == old(sessionStartTime)
      ensures logsCount == old(logsCount) && focusTask == old(focusTask)
      ensures aiAnalysis == old(aiAnalysis) && appRelevance == old(appRelevance)
    {
      summaryBatch, requestClassification := None, false;
      if !isSessionActive {
        return;
      }
      match outcome
      case PollThrew =>
        errorMessage := Some("Error polling OCR events");
      case PollData(data) =>
        if data.Some? && |data.value| > 0 {
          var events := data.value;
          searchCount := searchCount + 1;
          if searchCount % 10 == 0 && aiSettings.Some? {
            summaryBatch := Some(events);
          }
          var latest := events[NewestIndex(events)];
          if latest.appName.Some? && Some(latest.appName.value) != currentApp {
            requestClassification := UpdateFocus(latest.appName.value, now);
          }
        }
    }

    /** `checkForDistractions`: reads the state and changes nothing. */
    method CheckForDistractions() returns (notification: Option<string>)
      ensures notification.Some? <==> Truthy(currentApp) && currentApp.value != focusTask
      ensures notification.Some? ==> notification == DistractionAlert(currentApp, focusTask)
    {
      notification := None;
      if currentApp.Some? && currentApp.value != "" && currentApp.value != focusTask {
        notification := Some("You are distracted by " + currentApp.value + ". Focus on " + focusTask + "!");
      }
    }

    /** The completion of a relevance classification: its verdicts replace
        the previous ones wholesale; a failure only sets the error banner. */
    method ReceiveVerdicts(outcome: Result<seq<AppRelevance>, string>)
      requires Valid()
      modifies this
      ensures Valid()
      ensures aiSettings == old(aiSettings)
      ensures outcome.Success? ==> appRelevance == outcome.value && errorMessage == old(errorMessage)
      ensures outcome.Failure? ==>
        appRelevance == old(appRelevance) && errorMessage == Some("Failed to analyze task relevance")
      ensures Tracked() == old(Tracked()) && isSessionActive == old(isSessionActive)
      ensures sessionStartTime == old(sessionStartTime) && searchCount == old(searchCount)
      ensures logsCount == old(logsCount) && focusTask == old(focusTask) && aiAnalysis == old(aiAnalysis)
    {
      match outcome
      case Success(verdicts) => appRelevance := verdicts;
      case Failure(_) => errorMessage := Some("Failed to analyze task relevance");
    }

    /** The completion of an activity analysis: its text is shown, and a
        notification is raised when it reports high distraction. */
    method ReceiveActivityAnalysis(outcome: Result<string, string>) returns (notification: Option<string>)
      requires Valid()
      modifies this
      ensures Valid()
      ensures aiSettings == old(aiSettings)
      ensures outcome.Success? ==>
        aiAnalysis == Some(outcome.value) && notification == AnalysisAlert(outcome.value)
        && errorMessage == old(errorMessage)
      ensures outcome.Failure? ==>
        aiAnalysis == old(aiAnalysis) && notification.None?
        && errorMessage == Some("Failed to analyze activities")
      ensures Tracked() == old(Tracked()) && isSessionActive == old(isSessionActive)
      ensures sessionStartTime == old(sessionStartTime) && searchCount == old(searchCount)
      ensures logsCount == old(logsCount) && focusTask == old(focusTask) && appRelevance == old(appRelevance)
    {
      notification := None;
      match outcome
      case Success(text) =>
        aiAnalysis := Some(text);
        notification := AnalysisAlert(text);
      case Failure(_) =>
        errorMessage := Some("Failed to analyze activities");
    }

    /** Editing the focus task: stored as typed. The effect watching the
        task requests a classification when the task actually changed, is
        non-empty and some bucket exists. */
    method ChangeFocusTask(task: string) returns (requestClassification: bool)
      requires Valid()
      modifies this
      ensures Valid()
      ensures aiSettings == old(aiSettings)
      ensures focusTask == task
      ensures requestClassification == (task != old(focusTask) && task != "" && |appStats| > 0)
      ensures Tracked() == old(Tracked()) && isSessionActive == old(isSessionActive)
      ensures sessionStartTime == old(sessionStartTime) && searchCount == old(searchCount)
      ensures logsCount == old(logsCount) && aiAnalysis == old(aiAnalysis)
      ensures appRelevance == old(appRelevance) && errorMessage == old(errorMessage)
    {
      requestClassification := task != focusTask && task != "" && |appStats| > 0;
      focusTask := task;
    }

    /** The effect that copies loaded settings into the page: the AI
        settings when present, and the default focus task when the focus
        settings are present (which, like an edit, may request a
        classification). */
    method ApplySettings(settings: Option<map<string, FocusSettings.SettingValue>>)
      returns (requestClassification: bool)
      requires Valid()
      modifies this
      ensures Valid()
      ensures HasAiSettings(settings) ==> aiSettings == Some(settings.value[FocusSettings.AiSettingsKey].ai)
      ensures !HasAiSettings(settings) ==> aiSettings == old(aiSettings)
      ensures HasFocusSettings(settings) ==>
        var task := settings.value[FocusSettings.FocusSettingsKey].focus.defaultFocusTask;
        focusTask == task && requestClassification == (task != old(focusTask) && task != "" && |appStats| > 0)
      ensures !HasFocusSettings(settings) ==> focusTask == old(focusTask) && !requestClassification
      ensures Tracked() == old(Tracked()) && isSessionActive == old(isSessionActive)
      ensures sessionStartTime == old(sessionStartTime) && searchCount == old(searchCount)
      ensures logsCount == old(logsCount) && aiAnalysis == old(aiAnalysis)
      ensures appRelevance == old(appRelevance) && errorMessage == old(errorMessage)
    {
      requestClassification := false;
      if HasAiSettings(settings) {
        aiSettings := Some(settings.value[FocusSettings.AiSettingsKey].ai);
      }
      if HasFocusSettings(settings) {
        requestClassification := ChangeFocusTask(settings.value[FocusSettings.FocusSettingsKey].focus.defaultFocusTask);
      }
    }
  }

  /** `settings?.aiSettings` is present. */
  predicate HasAiSettings(settings: Option<map<string, FocusSettings.SettingValue>>) {
    settings.Some? && FocusSettings.AiSettingsKey in settings.value
    && settings.value[FocusSettings.AiSettingsKey].AiValue?
  }

  /** `settings?.focusSettings` is present. */
  predicate HasFocusSettings(settings: Option<map<string, FocusSettings.SettingValue>>) {
    settings.Some? && FocusSettings.FocusSettingsKey in settings.value
    && settings.value[FocusSettings.FocusSettingsKey].FocusValue?
  }

  /** Once loaded settings without custom values reach the page, the page
      carries the default AI settings and the default focus task. */
  lemma DefaultsReachPage(fetched: FocusSettings.AppSettings)
    requires fetched.focusThief.None?
    ensures var merged := Some(FocusSettings.Merge(fetched));
      HasAiSettings(merged) && HasFocusSettings(merged)
      && merged.value[FocusSettings.AiSettingsKey].ai == FocusSettings.AISettings("ollama", "llama3", "http://localhost:11434", "")
      && merged.value[FocusSettings.FocusSettingsKey].focus.defaultFocusTask == "coding"
  {
    FocusSettings.MergeWithoutCustom(fetched);
  }

  /** Two focus changes, the first from no application: "coding-ide" holds
      focus from 0 to 30 s, "chat-app" from 30 s to 45 s, and only
      "chat-app" is judged not relevant. */
  lemma WorkedExample()
    ensures var verdicts := [AnalyzeTask.AppRelevance("coding-ide", true, "editor"),
                             AnalyzeTask.AppRelevance("chat-app", false, "chat")];
      var t0 := Tracker(None, 0, 0, map[], 0, []);
      var t := FocusRun(t0, [Observation("coding-ide", 0), Observation("chat-app", 30000),
                             Observation("browser", 45000)], verdicts);
      t.appStats == map["coding-ide" := 30000, "chat-app" := 15000]
      && t.distractionScore == 15000
      && t.sessionLogs == [FocusLog(30000, "coding-ide", 30000), FocusLog(45000, "chat-app", 15000)]
  {
    var verdicts := [AnalyzeTask.AppRelevance("coding-ide", true, "editor"),
                     AnalyzeTask.AppRelevance("chat-app", false, "chat")];
    assert !IsDistracting(verdicts, "coding-ide");
    assert IsDistracting(verdicts, "chat-app");
    var t0 := Tracker(None, 0, 0, map[], 0, []);
    var t1 := Tracker(Some("coding-ide"), 0, 0, map[], 0, []);
    assert FocusStep(t0, "coding-ide", 0, verdicts) == t1;
    var t2 := Tracker(Some("chat-app"), 30000, 30000, map["coding-ide" := 30000], 0,
                      [FocusLog(30000, "coding-ide", 30000)]);
    assert StatsStep(t1, "coding-ide", 30000, 30000, verdicts).appStats == map["coding-ide" := 30000];
    assert FocusStep(t1, "chat-app", 30000, verdicts) == t2;
    var t3 := Tracker(Some("browser"), 45000, 45000, map["coding-ide" := 30000, "chat-app" := 15000], 15000,
                      [FocusLog(30000, "coding-ide", 30000), FocusLog(45000, "chat-app", 15000)]);
    assert StatsStep(t2, "chat-app", 15000, 45000, verdicts).appStats == map["coding-ide" := 30000, "chat-app" := 15000];
    assert FocusStep(t2, "browser", 45000, verdicts) == t3;
    var run := [Observation("coding-ide", 0), Observation("chat-app", 30000), Observation("browser", 45000)];
    assert run[1..][1..][1..] == [];
    assert FocusRun(t0, run, verdicts) == t3;
  }
}
