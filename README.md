# FocusFade in Dafny

FocusFade is a focus-monitoring dashboard. It polls a screen-capture
service for the application in focus and credits the elapsed milliseconds
to per-application buckets. It asks a language model which applications
are relevant to the user's declared focus task. Time spent in applications
judged not relevant is added to a distraction score. The dashboard raises
notifications, and a flat log of focus events is kept in a JSON file.

This project models the deterministic core of that system:

- **`FocusPage`** (`focus_page.dfy`) models the dashboard page.
  - `FocusSession` is a class whose fields are the page's state and refs. Its methods are the page's handlers: session toggle, focus change, stats update, poll tick, distraction check, the completions of the two model-backed requests, task edits, and the settings effect.
  - Each handler is specified against pure step functions over a `Tracker` value (`StatsStep`, `FocusStep`, `PollStep`).
  - Lemmas about runs of those functions hold the properties of the page: how much is credited and logged, idle polls, the worked two-application example, and how `formatTime` renders.
- **`AnalyzeTask`** (`analyze_task.dfy`) models the task-relevance route. It turns a model's free-text answer into exactly one verdict per application: by JSON when a bracketed array parses and every lookup succeeds, by a textual heuristic otherwise. It also models the route's 400 and 500 answers.
- **`LogsRoute`** (`logs_route.dfy`) models the logs route. The log file is the state of a `LogStore` class: `POST` validates and appends, `GET` reads, and a missing file reads as the empty list.
- **`FocusMetrics`** (`focus_metrics.dfy`) models the focus-metrics route, which reports the application of the newest UI event.
- **`FocusSettings`** (`focus_settings.dfy`) models the settings hook: defaults, shallowly overridden by custom settings, with the application settings attached.
- **`Events`** holds the newest-event selection that the page and the metrics route share.
- **`Text`** holds ASCII lower-casing, substring search, and decimal rendering and parsing.
- **`Wrappers`** holds `Option` and `Result`.

The clock, the capture service, the language model, `JSON.parse` and the
file system are inputs: a parameter `now`, a query outcome, the model's
answer as a `Result`, a parse function, and a flag for a failed write. No
handler starts a request itself. Each returns a value saying which request
the page would send (a classification, an activity analysis, a
notification).

Three behaviours of the page are easy to misread:

- The distraction score grows only for an application whose first verdict exists and says "not relevant". An application with no verdict adds nothing.
- A logged focus duration is the raw `now - start`. Only the bucket credit is clamped to `[0, now - lastStatsUpdate]`.
- Starting a session does not reset the current application or its timestamps. The first focus change of a new session can therefore log time from before the session.

## Model

| member | source | states |
|---|---|---|
| Events.NewestIndex | app/page.tsx:300-306 | the event a stable newest-first sort puts first: as new as every event, strictly newer than every earlier-listed one |
| Events.NewestIndexUnique | app/api/focus-metrics/route.ts:19-26 | those two properties single out one position, so the choice is fully determined |
| FocusMetrics.GetCurrentApp | app/api/focus-metrics/route.ts:17-39 | 500 exactly when the query throws; the "No UI events found." message exactly when data is absent or empty; otherwise the newest event's app name, or "unknown" when it has none |
| FocusMetrics.AnswerIsObservedOrUnknown | app/api/focus-metrics/route.ts:28-35 | the answered app is an observed event's name, "unknown", or absent |
| Text.Lower | app/api/analyze-task/route.ts:83 | lower-casing keeps the length and maps each character |
| Text.ContainsIff | app/api/analyze-task/route.ts:108 | `includes` holds exactly when the needle occurs at some position |
| Text.IntRoundTrip | app/page.tsx:231 | a rendered integer reads back as itself |
| AnalyzeTask.ExtractArraySpec | app/api/analyze-task/route.ts:75-77 | the bracket match exists iff some `[` precedes some `]`, and it is the span from the first `[` to the last `]` |
| AnalyzeTask.ExtractArrayBrackets | app/api/analyze-task/route.ts:75-77 | the extracted text starts with `[` and ends with `]` |
| AnalyzeTask.FindEntrySpec | app/api/analyze-task/route.ts:82-84 | the lookup returns the first case-insensitive match, misses only when every entry has a non-matching string app, and throws exactly at the first entry without a string app that it reaches |
| AnalyzeTask.VerdictFor | app/api/analyze-task/route.ts:86-98 | a found entry gives its truthiness and its reason, or "No reason provided"; a miss gives not relevant, "Not analyzed by AI" |
| AnalyzeTask.JsonVerdictsSpec | app/api/analyze-task/route.ts:81-99 | the JSON path fails iff some lookup throws; otherwise one verdict per app, in order, each from its own lookup |
| AnalyzeTask.FallbackVerdicts | app/api/analyze-task/route.ts:106-110 | one verdict per app; relevant iff the lower-cased answer contains the lower-cased name followed by " relevant"; the fallback reason |
| AnalyzeTask.FallbackIgnoresCase | app/api/analyze-task/route.ts:108 | the heuristic is a case-insensitive phrase search |
| AnalyzeTask.Normalise | app/api/analyze-task/route.ts:71-111 | exactly one verdict per requested app, in order and named after it; the fallback whenever the JSON path is not taken |
| AnalyzeTask.NormaliseJsonPath | app/api/analyze-task/route.ts:81-99 | on the JSON path each app gets the verdict of its own lookup |
| AnalyzeTask.NoBracketsFallsBack | app/api/analyze-task/route.ts:100-102 | an answer without `[` always falls back |
| AnalyzeTask.SelectBackend | app/api/analyze-task/route.ts:38-61 | ollama and native-ollama use the Ollama client; any other provider posts to the configured URL with the key |
| AnalyzeTask.AnalyzeTaskApps | app/api/analyze-task/route.ts:63-65 | a failed model call is rethrown unchanged; an answer yields exactly the normalised verdicts, one per app |
| AnalyzeTask.Post | app/api/analyze-task/route.ts:120-146 | 400 "Missing task or apps" iff task or apps is falsy; 500 when settings, body, prompt (apps not an array) or model throw; otherwise exactly the normalised verdicts for the requested apps |
| LogsRoute.GetLogs | app/api/logs/route.ts:12-24 | a missing file reads as the empty list, a stored list as itself, and every other read failure is an error |
| LogsRoute.LogStore.Post | app/api/logs/route.ts:42-67 | invalid data answers 400 and a bad body, read error or write error answers 500, each leaving the file unchanged; success appends exactly the new log |
| LogsRoute.LogStore.Get | app/api/logs/route.ts:72-80 | the stored list, the empty list when the file is missing, 500 when it cannot be read |
| FocusSettings.Merge | lib/hooks/use-focus-settings.tsx:34-40 | the merged keys are the defaults', the custom settings' and the app-settings key |
| FocusSettings.MergeSpec | lib/hooks/use-focus-settings.tsx:36-40 | a custom key replaces the default wholesale; a missing one keeps the default; the app settings always sit under their own key |
| FocusSettings.MergeWithoutCustom | lib/hooks/use-focus-settings.tsx:34 | without custom settings the result is the defaults plus the app settings |
| FocusSettings.DefaultValues | lib/hooks/use-focus-settings.tsx:8-20 | the default task "coding", poll 5000 ms, threshold 120000 ms, and the ollama/llama3 AI defaults |
| FocusSettings.FocusSettingsHook.constructor | lib/hooks/use-focus-settings.tsx:23-24 | no settings yet, loading |
| FocusSettings.FocusSettingsHook.LoadSettings | lib/hooks/use-focus-settings.tsx:30-46 | a successful fetch stores the merge, a failed one keeps the settings, and loading ends either way |
| FocusPage.IsDistractingSpec | app/page.tsx:219-222 | an app is a distraction iff the first verdict with its exact name says not relevant |
| FocusPage.Credit | app/page.tsx:211 | the credit is non-negative, at most the time spent and at most the time since the last update, and exactly the time spent when that lies in range |
| FocusPage.StatsStep | app/page.tsx:208-225 | only the app's bucket changes, by exactly the credit; the score grows by the credit iff the app is a distraction; the last update becomes now |
| FocusPage.StatsStepTotal | app/page.tsx:213-221 | the bucket total grows by exactly the credit, and buckets stay non-negative with the score within the total |
| FocusPage.StatsStepScore | app/page.tsx:213-222 | one credit grows the score by exactly what it adds to the buckets of distracting apps |
| FocusPage.FocusStep | app/page.tsx:130-143 | a truthy current app is credited and logged once with its raw duration; an empty or absent one is neither; the new app is current from now |
| FocusPage.FocusStepInvariant | app/page.tsx:130-143 | a focus change keeps buckets non-negative and the score within their total |
| FocusPage.PollStep | app/page.tsx:306-311 | nothing changes unless the newest event names a different app; then the poll is exactly the focus change to it, crediting and logging the previous app |
| FocusPage.RepeatedPollIsIdle | app/page.tsx:309-311 | a second poll whose newest event names the same app changes nothing |
| FocusPage.FocusStepBounds | app/page.tsx:130-143 | one change credits at most the time since the last update, scores at most what it credits, and logs at most the time since focus was gained |
| FocusPage.FocusRunBounds | app/page.tsx:130-143 | over any run with a non-decreasing clock: the total credited is bounded by the elapsed stats time, the score gain by the credit, and the logged durations by the elapsed focus time |
| FocusPage.FocusRunScore | app/page.tsx:130-143 | over any run against fixed verdicts, the score grows by exactly the time credited to distracting apps |
| FocusPage.FreshSessionScore | app/page.tsx:85-86 | from empty buckets and a zero score, the score equals the total of the distracting apps' buckets |
| FocusPage.SessionDurationsBound | app/page.tsx:130-140 | starting with no app in focus, logged durations add up to at most the time from the first observation to the last |
| FocusPage.WorkedExample | app/page.tsx:130-143 | coding-ide for 30 s then chat-app for 15 s, with chat-app not relevant, gives buckets 30000/15000 and score 15000 |
| FocusPage.JsRemainder | app/page.tsx:230 | JavaScript `%`: the remainder takes the sign of the dividend |
| FocusPage.FormatTimeFields | app/page.tsx:228-232 | for non-negative ms the fields are whole minutes and 0-59 leftover seconds; negative ms show seconds from -60 to 0 |
| FocusPage.FormatTimeRoundTrip | app/page.tsx:228-232 | the rendering `<m>m <s>s` reads back to the same minutes and seconds |
| FocusPage.DistractionAlert | app/page.tsx:159-163 | an alert iff a truthy current app differs from the focus task |
| FocusPage.AnalysisAlert | app/page.tsx:197-200 | a notification iff the lower-cased analysis contains both "high" and "distraction", quoting at most its first 100 characters |
| FocusPage.DefaultsReachPage | app/page.tsx:350-357 | with no custom settings the page receives the default AI settings and the task "coding" |
| FocusPage.FocusSession.constructor | app/page.tsx:49-79 | the mounted page: no session, no app, empty stats, task "coding", both timestamps now |
| FocusPage.FocusSession.ToggleSession | app/page.tsx:81-97 | starting resets buckets, score, log count, analysis and session log and stamps the start; stopping clears the start; the current app is untouched |
| FocusPage.FocusSession.UpdateAppStats | app/page.tsx:208-225 | the new state is `StatsStep` of the old one, and the invariant holds |
| FocusPage.FocusSession.UpdateFocus | app/page.tsx:130-149 | the new state is `FocusStep` of the old one; a classification is requested iff the task is non-empty and the buckets before the change were non-empty |
| FocusPage.FocusSession.PollTick | app/page.tsx:270-320 | an inactive session or an empty poll changes nothing; a thrown query sets "Error polling OCR events"; a batch bumps the counter, goes to the activity analysis on every tenth poll once the AI settings are loaded, and applies `PollStep` |
| FocusPage.FocusSession.CheckForDistractions | app/page.tsx:159-163 | changes nothing and raises the distraction alert iff a truthy current app differs from the task |
| FocusPage.FocusSession.ReceiveVerdicts | app/page.tsx:258-265 | verdicts replace the old ones wholesale; a failure only sets "Failed to analyze task relevance" |
| FocusPage.FocusSession.ReceiveActivityAnalysis | app/page.tsx:190-204 | the analysis is stored and `AnalysisAlert` decides the notification; a failure sets "Failed to analyze activities" |
| FocusPage.FocusSession.ChangeFocusTask | app/page.tsx:360-369 | the task is stored; a classification is requested iff it changed, is non-empty and some bucket exists |
| FocusPage.FocusSession.ApplySettings | app/page.tsx:350-357 | loaded AI settings are copied; a loaded focus block sets the default task, as an edit would |

## Left out

- The prompts, the language-model calls, the Ollama SDK and `fetch`: these are inputs. The model's answer or error is a `Result`, and the chosen backend is only described by `AnalyzeTask.SelectBackend`.
- The activity-analysis route (`app/api/analyze-activity/route.ts`) is not part of this model. The page hands it a batch, and its answer comes back to `ReceiveActivityAnalysis`.
- The capture SDK's query, its ISO timestamps and `new Date(...).getTime()`: events carry integer milliseconds. An unparsable timestamp (NaN in the comparator) is not modelled.
- `JSON.parse` is an abstract function from the extracted text to entries. Entries are seen only through `app`, the truthiness of `isRelevant` and `reason`.
- `LogsRoute`: file content that parses to a non-array is treated as unreadable. A partially written file is not modelled; a failed write leaves the file as it was.
- `toLowerCase` is modelled for ASCII letters only.
- JavaScript strings are UTF-16, but the model works on characters, so `slice(0, 100)` counts characters.
- React's asynchronous state updates, effect scheduling and stale closures: each handler runs as one atomic step.
- `FocusPage.FocusSession.UpdateFocus` reads `Date.now()` once where the source reads it twice (in `updateFocus` and in `updateAppStats`).
- `FocusPage.FocusSession.PollTick` returns the raw batch where the source builds `Activity` objects with text and window names.
- A poll whose query is still in flight when the session stops is not modelled.
- `sendLog` and `fetchLogs` are never called by the page, so `logsCount` stays as the handlers set it.
- `sendNotification` and the Notification permission request: notifications are returned as strings.
- The 2-minute interval that calls `checkForDistractions` and the 5-second poll interval are not modelled. Each tick is one method call.
- `Math.round` is the identity on the model's integer milliseconds. Fractional values, such as the dashboard's percentage bars, are not modelled.
- `FocusPage.FocusSession.ApplySettings` only recognises a record value under `aiSettings` and `focusSettings`. A custom setting of another shape under those keys is treated as absent.
- `FocusMetrics.GetCurrentApp` reads the event's `app_name` as an optional string. A present but non-string `app_name` is not modelled.
- The page's rendering and layout are not modelled.
- `AnalyzeTask.Post` covers a truthy `apps` that is not an array, which answers 500. An array holding non-strings is not modelled: there the outcome depends on which path calls `toLowerCase` on an element.
- `appStats` is a plain JavaScript object, but the model uses a map. An app named after an inherited property (`constructor`, `toString`, `__proto__`) would read an inherited value in `prev[app] || 0` and its bucket would become NaN. The model does not capture this.
- `LogsRoute.LogStore.Post` runs atomically. Two overlapping requests that both read the old list, where the later write drops the earlier append, are not modelled.
