/** The task-relevance route: turns a language model's free-text answer
    into exactly one verdict per requested application.

    The model call is an input (its text, or the error it threw), and so is
    `JSON.parse`: a function from the extracted text to the list of entries
    it holds, or `None` when parsing throws or yields something that is not
    an array. */
module AnalyzeTask {
  import opened Wrappers
  import opened Text

  /** One element of the model's JSON array, seen through the accesses the
      route makes: `app` (a string, or `None` when missing or not a string,
      in which case `a.app.toLowerCase()` throws), the truthiness of
      `isRelevant`, and `reason` (`None` when missing or falsy). */
  datatype RawEntry = RawEntry(app: Option<string>, isRelevant: bool, reason: Option<string>)

  /** The normalised verdict for one application. */
  datatype AppRelevance = AppRelevance(appName: string, isRelevant: bool, reason: string)

  const NoReason := "No reason provided"
  const NotAnalyzed := "Not analyzed by AI"
  const FallbackReason := "Parsing error - using fallback analysis"

  // ---------------------------------------------------------------------
  // Extracting the bracketed array
  // ---------------------------------------------------------------------

  /** The match of `/\[[\s\S]*\]/`: from the first `[` to the last `]`,
      both included, provided that `]` comes after that `[`. */
  function ExtractArray(s: string): Option<string> {
    match (IndexOf(s, '['), LastIndexOf(s, ']'))
    case (Some(i), Some(j)) => if i < j then Some(s[i..j + 1]) else None
    case _ => None
  }

  /** The extraction succeeds exactly when some `[` precedes some `]`, and
      then it is the slice between the first `[` and the last `]`. */
  lemma ExtractArraySpec(s: string)
    ensures ExtractArray(s).Some? <==>
      exists i, j :: 0 <= i < j < |s| && s[i] == '[' && s[j] == ']'
    ensures ExtractArray(s).Some? ==>
      exists i, j :: 0 <= i < j < |s| && s[i] == '[' && s[j] == ']'
        && (forall k :: 0 <= k < i ==> s[k] != '[')
        && (forall k :: j < k < |s| ==> s[k] != ']')
        && ExtractArray(s).value == s[i..j + 1]
  {
    if exists i, j :: 0 <= i < j < |s| && s[i] == '[' && s[j] == ']' {
      var i, j :| 0 <= i < j < |s| && s[i] == '[' && s[j] == ']';
      var fi := IndexOf(s, '[');
      var lj := LastIndexOf(s, ']');
      assert fi.Some? && fi.value <= i;
      assert lj.Some? && j <= lj.value;
    }
  }

  /** The extracted text starts with `[` and ends with `]`. */
  lemma ExtractArrayBrackets(s: string)
    requires ExtractArray(s).Some?
    ensures var t := ExtractArray(s).value; |t| >= 2 && t[0] == '[' && t[|t| - 1] == ']'
  {
  }

  // ---------------------------------------------------------------------
  // Matching entries to applications
  // ---------------------------------------------------------------------

  /** What `rawAnalysis.find(a => a.app.toLowerCase() === app.toLowerCase())`
      does: returns the first matching entry, returns nothing, or throws
      on the first entry without a string `app` that it reaches. */
  datatype Lookup = Hit(entry: RawEntry) | Miss | Throws

  predicate Matches(e: RawEntry, app: string) {
    e.app.Some? && Lower(e.app.value) == Lower(app)
  }

  function FindEntry(entries: seq<RawEntry>, app: string): Lookup
    decreases |entries|
  {
    if entries == [] then Miss
    else if entries[0].app.None? then Throws
    else if Matches(entries[0], app) then Hit(entries[0])
    else FindEntry(entries[1..], app)
  }

  /** Every entry before position k has a string `app` that does not match. */
  predicate PassedOver(entries: seq<RawEntry>, app: string, k: int)
    requires 0 <= k <= |entries|
  {
    forall m :: 0 <= m < k ==> entries[m].app.Some? && !Matches(entries[m], app)
  }

  /** The search stops at the first entry that matches or has no string
      `app`; it misses only when it passes over every entry. */
  lemma {:induction false} FindEntrySpec(entries: seq<RawEntry>, app: string)
    ensures FindEntry(entries, app).Miss? <==> PassedOver(entries, app, |entries|)
    ensures FindEntry(entries, app).Hit? <==>
      exists k :: 0 <= k < |entries| && PassedOver(entries, app, k) && Matches(entries[k], app)
    ensures FindEntry(entries, app).Hit? ==>
      exists k :: 0 <= k < |entries| && PassedOver(entries, app, k)
        && Matches(entries[k], app) && FindEntry(entries, app).entry == entries[k]
    ensures FindEntry(entries, app).Throws? <==>
      exists k :: 0 <= k < |entries| && PassedOver(entries, app, k) && entries[k].app.None?
    decreases |entries|
  {
    if entries != [] && entries[0].app.Some? && !Matches(entries[0], app) {
      var rest := entries[1..];
      FindEntrySpec(rest, app);
      forall k | 0 <= k < |entries|
        ensures PassedOver(entries, app, k + 1) <==> PassedOver(rest, app, k)
      {
        if PassedOver(rest, app, k) {
          forall m | 0 <= m < k + 1
            ensures entries[m].app.Some? && !Matches(entries[m], app)
          {
            if m > 0 { assert entries[m] == rest[m - 1]; }
          }
        }
        if PassedOver(entries, app, k + 1) {
          forall m | 0 <= m < k
            ensures rest[m].app.Some? && !Matches(rest[m], app)
          {
            assert rest[m] == entries[m + 1];
          }
        }
      }
      assert PassedOver(entries, app, |entries|) <==> PassedOver(rest, app, |rest|);
      if FindEntry(rest, app).Hit? {
        var k :| 0 <= k < |rest| && PassedOver(rest, app, k) && Matches(rest[k], app)
          && FindEntry(rest, app).entry == rest[k];
        assert PassedOver(entries, app, k + 1) && entries[k + 1] == rest[k];
      }
      if exists k :: 0 <= k < |entries| && PassedOver(entries, app, k) && Matches(entries[k], app) {
        var k :| 0 <= k < |entries| && PassedOver(entries, app, k) && Matches(entries[k], app);
        assert k > 0;
        assert PassedOver(rest, app, k - 1) && rest[k - 1] == entries[k];
      }
      if FindEntry(rest, app).Throws? {
        var k :| 0 <= k < |rest| && PassedOver(rest, app, k) && rest[k].app.None?;
        assert PassedOver(entries, app, k + 1) && entries[k + 1] == rest[k];
      }
      if exists k :: 0 <= k < |entries| && PassedOver(entries, app, k) && entries[k].app.None? {
        var k :| 0 <= k < |entries| && PassedOver(entries, app, k) && entries[k].app.None?;
        assert k > 0;
        assert PassedOver(rest, app, k - 1) && rest[k - 1] == entries[k];
      }
    } else if entries != [] {
      assert PassedOver(entries, app, 0);
      assert !PassedOver(entries, app, |entries|);
    }
  }

  /** The verdict for one application when its lookup did not throw. */
  function VerdictFor(app: string, found: Lookup): (v: AppRelevance)
    requires !found.Throws?
    ensures v.appName == app
    ensures found.Miss? ==> !v.isRelevant && v.reason == NotAnalyzed
    ensures found.Hit? ==> v.isRelevant == found.entry.isRelevant
    ensures found.Hit? && found.entry.reason.Some? && found.entry.reason.value != "" ==>
      v.reason == found.entry.reason.value
    ensures found.Hit? && (found.entry.reason.None? || found.entry.reason.value == "") ==>
      v.reason == NoReason
  {
    match found
    case Hit(e) =>
      AppRelevance(app, e.isRelevant,
        if e.reason.Some? && e.reason.value != "" then e.reason.value else NoReason)
    case Miss => AppRelevance(app, false, NotAnalyzed)
  }

  /** `apps.map(...)` on the JSON path: `None` when some lookup throws,
      which abandons the whole map. */
  function JsonVerdicts(apps: seq<string>, entries: seq<RawEntry>): Option<seq<AppRelevance>>
    decreases |apps|
  {
    if apps == [] then Some([])
    else
      var found := FindEntry(entries, apps[0]);
      if found.Throws? then None
      else match JsonVerdicts(apps[1..], entries)
        case None => None
        case Some(rest) => Some([VerdictFor(apps[0], found)] + rest)
  }

  /** The JSON path yields verdicts exactly when no lookup throws, and then
      one verdict per application, in order, each the one its own lookup
      determines. */
  lemma {:induction false} JsonVerdictsSpec(apps: seq<string>, entries: seq<RawEntry>)
    ensures JsonVerdicts(apps, entries).None? <==>
      exists i :: 0 <= i < |apps| && FindEntry(entries, apps[i]).Throws?
    ensures JsonVerdicts(apps, entries).Some? ==>
      var v := JsonVerdicts(apps, entries).value;
      |v| == |apps| &&
      forall i :: 0 <= i < |apps| ==> v[i] == VerdictFor(apps[i], FindEntry(entries, apps[i]))
    decreases |apps|
  {
    if apps != [] {
      JsonVerdictsSpec(apps[1..], entries);
      if exists i :: 0 <= i < |apps[1..]| && FindEntry(entries, apps[1..][i]).Throws? {
        var i :| 0 <= i < |apps[1..]| && FindEntry(entries, apps[1..][i]).Throws?;
        assert FindEntry(entries, apps[i + 1]).Throws?;
      }
      if exists i :: 0 <= i < |apps| && FindEntry(entries, apps[i]).Throws? {
        var i :| 0 <= i < |apps| && FindEntry(entries, apps[i]).Throws?;
        if i > 0 { assert apps[1..][i - 1] == apps[i]; }
      }
      if JsonVerdicts(apps, entries).Some? {
        var v := JsonVerdicts(apps, entries).value;
        forall i | 0 <= i < |apps|
          ensures v[i] == VerdictFor(apps[i], FindEntry(entries, apps[i]))
        {
          if i > 0 { assert apps[1..][i - 1] == apps[i]; }
        }
      }
    }
  }

  // ---------------------------------------------------------------------
  // The fallback heuristic
  // ---------------------------------------------------------------------

  /** The fallback verdict: relevant exactly when the lower-cased answer
      contains the lower-cased name followed by " relevant". */
  function FallbackVerdicts(apps: seq<string>, response: string): (v: seq<AppRelevance>)
    ensures |v| == |apps|
    ensures forall i :: 0 <= i < |apps| ==>
      v[i].appName == apps[i] && v[i].reason == FallbackReason &&
      (v[i].isRelevant <==> Contains(Lower(response), Lower(apps[i]) + " relevant"))
    decreases |apps|
  {
    if apps == [] then []
    else
      [AppRelevance(apps[0], Contains(Lower(response), Lower(apps[0]) + " relevant"), FallbackReason)]
      + FallbackVerdicts(apps[1..], response)
  }

  /** Case does not matter to the heuristic: it looks for the whole phrase
      "<app> relevant" in the answer, ignoring case. */
  lemma FallbackIgnoresCase(app: string, response: string)
    ensures Contains(Lower(response), Lower(app) + " relevant") <==>
      exists i :: OccursAt(Lower(response), Lower(app + " relevant"), i)
  {
    LowerAppend(app, " relevant");
    assert Lower(" relevant") == " relevant";
    ContainsIff(Lower(response), Lower(app) + " relevant");
  }

  // ---------------------------------------------------------------------
  // The normalisation and the route
  // ---------------------------------------------------------------------

  /** Which of the two paths the normalisation takes. */
  function UsesJsonPath(apps: seq<string>, response: string,
                        parse: string -> Option<seq<RawEntry>>): bool
  {
    match ExtractArray(response)
    case None => false
    case Some(text) =>
      match parse(text)
      case None => false
      case Some(entries) => JsonVerdicts(apps, entries).Some?
  }

  /** The block of `analyzeTaskApps` after the model has answered. */
  function Normalise(apps: seq<string>, response: string,
                     parse: string -> Option<seq<RawEntry>>): (v: seq<AppRelevance>)
    ensures |v| == |apps|
    ensures forall i :: 0 <= i < |apps| ==> v[i].appName == apps[i]
    ensures !UsesJsonPath(apps, response, parse) ==> v == FallbackVerdicts(apps, response)
  {
    match ExtractArray(response)
    case None => FallbackVerdicts(apps, response)
    case Some(text) =>
      match parse(text)
      case None => FallbackVerdicts(apps, response)
      case Some(entries) =>
        match JsonVerdicts(apps, entries)
        case None => FallbackVerdicts(apps, response)
        case Some(v) => JsonVerdictsSpec(apps, entries); v
  }

  /** On the JSON path every application gets the verdict of the first
      entry naming it case-insensitively, or the "not analyzed" default. */
  lemma NormaliseJsonPath(apps: seq<string>, response: string,
                          parse: string -> Option<seq<RawEntry>>, i: nat)
    requires UsesJsonPath(apps, response, parse)
    requires i < |apps|
    ensures var entries := parse(ExtractArray(response).value).value;
      var found := FindEntry(entries, apps[i]);
      !found.Throws? && Normalise(apps, response, parse)[i] == VerdictFor(apps[i], found)
  {
    var entries := parse(ExtractArray(response).value).value;
    JsonVerdictsSpec(apps, entries);
  }

  /** A model answer without any `[` ... `]` always falls back, whatever
      JSON.parse would have done. */
  lemma NoBracketsFallsBack(apps: seq<string>, response: string,
                            parse: string -> Option<seq<RawEntry>>)
    requires forall k :: 0 <= k < |response| ==> response[k] != '['
    ensures Normalise(apps, response, parse) == FallbackVerdicts(apps, response)
  {
    ExtractArraySpec(response);
  }

  /** How the model is reached: the SDK's Ollama client, or a bearer-
      authenticated chat-completion POST to a URL. */
  datatype Backend = OllamaClient(model: string) | ChatCompletion(url: string, model: string, apiKey: string)

  datatype UserSettings = UserSettings(aiProviderType: string, aiModel: string, aiUrl: string, apiKey: string)

  /** `native-ollama` rewrites the URL to the local generate endpoint, but
      it and `ollama` both go through the Ollama client, which never reads
      the URL; every other provider type posts to the configured URL. */
  function SelectBackend(s: UserSettings): (b: Backend)
    ensures b.OllamaClient? <==> s.aiProviderType == "ollama" || s.aiProviderType == "native-ollama"
    ensures b.model == s.aiModel
    ensures b.ChatCompletion? ==> b.url == s.aiUrl && b.apiKey == s.apiKey
  {
    var url := if s.aiProviderType == "native-ollama" then "http://localhost:11434/api/generate" else s.aiUrl;
    if s.aiProviderType == "ollama" || s.aiProviderType == "native-ollama" then OllamaClient(s.aiModel)
    else ChatCompletion(url, s.aiModel, s.apiKey)
  }

  /** `analyzeTaskApps`: a failed model call is rethrown, never turned into
      verdicts; an answer is normalised. */
  function AnalyzeTaskApps(apps: seq<string>, answer: Result<string, string>,
                           parse: string -> Option<seq<RawEntry>>): (r: Result<seq<AppRelevance>, string>)
    ensures answer.Failure? ==> r == Failure(answer.error)
    ensures answer.Success? ==>
      (r.Success? && |r.value| == |apps|
       && forall i :: 0 <= i < |apps| ==> r.value[i].appName == apps[i])
    ensures answer.Success? ==> r == Success(Normalise(apps, answer.value, parse))
  {
    match answer
    case Failure(e) => Failure(e)
    case Success(text) => Success(Normalise(apps, text, parse))
  }

  /** The `apps` property of the request body: falsy (missing, null, ...),
      an array of application names, or a truthy value that is not an
      array, on which building the prompt throws. */
  datatype AppsField = AppsFalsy | AppNames(names: seq<string>) | NotAnArray

  /** The request body after `request.json()`: the truthiness of `task`
      (its value only goes into the prompt) and the `apps` property. */
  datatype TaskRequest = TaskRequest(taskTruthy: bool, apps: AppsField)

  datatype TaskResponse =
    | Analysis(analysis: seq<AppRelevance>)
    | BadRequest(status: int, error: string)
    | ServerError(status: int, error: string)

  /** `POST`: the settings are fetched first; then a falsy `task` or a
      falsy `apps` answers 400 without any analysis; any thrown error
      (settings, body, prompt, model) answers 500. An empty `apps` array is
      truthy and is analysed. */
  function Post(settingsLoaded: bool, body: Option<TaskRequest>, answer: Result<string, string>,
                parse: string -> Option<seq<RawEntry>>): (r: TaskResponse)
    ensures !settingsLoaded || body.None? ==> r == ServerError(500, "Failed to analyze task relevance")
    ensures settingsLoaded && body.Some? ==>
      ((!body.value.taskTruthy || body.value.apps.AppsFalsy?) <==> r.BadRequest?)
    ensures r.BadRequest? ==> r == BadRequest(400, "Missing task or apps")
    ensures settingsLoaded && body.Some? && !r.BadRequest? && (body.value.apps.NotAnArray? || answer.Failure?) ==>
      r == ServerError(500, "Failed to analyze task relevance")
    ensures settingsLoaded && body.Some? && !r.BadRequest? && body.value.apps.AppNames? && answer.Success? ==>
      r == Analysis(Normalise(body.value.apps.names, answer.value, parse))
    ensures r.Analysis? ==>
      (settingsLoaded && body.Some? && body.value.apps.AppNames? && answer.Success?
       && |r.analysis| == |body.value.apps.names|
       && forall i :: 0 <= i < |r.analysis| ==> r.analysis[i].appName == body.value.apps.names[i])
  {
    if !settingsLoaded || body.None? then ServerError(500, "Failed to analyze task relevance")
    else
      var req := body.value;
      if !req.taskTruthy || req.apps.AppsFalsy? then
        BadRequest(400, "Missing task or apps")
      else if req.apps.NotAnArray? then
        ServerError(500, "Failed to analyze task relevance")
      else
        match AnalyzeTaskApps(req.apps.names, answer, parse)
        case Success(v) => Analysis(v)
        case Failure(_) => ServerError(500, "Failed to analyze task relevance")
  }
}
