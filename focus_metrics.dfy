/** The focus-metrics route (`GET`): asks the capture service for the
    last hour of UI events and answers with the application of the newest
    one. The query itself is an input: it either throws or yields a
    response whose `data` list may be absent. Here an event's `appName`
    stands for the route's `app_name` property. */
module FocusMetrics {
  import opened Wrappers
  import opened Events

  /** What the awaited capture query produced. */
  datatype QueryOutcome = QueryThrew | QueryData(data: Option<seq<UiEvent>>)

  /** The JSON body and status the route answers with. */
  datatype CurrentAppResponse =
    | CurrentApp(currentApp: string)
    | NoEvents(message: string)
    | Failed(status: int, error: string)

  /** `GET`: the newest event's application name, `"unknown"` when that
      event carries none, a null application with a message when there are
      no events, and a 500 when the query throws. */
  function GetCurrentApp(q: QueryOutcome): (r: CurrentAppResponse)
    ensures q.QueryThrew? <==> r.Failed?
    ensures r.Failed? ==> r == Failed(500, "Failed to fetch current app")
    ensures q.QueryData? && (q.data.None? || q.data.value == []) <==> r.NoEvents?
    ensures r.NoEvents? ==> r.message == "No UI events found."
    ensures r.CurrentApp? ==>
      exists i :: 0 <= i < |q.data.value|
        && (forall k :: 0 <= k < |q.data.value| ==> q.data.value[k].timestamp <= q.data.value[i].timestamp)
        && (forall k :: 0 <= k < i ==> q.data.value[k].timestamp < q.data.value[i].timestamp)
        && r.currentApp == q.data.value[i].appName.GetOr("unknown")
  {
    match q
    case QueryThrew => Failed(500, "Failed to fetch current app")
    case QueryData(data) =>
      if data.None? || data.value == [] then NoEvents("No UI events found.")
      else
        var latest := data.value[NewestIndex(data.value)];
        CurrentApp(latest.appName.GetOr("unknown"))
  }

  /** The answered application is one of: an event's own name, `"unknown"`,
      or no application at all. */
  lemma AnswerIsObservedOrUnknown(q: QueryOutcome)
    requires q.QueryData?
    ensures var r := GetCurrentApp(q);
      r.NoEvents? ||
      (r.CurrentApp? && (r.currentApp == "unknown" ||
        exists e :: e in q.data.value && e.appName == Some(r.currentApp)))
  {
    var r := GetCurrentApp(q);
    if r.CurrentApp? && r.currentApp != "unknown" {
      var i := NewestIndex(q.data.value);
      assert q.data.value[i] in q.data.value;
    }
  }
}
