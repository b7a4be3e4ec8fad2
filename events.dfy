/** Events returned by the screen-capture query, and the choice of the
    most recent one.

    Both the dashboard's poller and the focus-metrics route sort the
    returned events by timestamp, newest first, with a comparator
    `bTime - aTime`, and take element 0. `Array.prototype.sort` is stable,
    so element 0 is the EARLIEST-listed event among those carrying the
    largest timestamp. `NewestIndex` selects exactly that event without
    reordering the list. */
module Events {
  import opened Wrappers

  /** One capture event: its timestamp (the ISO string already read as
      milliseconds) and its application-name property, when that property
      exists and holds a string. */
  datatype UiEvent = UiEvent(timestamp: int, appName: Option<string>)

  /** The position that a stable newest-first sort moves to the front. */
  function NewestIndex(events: seq<UiEvent>): (i: nat)
    requires |events| > 0
    ensures i < |events|
    ensures forall k :: 0 <= k < |events| ==> events[k].timestamp <= events[i].timestamp
    ensures forall k :: 0 <= k < i ==> events[k].timestamp < events[i].timestamp
    decreases |events|
  {
    if |events| == 1 then 0
    else
      var j := NewestIndex(events[..|events| - 1]);
      if events[|events| - 1].timestamp > events[j].timestamp then |events| - 1 else j
  }

  /** The two properties of NewestIndex single out one position: any
      position that is as new as every event and strictly newer than every
      earlier event is the one NewestIndex returns. */
  lemma NewestIndexUnique(events: seq<UiEvent>, i: nat)
    requires i < |events|
    requires forall k :: 0 <= k < |events| ==> events[k].timestamp <= events[i].timestamp
    requires forall k :: 0 <= k < i ==> events[k].timestamp < events[i].timestamp
    ensures NewestIndex(events) == i
  {
  }
}
