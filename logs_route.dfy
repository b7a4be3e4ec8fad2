/** The logs route: an append-only list of focus logs kept as one JSON
    array in a file. `POST` validates a log, reads the list (a missing file
    reads as the empty list), appends the log and writes the whole list
    back; `GET` returns the list. The file is a field of the store; reading
    and writing it are the field's value, and a failed write is an input. */
module LogsRoute {
  import opened Wrappers

  /** A JSON value in one of the two fields the validation inspects. */
  datatype FieldValue = Absent | Number(n: int) | Str(s: string) | OtherValue

  /** The parsed request body: a falsy value or a non-object, or an object
      seen through its `timestamp` and `app` properties; `rest` stands for
      whatever other properties it carries, stored along with it. */
  datatype LogBody = NotAnObject | LogObject(timestamp: FieldValue, app: FieldValue, rest: seq<(string, string)>)

  /** The state of the log file on disk. `Unreadable` covers every read
      failure other than a missing file, including content that does not
      parse. */
  datatype LogFile = Missing | Holds(logs: seq<LogBody>) | Unreadable

  /** The validation of `POST`: a present object whose `timestamp` is a
      number and whose `app` is a string. */
  predicate IsValidLog(body: LogBody) {
    body.LogObject? && body.timestamp.Number? && body.app.Str?
  }

  /** `getLogs`: the stored list, the empty list when the file is missing,
      or the read error. */
  function GetLogs(file: LogFile): (r: Result<seq<LogBody>, string>)
    ensures file.Missing? ==> r == Success([])
    ensures file.Holds? ==> r == Success(file.logs)
    ensures file.Unreadable? <==> r.Failure?
  {
    match file
    case Missing => Success([])
    case Holds(logs) => Success(logs)
    case Unreadable => Failure("Error reading logs file")
  }

  datatype PostResponse =
    | Saved(message: string, newLog: LogBody)
    | Rejected(status: int, error: string)
    | PostFailed(status: int, error: string)

  datatype GetResponse =
    | Logs(logs: seq<LogBody>)
    | GetFailed(status: int, error: string)

  const InvalidLogError := "Invalid log data. Expecting { timestamp: number, app: string }."

  class LogStore {
    var file: LogFile

    constructor (initial: LogFile)
      ensures file == initial
    {
      file := initial;
    }

    /** `POST /api/logs`. `body` is `None` when the request body is not
        JSON; `writeFails` says whether `fs.writeFile` throws. */
    method Post(body: Option<LogBody>, writeFails: bool) returns (r: PostResponse)
      modifies this
      ensures body.None? ==> r == PostFailed(500, "Failed to save log") && file == old(file)
      ensures body.Some? && !IsValidLog(body.value) ==>
        r == Rejected(400, InvalidLogError) && file == old(file)
      ensures body.Some? && IsValidLog(body.value) && old(file).Unreadable? ==>
        r == PostFailed(500, "Failed to save log") && file == old(file)
      ensures body.Some? && IsValidLog(body.value) && !old(file).Unreadable? && writeFails ==>
        r == PostFailed(500, "Failed to save log") && file == old(file)
      ensures body.Some? && IsValidLog(body.value) && !old(file).Unreadable? && !writeFails ==>
        r == Saved("Log saved successfully", body.value)
        && file == Holds(GetLogs(old(file)).value + [body.value])
    {
      if body.None? {
        return PostFailed(500, "Failed to save log");
      }
      var newLog := body.value;
      if !IsValidLog(newLog) {
        return Rejected(400, InvalidLogError);
      }
      var read := GetLogs(file);
      if read.Failure? {
        return PostFailed(500, "Failed to save log");
      }
      var logs := read.value;
      logs := logs + [newLog];
      if writeFails {
        return PostFailed(500, "Failed to save log");
      }
      file := Holds(logs);
      r := Saved("Log saved successfully", newLog);
    }

    /** `GET /api/logs`: the stored list, untouched. */
    method Get() returns (r: GetResponse)
      ensures file.Unreadable? <==> r.GetFailed?
      ensures r.GetFailed? ==> r == GetFailed(500, "Failed to retrieve logs")
      ensures file.Missing? ==> r == Logs([])
      ensures file.Holds? ==> r == Logs(file.logs)
    {
      var read := GetLogs(file);
      match read
      case Failure(_) => r := GetFailed(500, "Failed to retrieve logs");
      case Success(logs) => r := Logs(logs);
    }
  }
}
