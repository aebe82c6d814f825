/** The task fetcher (backend/task_service.py): call one of the SDK's two
    list operations, normalise the response envelope, and map every raw
    record, in order, to a `TaskInfo`. The two public fetches share one
    normalise-and-map path and differ only in the SDK call and the mode
    named in their error message. */
module Tasks {
  import opened Wrappers
  import opened PyValues
  import opened UacApi
  import opened Models

  datatype Mode = Basic | Advanced

  function ModeName(mode: Mode): string {
    match mode
    case Basic => "basic"
    case Advanced => "advanced"
  }

  /** How a fetch fails. `Retrieve` is the RuntimeError raised when the SDK
      call fails; `Malformed` is the Python error raised, outside the
      try-block and so without a mode tag, when a mapping's "data" entry
      cannot be iterated as records. */
  datatype FetchError =
    | Retrieve(mode: Mode, cause: string)
    | Malformed(detail: string)

  function Message(e: FetchError): string {
    match e
    case Retrieve(mode, cause) => "Failed to retrieve tasks (" + ModeName(mode) + "): " + cause
    case Malformed(detail) => detail
  }

  /** The fixed filter that basic mode sends to `tasks.list_tasks`. */
  function BasicPayload(): Payload {
    map["name" := "*", "type" := "", "updatedTimeType" := "Offset", "updatedTime" := "-30d"]
  }

  /** `response if isinstance(response, list) else response.get("data", [])`,
      followed by the iteration of the loop: a list of records is iterated,
      an empty string iterates zero times, a non-empty string yields
      characters that have no `get`, and None is not iterable. */
  function RawTasks(response: Envelope): Result<seq<RawRecord>, FetchError> {
    match response
    case List(items) => Success(items)
    case Obj(fields) =>
      if "data" !in fields then Success([])
      else
        match fields["data"]
        case Records(rs) => Success(rs)
        case Text(s) =>
          if s == "" then Success([])
          else Failure(Malformed("'str' object has no attribute 'get'"))
        case Null => Failure(Malformed("'NoneType' object is not iterable"))
  }

  /** The body of the loop: one raw record to one `TaskInfo`. */
  function MapRecord(t: RawRecord): TaskInfo {
    TaskInfo(
      name := Get(t, "name"),
      description := Or(Get(t, "description"), Get(t, "summary")),
      agent := Get(t, "agent"),
      command := Get(t, "command"))
  }

  /** The loop as a whole: each record's `TaskInfo` appended after those of
      the records before it. */
  function MapRecords(raw: seq<RawRecord>): seq<TaskInfo> {
    if raw == [] then []
    else MapRecords(raw[..|raw| - 1]) + [MapRecord(raw[|raw| - 1])]
  }

  /** What a fetch in the given mode returns for the SDK's reply. */
  function FetchOutcome(mode: Mode, reply: Reply): Result<seq<TaskInfo>, FetchError> {
    match reply
    case Failure(cause) => Failure(Retrieve(mode, cause))
    case Success(response) =>
      match RawTasks(response)
      case Failure(e) => Failure(e)
      case Success(raw) => Success(MapRecords(raw))
  }

  /** The description rule of one record: a truthy `description` wins,
      whatever `summary` holds; otherwise `summary` is taken as it is (None
      when absent, and possibly ""); the result is truthy exactly when one
      of the two is. */
  lemma DescriptionRule(t: RawRecord)
    ensures Truthy(Get(t, "description")) ==>
      MapRecord(t).description == Get(t, "description")
    ensures !Truthy(Get(t, "description")) ==>
      MapRecord(t).description == Get(t, "summary")
    ensures !Truthy(Get(t, "description")) && "summary" !in t ==>
      MapRecord(t).description == None
    ensures Truthy(MapRecord(t).description) <==>
      Truthy(Get(t, "description")) || Truthy(Get(t, "summary"))
  {
  }

  /** `name`, `agent` and `command` are copied as they are, None when absent. */
  lemma CopiedFields(t: RawRecord)
    ensures MapRecord(t).name == (if "name" in t then t["name"] else None)
    ensures MapRecord(t).agent == (if "agent" in t then t["agent"] else None)
    ensures MapRecord(t).command == (if "command" in t then t["command"] else None)
  {
  }

  /** No record is dropped or added, and the i-th result is built from the
      i-th raw record. */
  lemma {:induction false} MapRecordsAt(raw: seq<RawRecord>)
    ensures |MapRecords(raw)| == |raw|
    ensures forall i :: 0 <= i < |raw| ==> MapRecords(raw)[i] == MapRecord(raw[i])
  {
    if raw != [] {
      MapRecordsAt(raw[..|raw| - 1]);
    }
  }

  /** Mapping distributes over concatenation: records are mapped
      independently of their neighbours. */
  lemma {:induction false} MapRecordsAppend(a: seq<RawRecord>, b: seq<RawRecord>)
    ensures MapRecords(a + b) == MapRecords(a) + MapRecords(b)
  {
    MapRecordsAt(a);
    MapRecordsAt(b);
    MapRecordsAt(a + b);
    assert |MapRecords(a + b)| == |MapRecords(a) + MapRecords(b)|;
    forall i | 0 <= i < |a + b|
      ensures MapRecords(a + b)[i] == (MapRecords(a) + MapRecords(b))[i]
    {
      if i >= |a| {
        assert (a + b)[i] == b[i - |a|];
      }
    }
  }

  /** A failed SDK call makes the fetch fail with the mode-tagged message
      and no records. */
  lemma FetchFailureTagged(mode: Mode, cause: string)
    ensures FetchOutcome(mode, Failure(cause)) == Failure(Retrieve(mode, cause))
    ensures Message(FetchOutcome(mode, Failure(cause)).error) ==
      (if mode == Basic then "Failed to retrieve tasks (basic): "
       else "Failed to retrieve tasks (advanced): ") + cause
  {
  }

  /** A successful call whose envelope normalises to `raw` yields one record
      per raw record, in the same order, each mapped by the fixed rule. */
  lemma FetchSuccess(mode: Mode, response: Envelope, raw: seq<RawRecord>)
    requires RawTasks(response) == Success(raw)
    ensures FetchOutcome(mode, Success(response)).Success?
    ensures |FetchOutcome(mode, Success(response)).value| == |raw|
    ensures forall i :: 0 <= i < |raw| ==>
      FetchOutcome(mode, Success(response)).value[i] == MapRecord(raw[i])
  {
    MapRecordsAt(raw);
  }

  /** A bare list and a mapping holding the same list under "data" give the
      same outcome; a mapping without "data" gives no records. */
  lemma EnvelopeShapesAgree(mode: Mode, rs: seq<RawRecord>, fields: map<string, Value>)
    ensures "data" in fields && fields["data"] == Records(rs) ==>
      FetchOutcome(mode, Success(Obj(fields))) == FetchOutcome(mode, Success(List(rs)))
    ensures "data" !in fields ==> FetchOutcome(mode, Success(Obj(fields))) == Success([])
  {
  }

  /** Basic and advanced mode treat the same reply identically: the same
      records (basic mode does not blank `agent` or `command`), and on an SDK
      failure the same cause under their own mode tag. */
  lemma ModesAgree(reply: Reply)
    ensures FetchOutcome(Basic, reply).Success? <==> FetchOutcome(Advanced, reply).Success?
    ensures FetchOutcome(Basic, reply).Success? ==>
      FetchOutcome(Basic, reply).value == FetchOutcome(Advanced, reply).value
    ensures reply.Failure? ==>
      FetchOutcome(Basic, reply).error.cause == FetchOutcome(Advanced, reply).error.cause
  {
  }

  /** A record carrying only a name and a summary, fetched in basic mode,
      keeps its name, takes the summary as description, and has no agent
      or command because it has none to copy. */
  lemma SummaryOnlyScenario()
    ensures FetchOutcome(Basic, Success(List([map["name" := Some("Job1"), "summary" := Some("nightly run")]])))
      == Success([TaskInfo(Some("Job1"), Some("nightly run"), None, None)])
  {
    var t: RawRecord := map["name" := Some("Job1"), "summary" := Some("nightly run")];
    assert "description" !in t && "agent" !in t && "command" !in t;
    assert MapRecord(t) == TaskInfo(Some("Job1"), Some("nightly run"), None, None);
    assert [t][..0] == [];
    assert MapRecords([t]) == [MapRecord(t)];
  }

  /** The shared loop: append one `TaskInfo` per raw record. */
  method CollectTasks(raw: seq<RawRecord>) returns (results: seq<TaskInfo>)
    ensures |results| == |raw|
    ensures forall i :: 0 <= i < |raw| ==> results[i] == MapRecord(raw[i])
    ensures results == MapRecords(raw)
  {
    results := [];
    for k := 0 to |raw|
      invariant results == MapRecords(raw[..k])
    {
      assert raw[..k + 1][..k] == raw[..k];
      results := results + [MapRecord(raw[k])];
    }
    assert raw[..|raw|] == raw;
    MapRecordsAt(raw);
  }

  /** The shared path after the SDK call: wrap a failure, normalise the
      envelope, run the loop. */
  method Complete(mode: Mode, reply: Reply) returns (r: Result<seq<TaskInfo>, FetchError>)
    ensures r == FetchOutcome(mode, reply)
  {
    if reply.Failure? {
      return Failure(Retrieve(mode, reply.error));
    }
    var raw := RawTasks(reply.value);
    if raw.Failure? {
      return Failure(raw.error);
    }
    var results := CollectTasks(raw.value);
    r := Success(results);
  }

  /** `TaskService`: holds the SDK controller it was built with. */
  class TaskService {
    const uac: Controller

    constructor(uac: Controller)
      ensures this.uac == uac
    {
      this.uac := uac;
    }

    /** `fetch_tasks_basic`: `list_tasks` with the fixed 30-day filter. */
    method FetchTasksBasic() returns (r: Result<seq<TaskInfo>, FetchError>)
      ensures r == FetchOutcome(Basic, uac.listTasks(BasicPayload()))
    {
      var reply := uac.listTasks(BasicPayload());
      r := Complete(Basic, reply);
    }

    /** `fetch_tasks_advanced`: `list_tasks_advanced` with no parameters. */
    method FetchTasksAdvanced() returns (r: Result<seq<TaskInfo>, FetchError>)
      ensures r == FetchOutcome(Advanced, uac.listTasksAdvanced())
    {
      var reply := uac.listTasksAdvanced();
      r := Complete(Advanced, reply);
    }
  }
}
