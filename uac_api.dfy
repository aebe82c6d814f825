/** The interface of the third-party `uac_api` SDK as the backend sees it.
    The SDK itself is not modelled: a controller is a pair of list calls,
    each of which either returns a response envelope or fails with the text
    of the exception it raised. */
module UacApi {
  import opened Wrappers

  /** One raw task as the SDK returns it: a dictionary whose values are
      strings or None (a missing key is simply not in the map). */
  type RawRecord = map<string, Option<string>>

  /** What a mapping response may hold under a key. */
  datatype Value =
    | Records(records: seq<RawRecord>)
    | Text(text: string)
    | Null

  /** A list-call response: a bare list of records, or a mapping. */
  datatype Envelope =
    | List(items: seq<RawRecord>)
    | Obj(fields: map<string, Value>)

  /** The filter payload of `tasks.list_tasks`. */
  type Payload = map<string, string>

  /** The outcome of one SDK call: an envelope, or the failure's message. */
  type Reply = Result<Envelope, string>

  /** A connected `UniversalController`, reduced to its two task-list calls. */
  datatype Controller = Controller(
    listTasks: Payload -> Reply,
    listTasksAdvanced: () -> Reply)

  /** The SDK constructor `UniversalController(base_url, token=...)`:
      a controller, or the message of the exception it raised. */
  type Connect = (string, string) -> Result<Controller, string>
}
