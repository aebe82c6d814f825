/** The task record the service layer builds and the wire schema the
    endpoints serialise (backend/models.py). */
module Models {
  import opened Wrappers

  /** The service-layer record. Its `name` is annotated `str` but the
      dataclass does not enforce it, and the mapping can store None there. */
  datatype TaskInfo = TaskInfo(
    name: Option<string>,
    description: Option<string>,
    agent: Option<string>,
    command: Option<string>)

  /** The response schema: `name` is a required string, the other three
      fields are optional and default to None. */
  datatype TaskInfoSchema = TaskInfoSchema(
    name: string,
    description: Option<string> := None,
    agent: Option<string> := None,
    command: Option<string> := None)

  /** Why the schema refuses a record: `name` is not a string. */
  datatype SchemaError = NameNotString

  /** The schema read back as a service-layer record, field for field. */
  function AsTaskInfo(s: TaskInfoSchema): TaskInfo {
    TaskInfo(Some(s.name), s.description, s.agent, s.command)
  }

  /** `TaskInfoSchema.from_task_info`: copy the four fields; schema
      validation rejects a record whose name is None. */
  function FromTaskInfo(task: TaskInfo): (r: Result<TaskInfoSchema, SchemaError>)
    ensures r.Success? <==> task.name.Some?
    ensures r.Success? ==> AsTaskInfo(r.value) == task
    ensures r.Failure? ==> r.error == NameNotString
  {
    match task.name
    case None => Failure(NameNotString)
    case Some(n) => Success(TaskInfoSchema(
      name := n,
      description := task.description,
      agent := task.agent,
      command := task.command))
  }

  /** Converting a schema's own fields back through `from_task_info` gives
      the same schema: the conversion loses and invents nothing. */
  lemma FromTaskInfoRoundTrip(s: TaskInfoSchema)
    ensures FromTaskInfo(AsTaskInfo(s)) == Success(s)
  {
  }

  /** A schema built from a name alone has None in the three optional fields. */
  lemma SchemaDefaults(name: string)
    ensures TaskInfoSchema(name) == TaskInfoSchema(name, None, None, None)
  {
  }

  /** `[TaskInfoSchema.from_task_info(t) for t in tasks]` at the endpoints:
      the conversion runs in order and the first refused record aborts it. */
  function ToSchemas(tasks: seq<TaskInfo>): Result<seq<TaskInfoSchema>, SchemaError> {
    if tasks == [] then Success([])
    else
      match FromTaskInfo(tasks[0])
      case Failure(e) => Failure(e)
      case Success(s) =>
        match ToSchemas(tasks[1..])
        case Failure(e) => Failure(e)
        case Success(rest) => Success([s] + rest)
  }

  /** Endpoint conversion succeeds exactly when every record has a name, and
      then yields one schema per record, in order, with the same fields. */
  lemma {:induction false} ToSchemasSpec(tasks: seq<TaskInfo>)
    ensures ToSchemas(tasks).Success? <==> forall i :: 0 <= i < |tasks| ==> tasks[i].name.Some?
    ensures ToSchemas(tasks).Failure? ==> ToSchemas(tasks).error == NameNotString
    ensures ToSchemas(tasks).Success? ==>
      |ToSchemas(tasks).value| == |tasks| &&
      forall i :: 0 <= i < |tasks| ==> AsTaskInfo(ToSchemas(tasks).value[i]) == tasks[i]
  {
    if tasks != [] {
      ToSchemasSpec(tasks[1..]);
      if tasks[0].name.Some? && ToSchemas(tasks[1..]).Success? {
        var rest := ToSchemas(tasks[1..]).value;
        var all := ToSchemas(tasks).value;
        forall i | 0 <= i < |tasks| ensures AsTaskInfo(all[i]) == tasks[i] {
          if i > 0 {
            assert all[i] == rest[i - 1];
            assert tasks[i] == tasks[1..][i - 1];
          }
        }
      } else if tasks[0].name.Some? {
        var j :| 0 <= j < |tasks[1..]| && !tasks[1..][j].name.Some?;
        assert !tasks[j + 1].name.Some?;
      }
    }
  }
}
