# Stonebranch UAC task backend: the record-normalisation layer in Dafny

The backend is a thin HTTP façade over the `uac_api` SDK of the Stonebranch
Universal Automation Center. This model covers the part of it that has logic:

- **Task fetcher** (`TaskService`, module `Tasks`). Basic mode calls
  `tasks.list_tasks` with a fixed 30-day filter. Advanced mode calls
  `tasks.list_tasks_advanced` with no parameters. Both go through one shared
  path. A failed SDK call becomes an error tagged with the mode. The response
  envelope is normalised: a bare list is used as is, and a mapping contributes
  its `"data"` entry, or nothing when that key is missing. Every raw record is
  then mapped, in order, to a `TaskInfo`.
- **Mapping rule** (`Tasks.MapRecord`). `name`, `agent` and `command` are
  copied as they are (None when absent). `description` is Python's
  `description or summary`.
- **Client factory** (`UacClient`, module `Uac`). An explicit URL or token wins
  when truthy; otherwise `UAC_URL` / `UAC_TOKEN` from the environment is used.
  Both values must be truthy before the SDK controller is constructed. A
  construction failure is re-raised as `UacConnectionError`.
- **Records** (module `Models`). `TaskInfo` has exactly four fields.
  `TaskInfoSchema` requires a string `name`, and its other fields default to
  None. `from_task_info` copies field for field.

The SDK is an abstract collaborator (module `UacApi`): a `Controller` is a pair
of list calls, each returning an envelope or failing with a message. The SDK
constructor is a `Connect` function that may fail. The process environment is
an explicit `map<string, string>`. Python exceptions are modelled as `Failure`
values of a `Result`.

Where the source's own comments and its code disagree, the model follows the code:

- The basic endpoint's docstring (`backend/main.py:55`) says agent and command
  are None in basic mode. The code does not force them to None: it copies them
  exactly as advanced mode does (`backend/task_service.py:40-41`), and
  `Tasks.ModesAgree` proves the two modes give identical records.
- The class docstring (`backend/task_service.py:9`) promises "description or
  summary" as the task description. In the code this is Python's `or`, so when
  `description` is falsy the result is `summary` exactly as it is: it can be
  `""` as well as None.
- `Tasks.RawTasks` follows the loop when a mapping's `"data"` entry is not a
  list. An empty string iterates zero times and gives no records. A non-empty
  string or None raises a Python error outside the try-block, so it carries no
  mode tag (`Tasks.FetchError.Malformed`).
- The advanced endpoint's docstring (`backend/main.py:72`) mentions an
  `agentVar` key. The code never reads it, and neither does the model.

## Model

| member | source | states |
|---|---|---|
| PyValues.Or | backend/task_service.py:39 | Python `a or b` on optional strings: the result is `a` when `a` is truthy and `b` otherwise, and it is truthy exactly when either operand is |
| PyValues.Get | backend/task_service.py:38-41 | `dict.get(key)`: the value stored under the key when it is present, None when it is absent |
| Models.FromTaskInfo | backend/models.py:18-34 | conversion succeeds exactly when `name` is not None (schema requires a string name), and then reads back field for field as the input record |
| Models.FromTaskInfoRoundTrip | backend/models.py:27-34 | converting a schema's own fields back through `from_task_info` yields that schema unchanged |
| Models.SchemaDefaults | backend/models.py:22-25 | a schema given only a name has None in `description`, `agent` and `command` |
| Models.ToSchemasSpec | backend/main.py:59 | the endpoint conversion of all records succeeds iff every record has a name; then it has one schema per record, in order, with the same fields; otherwise the error is the name-not-string rejection |
| Tasks.DescriptionRule | backend/task_service.py:39 | a truthy `description` wins over `summary`; otherwise `summary` is taken verbatim (None when absent); the result is truthy iff either raw field is |
| Tasks.CopiedFields | backend/task_service.py:38-41 | `name`, `agent` and `command` are the raw values, None when the key is absent |
| Tasks.MapRecordsAt | backend/task_service.py:35-52 | the mapped list has as many records as the raw list, and the i-th is built from the i-th raw record |
| Tasks.MapRecordsAppend | backend/task_service.py:37-50 | mapping a concatenation is the concatenation of the mappings: each record is mapped independently |
| Tasks.FetchFailureTagged | backend/task_service.py:28-31 | a failed SDK call yields no records and the error message `Failed to retrieve tasks (<mode>): ` followed by the cause |
| Tasks.FetchSuccess | backend/task_service.py:33-52 | a successful call whose envelope normalises to a raw list yields exactly one mapped record per raw record, in order |
| Tasks.EnvelopeShapesAgree | backend/task_service.py:33 | a bare list and a mapping holding the same list under `"data"` give identical outcomes; a mapping without `"data"` gives no records |
| Tasks.ModesAgree | backend/task_service.py:57-82 | basic and advanced mode succeed on the same replies with identical records (agent and command not blanked in basic mode) and report the same failure cause |
| Tasks.SummaryOnlyScenario | backend/task_service.py:37-50 | a basic-mode record with only a name and a summary becomes that name, the summary as description, and no agent or command |
| Tasks.CollectTasks | backend/task_service.py:35-52 | the forward append loop returns one record per raw record, the i-th mapped from the i-th, equal to the specified mapping |
| Tasks.Complete | backend/task_service.py:28-52 | the shared path after the SDK call returns exactly the specified fetch outcome: tagged failure, envelope error, or mapped records |
| Tasks.TaskService.constructor | backend/task_service.py:14-15 | the service holds the controller it was given |
| Tasks.TaskService.FetchTasksBasic | backend/task_service.py:20-52 | the outcome is the specified fetch outcome, in basic mode, of `list_tasks` called with the fixed filter `{name: "*", type: "", updatedTimeType: "Offset", updatedTime: "-30d"}` |
| Tasks.TaskService.FetchTasksAdvanced | backend/task_service.py:57-82 | the outcome is the specified fetch outcome, in advanced mode, of `list_tasks_advanced` called with no parameters |
| Uac.EnvGet | backend/uac_client.py:19-20 | `os.getenv`: a value exactly when the variable is set, and then the variable's value |
| Uac.ResolvePrecedence | backend/uac_client.py:19-20 | a truthy explicit argument wins; None or `""` falls back to the environment variable, or None when it is unset |
| Uac.InitSucceedsExactly | backend/uac_client.py:18-32 | initialisation succeeds iff both resolved values are truthy and the SDK constructor succeeds on them, and then stores those values and the constructed controller |
| Uac.ValidationPrecedesConstruction | backend/uac_client.py:22-30 | a missing or empty value gives the missing-configuration error whatever the SDK constructor would do, so the constructor is never consulted |
| Uac.ConstructionFailureWrapped | backend/uac_client.py:25-32 | a failing SDK constructor yields `UacConnectionError` with `Failed to connect to UAC: ` followed by the cause |
| Uac.UacClient.constructor | backend/uac_client.py:19-30 | stores the validated URL, token and controller; the stored settings are truthy |
| Uac.UacClient.Create | backend/uac_client.py:18-32 | `__init__`: fails with exactly the specified error, or returns a fresh client whose URL, token and controller are the specified settings |
| Uac.UacClient.GetClient | backend/uac_client.py:34-38 | on a validly constructed client, returns the stored controller itself and changes nothing |

## Left out

- The `uac_api` SDK: its network client, `UniversalController`, and the two list calls are abstract functions. A deterministic function stands for each call, so two calls of the same kind are assumed to return the same reply.
- The `log_level="INFO"` argument to the SDK constructor: it does not affect the result.
- Reading the real process environment: it is a `map<string, string>` parameter.
- Raw record values other than strings or None (numbers, nested objects), and list elements that are not dictionaries: a `RawRecord` maps keys to optional strings only.
- A mapping's `"data"` entry other than a list of records, a string or None (a number, a nested mapping), and a response that is neither a list nor a mapping.
- Tasks.RawTasks: the `Malformed` detail holds Python's usual message text for the error; the exact exception type is not modelled.
- The HTTP layer in backend/main.py: routing, CORS, dependency injection, the root info endpoint, the HTTP 500 translation and its `Error fetching ... tasks:` detail. The `lru_cache` memoisation of `get_task_service` is not modelled either. It does not cache a raised exception, so a failed construction is retried on the next request. Only the list conversion at backend/main.py:59 and 77 is modelled, as `Models.ToSchemas`.
- Pydantic validation beyond the `name: str` requirement, and JSON serialisation.
- Concurrency: racing first requests that build the cached service.
- frontend/app.js: browser DOM and `fetch` I/O, with no logic to verify.
