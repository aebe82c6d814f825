/** The client factory (backend/uac_client.py): resolve the server URL and
    the API token from explicit arguments or the environment, refuse to go
    on unless both are truthy, then construct the SDK controller, turning
    any construction failure into a `UacConnectionError`. */
module Uac {
  import opened Wrappers
  import opened PyValues
  import opened UacApi

  datatype UacConnectionError = UacConnectionError(message: string)

  const MissingConfigMessage: string := "Missing UAC_URL or UAC_TOKEN environment variables."
  const ConnectPrefix: string := "Failed to connect to UAC: "

  /** `os.getenv(key)`: the variable's value, or None when it is unset. */
  function EnvGet(env: map<string, string>, key: string): (r: Option<string>)
    ensures r.Some? <==> key in env
    ensures r.Some? ==> r.value == env[key]
  {
    if key in env then Some(env[key]) else None
  }

  /** `arg or os.getenv(key)`. */
  function Resolve(arg: Option<string>, env: map<string, string>, key: string): Option<string> {
    Or(arg, EnvGet(env, key))
  }

  /** The fields a successfully initialised client holds. */
  datatype Settings = Settings(baseUrl: string, token: string, client: Controller)

  /** What `UacClient(base_url, token)` does, given the environment and the
      SDK constructor: the settings it stores, or the error it raises. */
  function InitOutcome(baseUrl: Option<string>, token: Option<string>,
                       env: map<string, string>, connect: Connect)
    : Result<Settings, UacConnectionError>
  {
    var url := Resolve(baseUrl, env, "UAC_URL");
    var tok := Resolve(token, env, "UAC_TOKEN");
    if !Truthy(url) || !Truthy(tok) then Failure(UacConnectionError(MissingConfigMessage))
    else
      match connect(url.value, tok.value)
      case Failure(cause) => Failure(UacConnectionError(ConnectPrefix + cause))
      case Success(c) => Success(Settings(url.value, tok.value, c))
  }

  /** A truthy explicit argument takes precedence over the environment;
      None or "" falls back to the environment variable. */
  lemma ResolvePrecedence(arg: Option<string>, env: map<string, string>, key: string)
    ensures Truthy(arg) ==> Resolve(arg, env, key) == arg
    ensures !Truthy(arg) ==> Resolve(arg, env, key) == (if key in env then Some(env[key]) else None)
  {
  }

  /** Initialisation succeeds exactly when both resolved values are truthy
      and the SDK constructor succeeds on them, and then stores those values
      and the constructed controller. */
  lemma InitSucceedsExactly(baseUrl: Option<string>, token: Option<string>,
                            env: map<string, string>, connect: Connect)
    ensures InitOutcome(baseUrl, token, env, connect).Success? <==>
      var url := Resolve(baseUrl, env, "UAC_URL");
      var tok := Resolve(token, env, "UAC_TOKEN");
      Truthy(url) && Truthy(tok) && connect(url.value, tok.value).Success?
    ensures InitOutcome(baseUrl, token, env, connect).Success? ==>
      var s := InitOutcome(baseUrl, token, env, connect).value;
      && Some(s.baseUrl) == Resolve(baseUrl, env, "UAC_URL")
      && Some(s.token) == Resolve(token, env, "UAC_TOKEN")
      && s.baseUrl != "" && s.token != ""
      && connect(s.baseUrl, s.token) == Success(s.client)
  {
  }

  /** Validation comes before construction: when a value is missing or
      empty the outcome is the missing-configuration error whatever the SDK
      constructor would have done, so it is never consulted. */
  lemma ValidationPrecedesConstruction(baseUrl: Option<string>, token: Option<string>,
                                       env: map<string, string>, c1: Connect, c2: Connect)
    requires !Truthy(Resolve(baseUrl, env, "UAC_URL")) || !Truthy(Resolve(token, env, "UAC_TOKEN"))
    ensures InitOutcome(baseUrl, token, env, c1) == Failure(UacConnectionError(MissingConfigMessage))
    ensures InitOutcome(baseUrl, token, env, c1) == InitOutcome(baseUrl, token, env, c2)
  {
  }

  /** A failure inside the SDK constructor surfaces as a `UacConnectionError`
      carrying the prefixed cause. */
  lemma ConstructionFailureWrapped(baseUrl: Option<string>, token: Option<string>,
                                   env: map<string, string>, connect: Connect, cause: string)
    requires Truthy(Resolve(baseUrl, env, "UAC_URL")) && Truthy(Resolve(token, env, "UAC_TOKEN"))
    requires connect(Resolve(baseUrl, env, "UAC_URL").value, Resolve(token, env, "UAC_TOKEN").value) == Failure(cause)
    ensures InitOutcome(baseUrl, token, env, connect) == Failure(UacConnectionError(ConnectPrefix + cause))
  {
  }

  class UacClient {
    const baseUrl: string
    const token: string
    const client: Controller

    /** A constructed client always holds truthy settings. */
    ghost predicate Valid() {
      baseUrl != "" && token != ""
    }

    /** Stores already validated settings; only `Create` calls it. */
    constructor(baseUrl: string, token: string, client: Controller)
      requires baseUrl != "" && token != ""
      ensures Valid()
      ensures this.baseUrl == baseUrl && this.token == token && this.client == client
    {
      this.baseUrl := baseUrl;
      this.token := token;
      this.client := client;
    }

    /** `UacClient.__init__`: a new client holding the resolved settings,
        or the `UacConnectionError` it raises. */
    static method Create(baseUrl: Option<string>, token: Option<string>,
                         env: map<string, string>, connect: Connect)
      returns (r: Result<UacClient, UacConnectionError>)
      ensures r.Failure? <==> InitOutcome(baseUrl, token, env, connect).Failure?
      ensures r.Failure? ==> r.error == InitOutcome(baseUrl, token, env, connect).error
      ensures r.Success? ==>
        && fresh(r.value)
        && r.value.Valid()
        && Settings(r.value.baseUrl, r.value.token, r.value.client)
           == InitOutcome(baseUrl, token, env, connect).value
    {
      var url := Or(baseUrl, EnvGet(env, "UAC_URL"));
      var tok := Or(token, EnvGet(env, "UAC_TOKEN"));
      if !Truthy(url) || !Truthy(tok) {
        return Failure(UacConnectionError(MissingConfigMessage));
      }
      var connected := connect(url.value, tok.value);
      if connected.Failure? {
        return Failure(UacConnectionError(ConnectPrefix + connected.error));
      }
      var c := new UacClient(url.value, tok.value, connected.value);
      r := Success(c);
    }

    /** `get_client`: the stored controller itself; nothing is built or
        changed. */
    method GetClient() returns (c: Controller)
      requires Valid()
      ensures c == client
    {
      c := client;
    }
  }
}
