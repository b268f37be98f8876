/**
 * The pure decisions of ai_traineree_client/remote_agent.py: URL
 * normalisation, where the access token comes from, model validation and the
 * discrete flag, the requests each operation sends, and what each operation
 * makes of the reply it receives. The class `RemoteAgent` and its methods,
 * which send the requests and change the object, are in module RemoteAgentClient.
 */
module RemoteAgentWire {
  import opened Python
  import opened Http
  import opened TraineereTypes
  import TraineereUtils
  import Retry

  // ---------------------------------------------------------------------------
  // URL normalisation (`__parse_url`)
  // ---------------------------------------------------------------------------

  const DefaultUrl: string := "https://agents.bar"
  const ApiSuffix: string := "/api/v1"

  /** The base URL the caller gave (`kwargs.get("url", default_url)`). */
  function UrlArgument(kwargs: map<string, Value>): Value {
    if "url" in kwargs then kwargs["url"] else VStr(DefaultUrl)
  }

  /** Whether the first four characters, lowercased, spell "http". */
  predicate HasHttpPrefix(url: string): (b: bool)
    ensures b <==> |url| >= 4 && Lower(url[..4]) == "http"
  {
    Lower(Prefix(url, 4)) == "http"
  }

  /** The URL with "https://" in front unless it already starts with "http",
      in any case. */
  function WithScheme(url: string): (r: string)
    ensures HasHttpPrefix(r)
    ensures r == url <==> HasHttpPrefix(url)
    ensures r != url ==> r == "https://" + url
  {
    if HasHttpPrefix(url) then url
    else
      var r := "https://" + url;
      assert Prefix(r, 4) == "http";
      r
  }

  /** A URL that already names a scheme is left as it is, so normalising
      twice is normalising once. */
  lemma WithSchemeIdempotent(url: string)
    ensures WithScheme(WithScheme(url)) == WithScheme(url)
  {
  }

  /** `__parse_url(kwargs)`: the normalised base URL followed by the API
      path; a base URL that is not a string fails at `url[:4].lower()`. */
  function ParseUrl(kwargs: map<string, Value>): (r: Result<string, Error>)
    ensures r.Ok? <==> UrlArgument(kwargs).VStr?
    ensures r.Err? ==> r.error == NotAString
    ensures r.Ok? ==> && r.value == WithScheme(UrlArgument(kwargs).s) + ApiSuffix
                      && HasHttpPrefix(r.value)
                      && r.value[|r.value| - |ApiSuffix|..] == ApiSuffix
  {
    match UrlArgument(kwargs)
    case VStr(url) =>
      var base := WithScheme(url);
      assert Prefix(base + ApiSuffix, 4) == Prefix(base, 4);
      Ok(base + ApiSuffix)
    case _ => Err(NotAString)
  }

  /** With no `url` keyword the client talks to the public service. */
  lemma ParseUrlDefault()
    ensures ParseUrl(map[]) == Ok("https://agents.bar/api/v1")
  {
    assert UrlArgument(map[]) == VStr(DefaultUrl);
    var p := Prefix(DefaultUrl, 4);
    assert p == "http";
    var l := Lower(p);
    assert l[0] == 'h' && l[1] == 't' && l[2] == 't' && l[3] == 'p';
    assert l == "http";
    assert HasHttpPrefix(DefaultUrl);
    assert WithScheme(DefaultUrl) == DefaultUrl;
    assert DefaultUrl + ApiSuffix == "https://agents.bar/api/v1";
  }

  /** A URL whose first character is not an "h" in either case has no
      scheme of its own. */
  lemma NoHttpPrefix(url: string)
    requires url != [] && LowerChar(url[0]) != 'h'
    ensures !HasHttpPrefix(url)
  {
    assert Lower(Prefix(url, 4))[0] == LowerChar(url[0]);
  }

  /** A bare host, such as "localhost:8000", gets the secure scheme. */
  lemma ParseUrlBareHost(host: string)
    requires host != [] && LowerChar(host[0]) != 'h'
    ensures ParseUrl(map["url" := VStr(host)]) == Ok("https://" + host + ApiSuffix)
  {
    assert UrlArgument(map["url" := VStr(host)]) == VStr(host);
    NoHttpPrefix(host);
  }

  /** An upper-case scheme is kept as it is. */
  lemma ParseUrlUpperScheme()
    ensures ParseUrl(map["url" := VStr("HTTP://10.0.0.1")]) == Ok("HTTP://10.0.0.1/api/v1")
  {
    var host := "HTTP://10.0.0.1";
    assert UrlArgument(map["url" := VStr(host)]) == VStr(host);
    var p := Prefix(host, 4);
    assert p == "HTTP";
    var l := Lower(p);
    assert l[0] == 'h' && l[1] == 't' && l[2] == 't' && l[3] == 'p';
    assert l == "http";
    assert HasHttpPrefix(host);
    assert WithScheme(host) == host;
    assert host + ApiSuffix == "HTTP://10.0.0.1/api/v1";
  }

  // ---------------------------------------------------------------------------
  // Access token (`get_access_token`, `__login`)
  // ---------------------------------------------------------------------------

  const EnvAccessToken: string := "AGENTS_BAR_ACCESS_TOKEN"
  const EnvUser: string := "AGENTS_BAR_USER"
  const EnvPass: string := "AGENTS_BAR_PASS"

  /** The keywords the constructor pops before the rest become the config. */
  const CredentialKeys: set<string> := {"access_token", "username", "password"}

  /** `v if v is not None else os.environ.get(name)`. */
  function OrEnv(v: Value, env: map<string, string>, name: string): (r: Value)
    ensures v != VNone ==> r == v
    ensures v == VNone ==> r == (if name in env then VStr(env[name]) else VNone)
  {
    if v != VNone then v else if name in env then VStr(env[name]) else VNone
  }

  /** The form `__login` posts. */
  function LoginRequest(url: string, username: Value, password: Value): (r: Request)
    ensures r.verb == Post && r.url == url + "/login/access-token"
    ensures r.bearer.None?
    ensures r.body.Form? && DictToMap(r.body.fields) == map["username" := username, "password" := password]
  {
    var fields := [("username", username), ("password", password)];
    DictToMapCons(("password", password), []);
    assert [("password", password)] == [("password", password)] + [];
    DictToMapCons(("username", username), [("password", password)]);
    assert fields == [("username", username)] + [("password", password)];
    Request(Post, url + "/login/access-token", [], None, Form(fields))
  }

  /** What `__login` makes of the reply: a status of 300 or more is a
      rejection naming the user; otherwise the body's `access_token`. */
  function LoginOutcome(username: Value, reply: Exchange): (r: Result<Value, Error>)
    ensures reply.Unreachable? ==> r == Err(ConnectionFailed)
    ensures reply.Answered? && reply.response.status >= 300 ==>
              r == Err(LoginRejected(username, reply.response.text))
    ensures r.Ok? <==> && reply.Answered? && reply.response.status < 300
                       && reply.response.json.Some?
                       && Subscript(reply.response.json.value, "access_token").Ok?
    ensures r.Ok? ==> r.value == Subscript(reply.response.json.value, "access_token").value
  {
    match reply
    case Unreachable => Err(ConnectionFailed)
    case Answered(resp) =>
      if resp.status >= 300 then Err(LoginRejected(username, resp.text))
      else match resp.json
        case None => Err(BadJson)
        case Some(body) => Subscript(body, "access_token")
  }

  /** Where the token comes from. */
  datatype TokenPlan =
    | UseToken(token: Value)                     // given, or from the environment
    | LogIn(username: Value, password: Value)    // one login request
    | NoCredentials                              // ValueError, no request

  /** `get_access_token(username, password, access_token)` up to the login
      request: an explicit token is used verbatim, then the environment's
      token; only when both are absent are credentials resolved, each
      explicit first and then from the environment. */
  function PlanToken(accessToken: Value, username: Value, password: Value, env: map<string, string>): (p: TokenPlan)
    ensures accessToken != VNone ==> p == UseToken(accessToken)
    ensures accessToken == VNone && EnvAccessToken in env ==> p == UseToken(VStr(env[EnvAccessToken]))
    ensures p.LogIn? <==> && accessToken == VNone && EnvAccessToken !in env
                          && OrEnv(username, env, EnvUser) != VNone
                          && OrEnv(password, env, EnvPass) != VNone
    ensures p.LogIn? ==> p.username == OrEnv(username, env, EnvUser) && p.password == OrEnv(password, env, EnvPass)
    ensures p.NoCredentials? <==> && accessToken == VNone && EnvAccessToken !in env
                                  && (OrEnv(username, env, EnvUser) == VNone || OrEnv(password, env, EnvPass) == VNone)
  {
    var token := OrEnv(accessToken, env, EnvAccessToken);
    if token != VNone then UseToken(token)
    else
      var u := OrEnv(username, env, EnvUser);
      var p := OrEnv(password, env, EnvPass);
      if u == VNone || p == VNone then NoCredentials else LogIn(u, p)
  }

  /** The token, given the reply the login request (if any) receives. */
  function TokenOutcome(plan: TokenPlan, reply: Exchange): (r: Result<Value, Error>)
    ensures plan.UseToken? ==> r == Ok(plan.token)
    ensures plan.NoCredentials? ==> r == Err(MissingCredentials)
    ensures plan.LogIn? ==> r == LoginOutcome(plan.username, reply)
  {
    match plan
    case UseToken(t) => Ok(t)
    case NoCredentials => Err(MissingCredentials)
    case LogIn(u, _) => LoginOutcome(u, reply)
  }

  /** An explicit token always wins: whatever the environment holds and
      whatever the server would answer, it is the token. */
  lemma ExplicitTokenWins(accessToken: Value, username: Value, password: Value, env: map<string, string>, reply: Exchange)
    requires accessToken != VNone
    ensures TokenOutcome(PlanToken(accessToken, username, password, env), reply) == Ok(accessToken)
  {
  }

  /** The constructor's kwargs with the credentials popped: what `_config`
      starts as. */
  function ConstructorConfig(kwargs: map<string, Value>): (c: map<string, Value>)
    ensures c.Keys == kwargs.Keys - CredentialKeys
    ensures forall k :: k in c ==> c[k] == kwargs[k]
  {
    kwargs - CredentialKeys
  }

  /** The credentials never reach the config; every other keyword does,
      `url` and the sizes included. */
  lemma CredentialsNotInConfig(kwargs: map<string, Value>)
    ensures "access_token" !in ConstructorConfig(kwargs)
    ensures "username" !in ConstructorConfig(kwargs)
    ensures "password" !in ConstructorConfig(kwargs)
    ensures forall k :: k in kwargs && k !in CredentialKeys ==> k in ConstructorConfig(kwargs)
  {
  }

  // ---------------------------------------------------------------------------
  // The cached view of the remote agent (`_config`, `_state_size`, ...)
  // ---------------------------------------------------------------------------

  /** The three lazily filled attributes. */
  datatype CachedField = StateSize | ActionSize | AgentModel

  /** The local view of the remote agent; None (`VNone`) means not known. */
  datatype Cache = Cache(config: map<string, Value>, stateSize: Value, actionSize: Value, agentModel: Value)
  {
    function Get(f: CachedField): Value {
      match f
      case StateSize => stateSize
      case ActionSize => actionSize
      case AgentModel => agentModel
    }
  }

  /** `local.update(remote)`: remote values overwrite, other keys are kept. */
  function Merge(local: map<string, Value>, remote: map<string, Value>): (m: map<string, Value>)
    ensures m.Keys == local.Keys + remote.Keys
    ensures forall k :: k in remote ==> m[k] == remote[k]
    ensures forall k :: k in local && k !in remote ==> m[k] == local[k]
  {
    local + remote
  }

  /** Merging the same remote config twice is merging it once. */
  lemma MergeIdempotent(local: map<string, Value>, remote: map<string, Value>)
    ensures Merge(Merge(local, remote), remote) == Merge(local, remote)
  {
  }

  /** The request `info`, `exists` and `is_active` send. */
  function AgentRequest(url: string, token: Value, name: string): (r: Request)
    ensures r.verb == Get && r.url == url + TraineereUtils.AgentPath(name)
    ensures r.bearer == Some(token) && r.query == [] && r.body == NoBody
  {
    Request(Get, url + TraineereUtils.AgentPath(name), [], Some(token), NoBody)
  }

  /** `info()`: the parsed body, whatever the status. */
  function InfoOutcome(reply: Exchange): (r: Result<Value, Error>)
    ensures r.Ok? <==> reply.Answered? && reply.response.json.Some?
    ensures r.Ok? ==> r.value == reply.response.json.value
  {
    match reply
    case Unreachable => Err(ConnectionFailed)
    case Answered(resp) => if resp.json.Some? then Ok(resp.json.value) else Err(BadJson)
  }

  /** Whether an agent description carries everything `sync` reads:
      a `config` object with `state_size` and `action_size`, and a `model`. */
  predicate Describes(agent: Value) {
    && Subscript(agent, "config").Ok?
    && Subscript(agent, "config").value.VDict?
    && Subscript(Subscript(agent, "config").value, "state_size").Ok?
    && Subscript(Subscript(agent, "config").value, "action_size").Ok?
    && Subscript(agent, "model").Ok?
  }

  /** The statements of `sync()` after `info()`, on the agent description
      it returned: they run in order and stop at the first exception, so a
      failure can leave the config merged but a size or the model not yet
      assigned. */
  function SyncFrom(c: Cache, agent: Value): (r: (Cache, Result<(), Error>))
    ensures r.1.Ok? <==> Describes(agent)
    ensures r.1.Ok? ==>
              var remote := Subscript(agent, "config").value;
              r.0 == Cache(Merge(c.config, DictToMap(remote.entries)),
                           Subscript(remote, "state_size").value,
                           Subscript(remote, "action_size").value,
                           Subscript(agent, "model").value)
    ensures r.1.Err? ==> r.0.agentModel == c.agentModel
    ensures (r.1.Err? && !(Subscript(agent, "config").Ok? && Subscript(agent, "config").value.VDict?)) ==> r.0 == c
  {
    match Subscript(agent, "config")
    case Err(e) => (c, Err(e))
    case Ok(remote) =>
      match AsMapping(remote)
      case Err(e) => (c, Err(e))
      case Ok(m) => AssignFrom(c.(config := Merge(c.config, m)), remote, agent)
  }

  /** The last three statements of `sync()`: the two sizes from the remote
      config, then the model from the agent description. */
  function AssignFrom(c: Cache, remote: Value, agent: Value): (r: (Cache, Result<(), Error>))
    ensures r.1.Ok? <==> Subscript(remote, "state_size").Ok? && Subscript(remote, "action_size").Ok? && Subscript(agent, "model").Ok?
    ensures r.1.Ok? ==> r.0 == c.(stateSize := Subscript(remote, "state_size").value,
                                  actionSize := Subscript(remote, "action_size").value,
                                  agentModel := Subscript(agent, "model").value)
    ensures r.1.Err? ==> r.0.agentModel == c.agentModel && r.0.config == c.config
  {
    match Subscript(remote, "state_size")
    case Err(e) => (c, Err(e))
    case Ok(s) =>
      var c1 := c.(stateSize := s);
      match Subscript(remote, "action_size")
      case Err(e) => (c1, Err(e))
      case Ok(a) =>
        var c2 := c1.(actionSize := a);
        match Subscript(agent, "model")
        case Err(e) => (c2, Err(e))
        case Ok(model) => (c2.(agentModel := model), Ok(()))
  }

  /** `sync()` on a reply: `info()` first, whose failure changes nothing. */
  function SyncOutcome(c: Cache, reply: Exchange): (r: (Cache, Result<(), Error>))
    ensures r.1.Ok? <==> reply.Answered? && reply.response.json.Some? && Describes(reply.response.json.value)
    ensures r.1.Ok? ==>
              var agent := reply.response.json.value;
              var remote := Subscript(agent, "config").value;
              r.0 == Cache(Merge(c.config, DictToMap(remote.entries)),
                           Subscript(remote, "state_size").value,
                           Subscript(remote, "action_size").value,
                           Subscript(agent, "model").value)
    ensures r.1.Err? ==> r.0.agentModel == c.agentModel
    ensures (r.1.Err? && !(reply.Answered? && reply.response.json.Some? && Subscript(reply.response.json.value, "config").Ok?
                           && Subscript(reply.response.json.value, "config").value.VDict?)) ==> r.0 == c
  {
    match InfoOutcome(reply)
    case Err(e) => (c, Err(e))
    case Ok(agent) => SyncFrom(c, agent)
  }

  /** A lazy attribute: the cached value when it is known, with no request;
      otherwise `sync()` first, then whatever the attribute now holds. */
  function CachedOutcome(c: Cache, f: CachedField, reply: Exchange): (r: (Cache, Result<Value, Error>))
    ensures c.Get(f) != VNone ==> r == (c, Ok(c.Get(f)))
    ensures c.Get(f) == VNone ==> r.0 == SyncOutcome(c, reply).0
    ensures c.Get(f) == VNone ==>
              r.1 == (if SyncOutcome(c, reply).1.Ok? then Ok(r.0.Get(f)) else Err(SyncOutcome(c, reply).1.error))
  {
    if c.Get(f) != VNone then (c, Ok(c.Get(f)))
    else
      var (c1, s) := SyncOutcome(c, reply);
      if s.Err? then (c1, Err(s.error)) else (c1, Ok(c1.Get(f)))
  }

  /** After a first access that fetched a known value, the next access to
      any of the three attributes the server described needs no request. */
  lemma {:induction false} SyncFillsAll(c: Cache, f: CachedField, g: CachedField, reply: Exchange, later: Exchange)
    requires c.Get(f) == VNone
    requires CachedOutcome(c, f, reply).1.Ok?
    requires CachedOutcome(c, f, reply).0.Get(g) != VNone
    ensures CachedOutcome(CachedOutcome(c, f, reply).0, g, later) == (CachedOutcome(c, f, reply).0, Ok(CachedOutcome(c, f, reply).0.Get(g)))
  {
  }

  /** A successful sync keeps local keys the server does not mention and
      takes every remote value. */
  lemma SyncMerges(c: Cache, reply: Exchange, k: string)
    requires SyncOutcome(c, reply).1.Ok?
    ensures var remote := DictToMap(Subscript(reply.response.json.value, "config").value.entries);
            var cfg := SyncOutcome(c, reply).0.config;
            && (k in remote ==> k in cfg && cfg[k] == remote[k])
            && (k in c.config && k !in remote ==> k in cfg && cfg[k] == c.config[k])
            && (k in cfg <==> k in c.config || k in remote)
  {
  }

  // ---------------------------------------------------------------------------
  // Model validation and agent creation (`__validate_agent_model`, `create_agent`)
  // ---------------------------------------------------------------------------

  const SupportedModels: seq<string> := ["dqn", "ppo", "ddpg", "rainbow"]
  const DiscreteModels: seq<string> := ["dqn", "rainbow"]

  /** `__validate_agent_model(model)`: the lowercased name must be supported. */
  function ValidateModel(model: Value): (r: Result<(), Error>)
    ensures r.Ok? <==> model.VStr? && Lower(model.s) in SupportedModels
    ensures r.Err? && model.VStr? ==> r.error == UnsupportedModel(model.s)
    ensures !model.VStr? ==> r == Err(NotAString)
  {
    match model
    case VStr(s) => if Lower(s) in SupportedModels then Ok(()) else Err(UnsupportedModel(s))
    case _ => Err(NotAString)
  }

  /** `agent_model.lower() in ('dqn', 'rainbow')`. */
  predicate IsDiscreteModel(model: string): (b: bool)
    ensures b <==> Lower(model) == "dqn" || Lower(model) == "rainbow"
    ensures b ==> Lower(model) in SupportedModels
  {
    Lower(model) in DiscreteModels
  }

  lemma LowerIdempotent(s: string)
    ensures Lower(Lower(s)) == Lower(s)
  {
  }

  /** Validation ignores case: a name is accepted exactly when its
      lowercase form is. */
  lemma ValidationIgnoresCase(model: string)
    ensures ValidateModel(VStr(model)).Ok? <==> ValidateModel(VStr(Lower(model))).Ok?
  {
    LowerIdempotent(model);
  }

  /** Every discrete model is a supported one. */
  lemma DiscreteIsSupported(model: string)
    requires IsDiscreteModel(model)
    ensures ValidateModel(VStr(model)).Ok?
  {
  }

  /** The config `create_agent` leaves: the given sizes written over the
      current config. */
  function CreatedConfig(config: map<string, Value>, stateSize: Value, actionSize: Value): (c: map<string, Value>)
    ensures c.Keys == config.Keys + {"state_size", "action_size"}
    ensures c["state_size"] == stateSize && c["action_size"] == actionSize
    ensures forall k :: k in config && k != "state_size" && k != "action_size" ==> c[k] == config[k]
  {
    config["state_size" := stateSize]["action_size" := actionSize]
  }

  /** The request `create_agent` sends. */
  function CreateRequest(url: string, token: Value, name: string, model: Value, description: string, config: map<string, Value>): (r: Request)
    ensures r.verb == Post && r.url == url + "/agents/" && r.bearer == Some(token)
    ensures r.body.AgentSpec? && r.body.name == name && r.body.model == model
    ensures r.body.description == description && r.body.config == config
  {
    Request(Post, url + "/agents/", [], Some(token), AgentSpec(name, model, description, config))
  }

  /** The payload of creation carries the sizes the caller gave, whatever
      the config held before. */
  lemma CreatePayloadSizes(url: string, token: Value, name: string, model: Value, description: string,
                           config: map<string, Value>, stateSize: Value, actionSize: Value)
    ensures var body := CreateRequest(url, token, name, model, description, CreatedConfig(config, stateSize, actionSize)).body;
            body.config["state_size"] == stateSize && body.config["action_size"] == actionSize
  {
  }

  /** What `create_agent` makes of the reply: a status of 300 or more raises
      with the body (and the body's parse failure wins if it is not JSON);
      otherwise the parsed body is the result. */
  function CreateOutcome(reply: Exchange): (r: Result<Value, Error>)
    ensures r.Ok? <==> reply.Answered? && reply.response.status < 300 && reply.response.json.Some?
    ensures r.Ok? ==> r.value == reply.response.json.value
    ensures reply.Answered? && reply.response.status >= 300 && reply.response.json.Some? ==>
              r == Err(CreationRejected(reply.response.json.value))
  {
    match reply
    case Unreachable => Err(ConnectionFailed)
    case Answered(resp) =>
      match resp.json
      case None => Err(BadJson)
      case Some(body) => if resp.status >= 300 then Err(CreationRejected(body)) else Ok(body)
  }

  /** `create_agent` as written, up to its first side effect: after
      validation it assigns to the read-only property `agent_model`,
      which raises before anything is changed or sent. */
  function CreateAgentAsWrittenOutcome(model: Value): (r: Result<Value, Error>)
    ensures r.Err?
    ensures ValidateModel(model).Ok? ==> r == Err(NoSetter("agent_model"))
  {
    match ValidateModel(model)
    case Err(e) => Err(e)
    case Ok(_) => Err(NoSetter("agent_model"))
  }

  /** The discrepancy: as written, creating a "dqn" agent fails locally,
      even though every server reply would be a success. */
  lemma CreateAgentAsWrittenFailsForDqn(reply: Exchange)
    requires reply.Answered? && reply.response.status == 201 && reply.response.json.Some?
    ensures CreateAgentAsWrittenOutcome(VStr("dqn")) == Err(NoSetter("agent_model"))
    ensures CreateOutcome(reply).Ok?
  {
    assert Lower("dqn") == "dqn";
  }

  // ---------------------------------------------------------------------------
  // remove, exists, is_active
  // ---------------------------------------------------------------------------

  /** The request `remove` sends once the name is confirmed. */
  function DeleteRequest(url: string, token: Value, name: string): (r: Request)
    ensures r.verb == Delete && r.url == AgentRequest(url, token, name).url
    ensures r.bearer == Some(token) && r.body == NoBody
  {
    Request(Delete, url + TraineereUtils.AgentPath(name), [], Some(token), NoBody)
  }

  /** Whether the caller repeated the agent's own name (None never does). */
  predicate RemoveConfirmed(name: string, given: Value) {
    given == VStr(name)
  }

  /** `remove(agent_name=given, quite=quite)`: an unconfirmed call answers
      False when quiet and raises otherwise, with no request; a confirmed one
      deletes and succeeds exactly on a status below 300. */
  function RemoveOutcome(name: string, given: Value, quite: bool, reply: Exchange): (r: Result<bool, Error>)
    ensures !RemoveConfirmed(name, given) ==> r == (if quite then Ok(false) else Err(DeletionNotConfirmed))
    ensures RemoveConfirmed(name, given) ==>
              (r == Ok(true) <==> reply.Answered? && reply.response.status < 300)
    ensures RemoveConfirmed(name, given) && reply.Answered? && reply.response.status >= 300 ==>
              r == Err(DeletionRejected(name, reply.response.text))
    ensures r != Ok(false) || (!RemoveConfirmed(name, given) && quite)
  {
    if !RemoveConfirmed(name, given) then
      if quite then Ok(false) else Err(DeletionNotConfirmed)
    else match reply
      case Unreachable => Err(ConnectionFailed)
      case Answered(resp) => if resp.status >= 300 then Err(DeletionRejected(name, resp.text)) else Ok(true)
  }

  /** `exists`: any answered read tells, by `response.ok`. */
  function ExistsOutcome(reply: Exchange): (r: Result<bool, Error>)
    ensures r.Ok? <==> reply.Answered?
    ensures r.Ok? ==> (r.value <==> IsOk(reply.response.status))
  {
    match reply
    case Unreachable => Err(ConnectionFailed)
    case Answered(resp) => Ok(IsOk(resp.status))
  }

  /** `is_active`: an error status raises; otherwise the body's
      `is_active` member, as it is. */
  function IsActiveOutcome(reply: Exchange): (r: Result<Value, Error>)
    ensures reply.Answered? && !IsOk(reply.response.status) ==> r == Err(HttpStatus(reply.response.status))
    ensures r.Ok? <==> && reply.Answered? && IsOk(reply.response.status) && reply.response.json.Some?
                       && Subscript(reply.response.json.value, "is_active").Ok?
    ensures r.Ok? ==> r.value == Subscript(reply.response.json.value, "is_active").value
  {
    match reply
    case Unreachable => Err(ConnectionFailed)
    case Answered(resp) =>
      if !IsOk(resp.status) then Err(HttpStatus(resp.status))
      else match resp.json
        case None => Err(BadJson)
        case Some(body) => Subscript(body, "is_active")
  }

  /** The asymmetry of the two reads: on the same reply, an answer from
      `is_active` means `exists` says True, while an absent agent makes
      `exists` say False and `is_active` raise. */
  lemma ActiveImpliesExists(reply: Exchange)
    ensures IsActiveOutcome(reply).Ok? ==> ExistsOutcome(reply) == Ok(true)
    ensures ExistsOutcome(reply) == Ok(false) ==> IsActiveOutcome(reply).Err?
  {
  }

  // ---------------------------------------------------------------------------
  // hparams
  // ---------------------------------------------------------------------------

  /** `str(v)` of a value that is not a number: a string is itself and None
      is "None"; the rendering of lists, tuples and dicts is `render`. */
  function Str(v: Value, render: Value -> string): string {
    match v
    case VStr(s) => s
    case VNone => "None"
    case _ => render(v)
  }

  /** `make_str_or_number`. */
  function StrOrNumber(v: Value, render: Value -> string): Value {
    if IsNumber(v) then v else VStr(Str(v, render))
  }

  /** `hparams`: the config's keys, numbers (bools included) kept, every
      other value as its string. */
  function HParams(config: map<string, Value>, render: Value -> string): (h: map<string, Value>)
    ensures h.Keys == config.Keys
    ensures forall k :: k in config && IsNumber(config[k]) ==> h[k] == config[k]
    ensures forall k :: k in config && !IsNumber(config[k]) ==> h[k] == VStr(Str(config[k], render))
    ensures forall k :: k in h ==> IsNumber(h[k]) || h[k].VStr?
  {
    map k | k in config :: StrOrNumber(config[k], render)
  }

  /** String values are kept as they are, so the hyperparameters of the
      hyperparameters are the same hyperparameters. */
  lemma {:induction false} HParamsIdempotent(config: map<string, Value>, render: Value -> string)
    ensures HParams(HParams(config, render), render) == HParams(config, render)
  {
    var h := HParams(config, render);
    var hh := HParams(h, render);
    forall k | k in h ensures hh[k] == h[k] {
      assert IsNumber(h[k]) || h[k].VStr?;
    }
  }

  // ---------------------------------------------------------------------------
  // act, step, get_state, upload_state: one attempt each
  // ---------------------------------------------------------------------------

  const ActBudget: nat := 3
  const StepBudget: nat := 10
  const GetStateBudget: nat := 3

  /** `int(action[0])` for a discrete model; the action as it is otherwise. */
  function UnwrapAction(discrete: bool, action: Value): (r: Result<Value, Error>)
    ensures !discrete ==> r == Ok(action)
    ensures discrete && r.Ok? ==> && r.value.VInt? && FirstItem(action).Ok?
                                  && IntOf(FirstItem(action).value) == Ok(r.value.i)
    ensures discrete ==> r == (if FirstItem(action).Err? then Err(FirstItem(action).error)
                               else if IntOf(FirstItem(action).value).Err? then Err(IntOf(FirstItem(action).value).error)
                               else Ok(VInt(IntOf(FirstItem(action).value).value)))
    ensures discrete && (action.VList? || action.VTuple?) && action.items != [] && action.items[0].VInt? ==>
              r == Ok(action.items[0])
  {
    if !discrete then Ok(action)
    else match FirstItem(action)
      case Err(e) => Err(e)
      case Ok(first) =>
        match IntOf(first)
        case Err(e) => Err(e)
        case Ok(n) => Ok(VInt(n))
  }

  /** The request one `act` attempt sends. */
  function ActRequest(url: string, token: Value, name: string, state: Value, noise: Value): (r: Request)
    ensures r.verb == Post && r.url == AgentRequest(url, token, name).url + "/act"
    ensures r.query == [("noise", noise)] && r.bearer == Some(token) && r.body == Json(state)
  {
    Request(Post, url + TraineereUtils.AgentPath(name) + "/act", [("noise", noise)], Some(token), Json(state))
  }

  /** One `act` attempt on its reply: an error status raises; the body's
      `action` is read; then the discrete flag, which raises while
      `create_agent` has not set it. */
  function ActAttempt(discrete: Option<bool>, reply: Exchange): (r: Result<Value, Error>)
    ensures reply.Unreachable? ==> r == Err(ConnectionFailed)
    ensures reply.Answered? && !IsOk(reply.response.status) ==> r == Err(HttpStatus(reply.response.status))
    ensures discrete.None? ==> r.Err?
    ensures reply.Answered? && IsOk(reply.response.status) && reply.response.json.None? ==> r == Err(BadJson)
    ensures reply.Answered? && IsOk(reply.response.status) && reply.response.json.Some? ==>
              var action := Subscript(reply.response.json.value, "action");
              r == (if action.Err? then Err(action.error)
                    else if discrete.None? then Err(NoAttribute("_discrete"))
                    else UnwrapAction(discrete.value, action.value))
    ensures r.Ok? ==> && reply.Answered? && IsOk(reply.response.status) && reply.response.json.Some?
                      && Subscript(reply.response.json.value, "action").Ok? && discrete.Some?
                      && r == UnwrapAction(discrete.value, Subscript(reply.response.json.value, "action").value)
  {
    match reply
    case Unreachable => Err(ConnectionFailed)
    case Answered(resp) =>
      if !IsOk(resp.status) then Err(HttpStatus(resp.status))
      else match resp.json
        case None => Err(BadJson)
        case Some(body) =>
          match Subscript(body, "action")
          case Err(e) => Err(e)
          case Ok(action) =>
            match discrete
            case None => Err(NoAttribute("_discrete"))
            case Some(d) => UnwrapAction(d, action)
  }

  /** The examples of the `act` contract: a discrete agent answering
      {"action": [2]} acts 2; a continuous one answering {"action": [0.1, 0.2]}
      acts that list unchanged. */
  lemma ActExamples()
    ensures ActAttempt(Some(true), Answered(Response(200, "", Some(VDict([("action", VList([VInt(2)]))]))))) == Ok(VInt(2))
    ensures ActAttempt(Some(false), Answered(Response(200, "", Some(VDict([("action", VList([VFloat(0.1), VFloat(0.2)]))])))))
              == Ok(VList([VFloat(0.1), VFloat(0.2)]))
  {
    assert KeysOf([("action", VList([VInt(2)]))]) == {"action"};
    assert KeysOf([("action", VList([VFloat(0.1), VFloat(0.2)]))]) == {"action"};
  }

  /** The body one `step` attempt posts, `{"step_data": {...}}`: state,
      next state and action coerced with `to_list`, reward and done as
      given. */
  function StepPayload(state: Value, action: Value, reward: Value, nextState: Value, done: Value): (r: Result<Value, Error>)
    ensures r.Ok? <==> && TraineereUtils.ToList(state).Ok? && TraineereUtils.ToList(nextState).Ok?
                       && TraineereUtils.ToList(action).Ok?
    ensures r.Err? ==> r.error == NotIterable
    ensures r.Ok? ==> && r.value.VDict?
                      && DictToMap(r.value.entries).Keys == {"step_data"}
                      && DictToMap(r.value.entries)["step_data"].VDict?
                      && DictToMap(DictToMap(r.value.entries)["step_data"].entries) ==
                           map["done" := done, "reward" := reward,
                               "action" := TraineereUtils.ToList(action).value,
                               "next_state" := TraineereUtils.ToList(nextState).value,
                               "state" := TraineereUtils.ToList(state).value]
  {
    match TraineereUtils.ToList(state)
    case Err(e) => Err(e)
    case Ok(s) =>
      match TraineereUtils.ToList(nextState)
      case Err(e) => Err(e)
      case Ok(n) =>
        match TraineereUtils.ToList(action)
        case Err(e) => Err(e)
        case Ok(a) =>
          var data := VDict(StepDataEntries(s, n, a, reward, done));
          StepDataMap(s, n, a, reward, done);
          DictToMapCons(("step_data", data), []);
          assert [("step_data", data)] == [("step_data", data)] + [];
          Ok(VDict([("step_data", data)]))
  }

  /** The members of `step_data`, in the order the source writes them. */
  function StepDataEntries(state: Value, nextState: Value, action: Value, reward: Value, done: Value): seq<(string, Value)> {
    [("state", state)] + ([("next_state", nextState)] + ([("action", action)] + ([("reward", reward)] + [("done", done)])))
  }

  /** The five keys are distinct, so each member keeps its value. */
  lemma StepDataMap(state: Value, nextState: Value, action: Value, reward: Value, done: Value)
    ensures DictToMap(StepDataEntries(state, nextState, action, reward, done)) ==
              map["done" := done, "reward" := reward, "action" := action, "next_state" := nextState, "state" := state]
  {
    var e2 := [("action", action)] + ([("reward", reward)] + [("done", done)]);
    var e1 := [("next_state", nextState)] + e2;
    StepDataTail(action, reward, done);
    var m2 := map["done" := done, "reward" := reward, "action" := action];
    assert "next_state" !in m2;
    DictToMapCons(("next_state", nextState), e2);
    var m1 := m2["next_state" := nextState];
    assert DictToMap(e1) == m1;
    assert "state" !in m1;
    DictToMapCons(("state", state), e1);
  }

  lemma StepDataTail(action: Value, reward: Value, done: Value)
    ensures DictToMap([("action", action)] + ([("reward", reward)] + [("done", done)])) ==
              map["done" := done, "reward" := reward, "action" := action]
  {
    var e4 := [("done", done)];
    var e3 := [("reward", reward)] + e4;
    DictToMapCons(("done", done), []);
    assert e4 == [("done", done)] + [];
    assert DictToMap(e4) == map["done" := done];
    DictToMapCons(("reward", reward), e4);
    assert DictToMap(e3) == map["done" := done, "reward" := reward];
    DictToMapCons(("action", action), e3);
  }

  /** The request one `step` attempt sends. */
  function StepRequest(url: string, token: Value, name: string, payload: Value): (r: Request)
    ensures r.verb == Post && r.url == AgentRequest(url, token, name).url + "/step"
    ensures r.bearer == Some(token) && r.body == Json(payload)
  {
    Request(Post, url + TraineereUtils.AgentPath(name) + "/step", [], Some(token), Json(payload))
  }

  /** One `step` attempt on its reply: True unless the status is an error. */
  function StepAttempt(reply: Exchange): (r: Result<bool, Error>)
    ensures r.Ok? <==> reply.Answered? && IsOk(reply.response.status)
    ensures r.Ok? ==> r.value
    ensures reply.Answered? && !IsOk(reply.response.status) ==> r == Err(HttpStatus(reply.response.status))
  {
    match reply
    case Unreachable => Err(ConnectionFailed)
    case Answered(resp) => if IsOk(resp.status) then Ok(true) else Err(HttpStatus(resp.status))
  }

  /** The request `get_state` sends. */
  function SnapshotGetRequest(url: string, token: Value, name: string): (r: Request)
    ensures r.verb == Get && r.url == url + "/snapshot/" + name
    ensures r.bearer == Some(token) && r.body == NoBody
  {
    Request(Get, url + "/snapshot/" + name, [], Some(token), NoBody)
  }

  /** One `get_state` attempt on its reply: `EncodedAgentState(**body)`. */
  function GetStateAttempt(reply: Exchange): (r: Result<EncodedAgentState, Error>)
    ensures reply.Answered? && !IsOk(reply.response.status) ==> r == Err(HttpStatus(reply.response.status))
    ensures r.Ok? <==> && reply.Answered? && IsOk(reply.response.status) && reply.response.json.Some?
                       && reply.response.json.value.VDict?
                       && KeysOf(reply.response.json.value.entries) == FieldNames
    ensures r.Ok? ==> r == FromKwargs(DictToMap(reply.response.json.value.entries))
  {
    match reply
    case Unreachable => Err(ConnectionFailed)
    case Answered(resp) =>
      if !IsOk(resp.status) then Err(HttpStatus(resp.status))
      else match resp.json
        case None => Err(BadJson)
        case Some(body) =>
          match AsMapping(body)
          case Err(e) => Err(e)
          case Ok(kwargs) => FromKwargs(kwargs)
  }

  /** The request `upload_state` sends: the record as `asdict` gives it. */
  function SnapshotPostRequest(url: string, token: Value, name: string, s: EncodedAgentState): (r: Request)
    ensures r.verb == Post && r.url == SnapshotGetRequest(url, token, name).url && r.bearer == Some(token)
    ensures r.body.Json? && r.body.value.VDict? && KeysOf(r.body.value.entries) == FieldNames
  {
    Request(Post, url + "/snapshot/" + name, [], Some(token), Json(VDict(AsDict(s))))
  }

  /** `upload_state` on its reply: an error status raises, and the
      unreachable `return False` never happens. */
  function UploadOutcome(reply: Exchange): (r: Result<bool, Error>)
    ensures r.Ok? <==> reply.Answered? && IsOk(reply.response.status)
    ensures r != Ok(false)
    ensures reply.Answered? && !IsOk(reply.response.status) ==> r == Err(HttpStatus(reply.response.status))
  {
    match reply
    case Unreachable => Err(ConnectionFailed)
    case Answered(resp) => if !IsOk(resp.status) then Err(HttpStatus(resp.status)) else Ok(true)
  }

  /** A server that answers `get_state` with the body `upload_state` posted
      gives back the same record. */
  lemma SnapshotRoundTrip(s: EncodedAgentState, status: int, text: string)
    requires IsOk(status)
    ensures var body := SnapshotPostRequest("", VNone, "", s).body.value;
            GetStateAttempt(Answered(Response(status, text, Some(body)))) == Ok(s)
  {
    RecordRoundTrip(s);
  }

  // ---------------------------------------------------------------------------
  // The retried operations as wholes
  // ---------------------------------------------------------------------------

  /** The outcomes of the attempts of a retried call whose attempt first
      builds its request, which may raise (`failure`) and then sends nothing,
      and then handles the reply to it. */
  function AttemptOutcomes<T>(failure: Option<Error>, handle: Exchange -> Result<T, Error>,
                              replies: seq<Exchange>, budget: nat): (os: seq<Result<T, Error>>)
    ensures |os| == budget
    ensures forall i :: 0 <= i < budget ==>
              os[i] == if failure.Some? then Err(failure.value) else handle(ReplyAt(replies, i))
  {
    seq(budget, i requires 0 <= i < budget => if failure.Some? then Err(failure.value) else handle(ReplyAt(replies, i)))
  }

  /** A call whose every attempt sends its request and whose last attempt
      alone succeeds returns that success, after the whole budget. */
  lemma {:induction false} RecoversOnLastAttempt<T>(handle: Exchange -> Result<T, Error>, replies: seq<Exchange>, budget: nat, reraise: bool)
    requires budget >= 1
    requires forall i :: 0 <= i < budget - 1 ==> handle(ReplyAt(replies, i)).Err?
    requires handle(ReplyAt(replies, budget - 1)).Ok?
    ensures Retry.Retry(AttemptOutcomes(None, handle, replies, budget), reraise) == Retry.Run(handle(ReplyAt(replies, budget - 1)), budget)
  {
    Retry.RetryFirstSuccess(AttemptOutcomes(None, handle, replies, budget), reraise, budget - 1);
  }

  /** A call whose every attempt fails spends the whole budget, and the
      last failure decides the exception. */
  lemma {:induction false} FailsEveryAttempt<T>(failure: Option<Error>, handle: Exchange -> Result<T, Error>, replies: seq<Exchange>, budget: nat, reraise: bool)
    requires budget >= 1
    requires failure.None? ==> forall i :: 0 <= i < budget ==> handle(ReplyAt(replies, i)).Err?
    ensures var os := AttemptOutcomes(failure, handle, replies, budget);
            Retry.Retry(os, reraise) == Retry.Run(Retry.Exhausted(os[budget - 1], reraise), budget)
  {
    Retry.RetryAllFail(AttemptOutcomes(failure, handle, replies, budget), reraise);
  }

  /** Why a request could not be built, if it could not. */
  function Failure(prepared: Result<Request, Error>): Option<Error> {
    if prepared.Err? then Some(prepared.error) else None
  }

  /** `e => ActAttempt(discrete, e)`. */
  function ActHandler(discrete: Option<bool>): Exchange -> Result<Value, Error> {
    e => ActAttempt(discrete, e)
  }

  /** `act` as a whole: three attempts, no reraise. */
  function ActRun(discrete: Option<bool>, replies: seq<Exchange>): (run: Retry.Run<Value>)
    ensures 1 <= run.attempts <= ActBudget
    ensures forall i :: 0 <= i < run.attempts - 1 ==> ActAttempt(discrete, ReplyAt(replies, i)).Err?
    ensures ActAttempt(discrete, ReplyAt(replies, run.attempts - 1)).Ok? ==>
              run.result == ActAttempt(discrete, ReplyAt(replies, run.attempts - 1))
    ensures ActAttempt(discrete, ReplyAt(replies, run.attempts - 1)).Err? ==>
              && run.attempts == ActBudget
              && run.result == Err(RetryExhausted(ActAttempt(discrete, ReplyAt(replies, ActBudget - 1)).error))
  {
    Retry.Retry(AttemptOutcomes(None, ActHandler(discrete), replies, ActBudget), false)
  }

  /** `act` succeeds on the third attempt after two failures, and stops
      there. */
  lemma ActRecoversOnLastAttempt(discrete: Option<bool>, replies: seq<Exchange>)
    requires ActAttempt(discrete, ReplyAt(replies, 0)).Err? && ActAttempt(discrete, ReplyAt(replies, 1)).Err?
    requires ActAttempt(discrete, ReplyAt(replies, 2)).Ok?
    ensures ActRun(discrete, replies) == Retry.Run(ActAttempt(discrete, ReplyAt(replies, 2)), 3)
  {
    RecoversOnLastAttempt(ActHandler(discrete), replies, ActBudget, false);
  }

  /** Three failed `act` attempts surface as the retry wrapper around the
      third failure, not as that failure. */
  lemma ActExhaustedWraps(discrete: Option<bool>, replies: seq<Exchange>)
    requires forall i :: 0 <= i < ActBudget ==> ActAttempt(discrete, ReplyAt(replies, i)).Err?
    ensures ActRun(discrete, replies) == Retry.Run(Err(RetryExhausted(ActAttempt(discrete, ReplyAt(replies, 2)).error)), 3)
  {
    FailsEveryAttempt(None, ActHandler(discrete), replies, ActBudget, false);
  }

  /** Before `create_agent` has set the discrete flag, every `act` attempt
      fails after its request, so `act` spends its whole budget. */
  lemma ActWithoutFlagExhausts(replies: seq<Exchange>)
    ensures ActRun(None, replies).attempts == ActBudget
    ensures ActRun(None, replies).result.Err? && ActRun(None, replies).result.error.RetryExhausted?
  {
    ActExhaustedWraps(None, replies);
  }

  /** The request of a `step` attempt, or why it could not be built. */
  function StepPrepared(url: string, token: Value, name: string, payload: Result<Value, Error>): (r: Result<Request, Error>)
    ensures Failure(r) == PayloadFailure(payload)
  {
    match payload
    case Err(e) => Err(e)
    case Ok(p) => Ok(StepRequest(url, token, name, p))
  }

  /** Why the `step` payload could not be built, if it could not. */
  function PayloadFailure(payload: Result<Value, Error>): Option<Error> {
    if payload.Err? then Some(payload.error) else None
  }

  /** `step` as a whole: ten attempts, no reraise. */
  function StepRun(payload: Result<Value, Error>, replies: seq<Exchange>): (run: Retry.Run<bool>)
    ensures 1 <= run.attempts <= StepBudget
    ensures run.result.Ok? ==> payload.Ok? && run.result == Ok(true)
    ensures run.result.Err? ==> run.attempts == StepBudget && run.result.error.RetryExhausted?
    ensures payload.Ok? ==> forall i :: 0 <= i < run.attempts - 1 ==> StepAttempt(ReplyAt(replies, i)).Err?
    ensures payload.Ok? && StepAttempt(ReplyAt(replies, run.attempts - 1)).Ok? ==> run.result == Ok(true)
    ensures payload.Ok? && StepAttempt(ReplyAt(replies, run.attempts - 1)).Err? ==>
              && run.attempts == StepBudget
              && run.result == Err(RetryExhausted(StepAttempt(ReplyAt(replies, StepBudget - 1)).error))
    ensures payload.Err? ==> run.result == Err(RetryExhausted(payload.error))
  {
    Retry.Retry(AttemptOutcomes(PayloadFailure(payload), StepAttempt, replies, StepBudget), false)
  }

  /** `step` succeeds on its tenth attempt after nine failures. */
  lemma StepRecoversOnLastAttempt(payload: Result<Value, Error>, replies: seq<Exchange>)
    requires payload.Ok?
    requires forall i :: 0 <= i < StepBudget - 1 ==> StepAttempt(ReplyAt(replies, i)).Err?
    requires StepAttempt(ReplyAt(replies, StepBudget - 1)).Ok?
    ensures StepRun(payload, replies) == Retry.Run(Ok(true), StepBudget)
  {
    RecoversOnLastAttempt(StepAttempt, replies, StepBudget, false);
  }

  /** Ten failed `step` attempts surface as the retry wrapper. */
  lemma StepExhaustedWraps(payload: Result<Value, Error>, replies: seq<Exchange>)
    requires payload.Ok?
    requires forall i :: 0 <= i < StepBudget ==> StepAttempt(ReplyAt(replies, i)).Err?
    ensures StepRun(payload, replies) == Retry.Run(Err(RetryExhausted(StepAttempt(ReplyAt(replies, StepBudget - 1)).error)), StepBudget)
  {
    FailsEveryAttempt(PayloadFailure(payload), StepAttempt, replies, StepBudget, false);
  }

  /** A value `to_list` cannot coerce fails every `step` attempt before its
      request: ten attempts, no request, and the retry wrapper. */
  lemma StepBadPayloadExhausts(payload: Result<Value, Error>, replies: seq<Exchange>)
    requires payload.Err?
    ensures StepRun(payload, replies) == Retry.Run(Err(RetryExhausted(payload.error)), StepBudget)
  {
    FailsEveryAttempt(PayloadFailure(payload), StepAttempt, replies, StepBudget, false);
  }

  /** `get_state` as a whole: three attempts, the last error re-raised. */
  function GetStateRun(replies: seq<Exchange>): (run: Retry.Run<EncodedAgentState>)
    ensures 1 <= run.attempts <= GetStateBudget
    ensures forall i :: 0 <= i < run.attempts - 1 ==> GetStateAttempt(ReplyAt(replies, i)).Err?
    ensures run.result == GetStateAttempt(ReplyAt(replies, run.attempts - 1))
    ensures run.result.Err? ==> run.attempts == GetStateBudget
  {
    Retry.Retry(AttemptOutcomes(None, GetStateAttempt, replies, GetStateBudget), true)
  }

  /** `get_state` succeeds on its third attempt after two failures. */
  lemma GetStateRecoversOnLastAttempt(replies: seq<Exchange>)
    requires forall i :: 0 <= i < GetStateBudget - 1 ==> GetStateAttempt(ReplyAt(replies, i)).Err?
    requires GetStateAttempt(ReplyAt(replies, GetStateBudget - 1)).Ok?
    ensures GetStateRun(replies) == Retry.Run(GetStateAttempt(ReplyAt(replies, GetStateBudget - 1)), GetStateBudget)
  {
    RecoversOnLastAttempt(GetStateAttempt, replies, GetStateBudget, true);
  }

  /** Three failed `get_state` attempts re-raise the third failure itself. */
  lemma GetStateReraises(replies: seq<Exchange>)
    requires forall i :: 0 <= i < GetStateBudget ==> GetStateAttempt(ReplyAt(replies, i)).Err?
    ensures GetStateRun(replies) == Retry.Run(GetStateAttempt(ReplyAt(replies, 2)), 3)
  {
    FailsEveryAttempt(None, GetStateAttempt, replies, GetStateBudget, true);
  }
}
