/**
 * The class `RemoteAgent` of ai_traineree_client/remote_agent.py: a proxy
 * for one agent of the Agents Bar service. Its fields are the object's
 * attributes; every method that talks to the service takes the transport
 * `net` (the `requests` module), sends its requests there and is proved
 * equal to the pure decision of module RemoteAgentWire on the replies it got.
 */
module RemoteAgentClient {
  import opened Python
  import opened Http
  import opened TraineereTypes
  import opened RemoteAgentWire
  import Retry

  /** `__login(username, password)`: each credential explicit first, then
      from the environment; either missing raises before any request. */
  method Login(net: Transport, url: string, username: Value, password: Value, env: map<string, string>)
    returns (r: Result<Value, Error>)
    modifies net
    ensures var u := OrEnv(username, env, EnvUser);
            var p := OrEnv(password, env, EnvPass);
            && (u == VNone || p == VNone ==>
                  r == Err(MissingCredentials) && net.sent == old(net.sent) && net.replies == old(net.replies))
            && (u != VNone && p != VNone ==>
                  && r == LoginOutcome(u, ReplyAt(old(net.replies), 0))
                  && net.sent == old(net.sent) + [LoginRequest(url, u, p)]
                  && net.replies == Drop(old(net.replies), 1))
  {
    var u := OrEnv(username, env, EnvUser);
    var p := OrEnv(password, env, EnvPass);
    if u == VNone || p == VNone {
      return Err(MissingCredentials);
    }
    var reply := net.Send(LoginRequest(url, u, p));
    r := LoginOutcome(u, reply);
  }

  /** `get_access_token(username, password, access_token)`. */
  method GetAccessToken(net: Transport, url: string, accessToken: Value, username: Value, password: Value, env: map<string, string>)
    returns (r: Result<Value, Error>)
    modifies net
    ensures var plan := PlanToken(accessToken, username, password, env);
            && r == TokenOutcome(plan, ReplyAt(old(net.replies), 0))
            && net.sent == old(net.sent) + (if plan.LogIn? then [LoginRequest(url, plan.username, plan.password)] else [])
            && net.replies == Drop(old(net.replies), if plan.LogIn? then 1 else 0)
  {
    var token := OrEnv(accessToken, env, EnvAccessToken);
    if token != VNone {
      return Ok(token);
    }
    r := Login(net, url, username, password, env);
  }

  /** A call decorated with `retry(stop=stop_after_attempt(budget))`: each
      attempt builds its request (`prepared`, the same every time), sends
      it and handles the reply, until an attempt succeeds or the budget is
      spent. */
  method Attempts<T>(net: Transport, prepared: Result<Request, Error>, handle: Exchange -> Result<T, Error>,
                     budget: nat, reraise: bool)
    returns (r: Result<T, Error>)
    requires budget >= 1
    modifies net
    ensures var run := Retry.Retry(AttemptOutcomes(Failure(prepared), handle, old(net.replies), budget), reraise);
            && r == run.result
            && net.sent == old(net.sent) + (if prepared.Ok? then Repeat(prepared.value, run.attempts) else [])
            && net.replies == Drop(old(net.replies), if prepared.Ok? then run.attempts else 0)
  {
    ghost var replies0 := net.replies;
    ghost var sent0 := net.sent;
    ghost var os := AttemptOutcomes(Failure(prepared), handle, replies0, budget);
    var k: nat := 0;
    while true
      invariant k < budget
      invariant forall i :: 0 <= i < k ==> os[i].Err?
      invariant net.sent == sent0 + (if prepared.Ok? then Repeat(prepared.value, k) else [])
      invariant net.replies == Drop(replies0, if prepared.Ok? then k else 0)
      decreases budget - k
    {
      var outcome: Result<T, Error>;
      if prepared.Err? {
        outcome := Err(prepared.error);
      } else {
        var reply := net.Send(prepared.value);
        outcome := handle(reply);
        DropTwice(replies0, k, 1);
        assert Repeat(prepared.value, k) + [prepared.value] == Repeat(prepared.value, k + 1);
      }
      assert outcome == os[k];
      if outcome.Ok? {
        Retry.RetryFirstSuccess(os, reraise, k);
        return outcome;
      }
      if k + 1 == budget {
        Retry.RetryAllFail(os, reraise);
        return Retry.Exhausted(outcome, reraise);
      }
      k := k + 1;
    }
  }

  class RemoteAgent {
    /** the API base URL, scheme and `/api/v1` included */
    const url: string
    /** the bearer token of every request's `Authorization` header */
    const token: Value
    const agentName: string
    const description: string
    /** `_config`: the keyword arguments without the credentials, then
        whatever `create_agent` and `sync` write into it */
    var config: map<string, Value>
    /** `_state_size`, `_action_size`, `_agent_model`; VNone when unknown */
    var stateSize: Value
    var actionSize: Value
    var agentModel: Value
    /** `_discrete`: None while the attribute has never been assigned */
    var discrete: Option<bool>

    /** The attribute assignments of `__init__` once the URL and the token
        are known; `kwargs` still holds the credentials, which are left out. */
    constructor (url: string, token: Value, agentName: string, description: string, kwargs: map<string, Value>)
      ensures this.url == url && this.token == token
      ensures this.agentName == agentName && this.description == description
      ensures View() == Cache(ConstructorConfig(kwargs), DictGet(kwargs, "state_size"),
                              DictGet(kwargs, "action_size"), DictGet(kwargs, "agent_model"))
      ensures discrete.None?
    {
      this.url := url;
      this.token := token;
      config := ConstructorConfig(kwargs);
      stateSize := DictGet(kwargs, "state_size");
      actionSize := DictGet(kwargs, "action_size");
      agentModel := DictGet(kwargs, "agent_model");
      discrete := None;
      this.agentName := agentName;
      this.description := description;
    }

    /** The cached view of the remote agent. */
    function View(): Cache
      reads this
    {
      Cache(config, stateSize, actionSize, agentModel)
    }

    /** `info()`: one read of the agent; the body whatever the status. */
    method Info(net: Transport) returns (r: Result<Value, Error>)
      modifies net
      ensures r == InfoOutcome(ReplyAt(old(net.replies), 0))
      ensures net.sent == old(net.sent) + [AgentRequest(url, token, agentName)]
      ensures net.replies == Drop(old(net.replies), 1)
    {
      var reply := net.Send(AgentRequest(url, token, agentName));
      r := InfoOutcome(reply);
    }

    /** `sync()`: one read of the agent, then the rest of the statements. */
    method Sync(net: Transport) returns (r: Result<(), Error>)
      modifies this, net
      ensures (View(), r) == SyncOutcome(old(View()), ReplyAt(old(net.replies), 0))
      ensures discrete == old(discrete)
      ensures net.sent == old(net.sent) + [AgentRequest(url, token, agentName)]
      ensures net.replies == Drop(old(net.replies), 1)
    {
      var agent := Info(net);
      if agent.Err? {
        return Err(agent.error);
      }
      r := SyncFromAgent(agent.value);
    }

    /** The statements of `sync()` after `info()`: the config merged, then
        the rest; a failing step leaves the earlier assignments in place. */
    method SyncFromAgent(agent: Value) returns (r: Result<(), Error>)
      modifies this
      ensures (View(), r) == SyncFrom(old(View()), agent)
      ensures discrete == old(discrete)
    {
      var remote := Subscript(agent, "config");
      if remote.Err? {
        return Err(remote.error);
      }
      var update := AsMapping(remote.value);
      if update.Err? {
        return Err(update.error);
      }
      config := Merge(config, update.value);
      r := AssignFromAgent(remote.value, agent);
    }

    /** The sizes assigned from the remote config, then the model. */
    method AssignFromAgent(remote: Value, agent: Value) returns (r: Result<(), Error>)
      modifies this
      ensures (View(), r) == AssignFrom(old(View()), remote, agent)
      ensures discrete == old(discrete)
    {
      var s := Subscript(remote, "state_size");
      if s.Err? {
        return Err(s.error);
      }
      stateSize := s.value;
      var a := Subscript(remote, "action_size");
      if a.Err? {
        return Err(a.error);
      }
      actionSize := a.value;
      var model := Subscript(agent, "model");
      if model.Err? {
        return Err(model.error);
      }
      agentModel := model.value;
      r := Ok(());
    }

    /** The properties `state_size`, `action_size` and `agent_model`: the
        cached value with no request when it is known, else `sync()` first. */
    method Cached(net: Transport, f: CachedField) returns (r: Result<Value, Error>)
      modifies this, net
      ensures (View(), r) == CachedOutcome(old(View()), f, ReplyAt(old(net.replies), 0))
      ensures discrete == old(discrete)
      ensures net.sent == old(net.sent) + (if old(View()).Get(f) == VNone then [AgentRequest(url, token, agentName)] else [])
      ensures net.replies == Drop(old(net.replies), if old(View()).Get(f) == VNone then 1 else 0)
    {
      if View().Get(f) == VNone {
        var s := Sync(net);
        if s.Err? {
          return Err(s.error);
        }
      }
      r := Ok(View().Get(f));
    }

    /** `create_agent(state_size, action_size, agent_model)` as intended: the
        model is validated before anything else, then recorded with its
        discrete flag, the sizes are written into the config, and one
        creation request carries the config. */
    method CreateAgent(net: Transport, givenStateSize: Value, givenActionSize: Value, givenModel: Value)
      returns (r: Result<Value, Error>)
      modifies this, net
      ensures ValidateModel(givenModel).Err? ==>
                && r == Err(ValidateModel(givenModel).error)
                && View() == old(View()) && discrete == old(discrete)
                && net.sent == old(net.sent) && net.replies == old(net.replies)
      ensures ValidateModel(givenModel).Ok? ==>
                && View() == old(View()).(config := CreatedConfig(old(config), givenStateSize, givenActionSize),
                                          agentModel := givenModel)
                && discrete == Some(IsDiscreteModel(givenModel.s))
                && r == CreateOutcome(ReplyAt(old(net.replies), 0))
                && net.sent == old(net.sent) + [CreateRequest(url, token, agentName, givenModel, description, config)]
                && net.replies == Drop(old(net.replies), 1)
    {
      var valid := ValidateModel(givenModel);
      if valid.Err? {
        return Err(valid.error);
      }
      agentModel := givenModel;
      discrete := Some(Lower(agentModel.s) in DiscreteModels);
      config := config["state_size" := givenStateSize];
      config := config["action_size" := givenActionSize];
      var reply := net.Send(CreateRequest(url, token, agentName, agentModel, description, config));
      r := CreateOutcome(reply);
    }

    /** `create_agent` as the source writes it: the assignment to the
        read-only property `agent_model` raises right after validation, so
        nothing is changed and nothing is sent. */
    method CreateAgentAsWritten(givenStateSize: Value, givenActionSize: Value, givenModel: Value)
      returns (r: Result<Value, Error>)
      ensures r == CreateAgentAsWrittenOutcome(givenModel)
      ensures ValidateModel(givenModel).Ok? ==> r == Err(NoSetter("agent_model"))
    {
      var valid := ValidateModel(givenModel);
      if valid.Err? {
        return Err(valid.error);
      }
      r := Err(NoSetter("agent_model"));
    }

    /** `remove(agent_name=given, quite=quite)`. */
    method Remove(net: Transport, given: Value, quite: bool := true) returns (r: Result<bool, Error>)
      modifies net
      ensures r == RemoveOutcome(agentName, given, quite, ReplyAt(old(net.replies), 0))
      ensures net.sent == old(net.sent) + (if RemoveConfirmed(agentName, given) then [DeleteRequest(url, token, agentName)] else [])
      ensures net.replies == Drop(old(net.replies), if RemoveConfirmed(agentName, given) then 1 else 0)
    {
      if given == VNone || given != VStr(agentName) {
        if quite {
          return Ok(false);
        }
        return Err(DeletionNotConfirmed);
      }
      var reply := net.Send(DeleteRequest(url, token, agentName));
      r := RemoveOutcome(agentName, given, quite, reply);
    }

    /** The property `exists`. */
    method Exists(net: Transport) returns (r: Result<bool, Error>)
      modifies net
      ensures r == ExistsOutcome(ReplyAt(old(net.replies), 0))
      ensures net.sent == old(net.sent) + [AgentRequest(url, token, agentName)]
      ensures net.replies == Drop(old(net.replies), 1)
    {
      var reply := net.Send(AgentRequest(url, token, agentName));
      r := ExistsOutcome(reply);
    }

    /** The property `is_active`. */
    method IsActive(net: Transport) returns (r: Result<Value, Error>)
      modifies net
      ensures r == IsActiveOutcome(ReplyAt(old(net.replies), 0))
      ensures net.sent == old(net.sent) + [AgentRequest(url, token, agentName)]
      ensures net.replies == Drop(old(net.replies), 1)
    {
      var reply := net.Send(AgentRequest(url, token, agentName));
      r := IsActiveOutcome(reply);
    }

    /** The property `hparams`; it only reads the config. */
    function HParamsOf(render: Value -> string): (h: map<string, Value>)
      reads this
      ensures h.Keys == config.Keys
    {
      HParams(config, render)
    }

    /** `act(state, noise)`: up to three attempts of the same request. */
    method Act(net: Transport, state: Value, noise: Value := VInt(0)) returns (r: Result<Value, Error>)
      modifies net
      ensures var run := ActRun(discrete, old(net.replies));
              && r == run.result
              && net.sent == old(net.sent) + Repeat(ActRequest(url, token, agentName, state, noise), run.attempts)
              && net.replies == Drop(old(net.replies), run.attempts)
    {
      r := Attempts(net, Ok(ActRequest(url, token, agentName, state, noise)), ActHandler(discrete), ActBudget, false);
    }

    /** `step(state, action, reward, next_state, done)`: up to ten attempts;
        a payload `to_list` cannot build fails every attempt before its
        request. */
    method Step(net: Transport, state: Value, action: Value, reward: Value, nextState: Value, done: Value)
      returns (r: Result<bool, Error>)
      modifies net
      ensures var payload := StepPayload(state, action, reward, nextState, done);
              var run := StepRun(payload, old(net.replies));
              && r == run.result
              && (payload.Err? ==> net.sent == old(net.sent) && net.replies == old(net.replies))
              && (payload.Ok? ==>
                    && net.sent == old(net.sent) + Repeat(StepRequest(url, token, agentName, payload.value), run.attempts)
                    && net.replies == Drop(old(net.replies), run.attempts))
    {
      var payload := StepPayload(state, action, reward, nextState, done);
      r := Attempts(net, StepPrepared(url, token, agentName, payload), StepAttempt, StepBudget, false);
    }

    /** `get_state()`: up to three attempts, the last error re-raised. */
    method GetState(net: Transport) returns (r: Result<EncodedAgentState, Error>)
      modifies net
      ensures var run := GetStateRun(old(net.replies));
              && r == run.result
              && net.sent == old(net.sent) + Repeat(SnapshotGetRequest(url, token, agentName), run.attempts)
              && net.replies == Drop(old(net.replies), run.attempts)
    {
      r := Attempts(net, Ok(SnapshotGetRequest(url, token, agentName)), GetStateAttempt, GetStateBudget, true);
    }

    /** `upload_state(state)`: one request carrying `asdict(state)`. */
    method UploadState(net: Transport, s: EncodedAgentState) returns (r: Result<bool, Error>)
      modifies net
      ensures r == UploadOutcome(ReplyAt(old(net.replies), 0))
      ensures net.sent == old(net.sent) + [SnapshotPostRequest(url, token, agentName, s)]
      ensures net.replies == Drop(old(net.replies), 1)
    {
      var reply := net.Send(SnapshotPostRequest(url, token, agentName, s));
      r := UploadOutcome(reply);
    }
  }

  /** `RemoteAgent(agent_name, description, **kwargs)`: the URL is parsed
      first, then the token is resolved from the popped credentials (which
      may log in), then the attributes are assigned. Python binds the
      keywords `agent_name` and `description` to the named parameters, so
      they never reach `kwargs`. */
  method NewRemoteAgent(net: Transport, agentName: string, kwargs: map<string, Value>, env: map<string, string>,
                        description: string := "")
    returns (r: Result<RemoteAgent, Error>)
    requires "agent_name" !in kwargs && "description" !in kwargs
    modifies net
    ensures ParseUrl(kwargs).Err? ==>
              r == Err(ParseUrl(kwargs).error) && net.sent == old(net.sent) && net.replies == old(net.replies)
    ensures ParseUrl(kwargs).Ok? ==>
              var url := ParseUrl(kwargs).value;
              var plan := PlanToken(DictGet(kwargs, "access_token"), DictGet(kwargs, "username"),
                                    DictGet(kwargs, "password"), env);
              var token := TokenOutcome(plan, ReplyAt(old(net.replies), 0));
              && net.sent == old(net.sent) + (if plan.LogIn? then [LoginRequest(url, plan.username, plan.password)] else [])
              && net.replies == Drop(old(net.replies), if plan.LogIn? then 1 else 0)
              && (token.Err? ==> r == Err(token.error))
              && (token.Ok? ==>
                    && r.Ok? && fresh(r.value)
                    && r.value.url == url && r.value.token == token.value
                    && r.value.agentName == agentName && r.value.description == description
                    && r.value.View() == Cache(ConstructorConfig(kwargs), DictGet(kwargs, "state_size"),
                                               DictGet(kwargs, "action_size"), DictGet(kwargs, "agent_model"))
                    && r.value.discrete.None?)
  {
    var url := ParseUrl(kwargs);
    if url.Err? {
      return Err(url.error);
    }
    var token := GetAccessToken(net, url.value, DictGet(kwargs, "access_token"), DictGet(kwargs, "username"),
                                DictGet(kwargs, "password"), env);
    if token.Err? {
      return Err(token.error);
    }
    var agent := new RemoteAgent(url.value, token.value, agentName, description, kwargs);
    r := Ok(agent);
  }
}
