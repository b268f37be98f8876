# Agents Bar client: a verified model

This project models the core of the Python client for the Agents Bar
service, a hosted reinforcement-learning service. The core has three parts.
First, `RemoteAgent` (ai_traineree_client/remote_agent.py), a proxy for one
agent running on the service. It covers:

- normalising the service URL;
- obtaining an access token (explicit, from the environment, or by logging in);
- creating, removing and inspecting the agent;
- caching the agent's sizes and model, filled from the server on demand by `sync`;
- the retried calls `act`, `step` and `get_state`, plus `upload_state`.

Second, the helpers of both packages: the pollers that wait until an agent
(or environment, or experiment) exists or is active, `to_list`, and the HTTP
error check. Third, the dataclass records the two packages exchange with the
service.

Module layout:

- `Python`: the JSON-like values the client handles, the built-ins it relies on, and its exceptions as `Error`.
- `Http`: responses and requests, and a `Transport` class. It holds the script of replies the next requests will get and the log of requests sent.
- `Retry`: the `tenacity` policy `retry(stop=stop_after_attempt(n), reraise=...)`.
- `Dataclass`: keyword construction and `asdict` of a dataclass.
- `TraineereTypes`, `AgentsBarTypes`: the records of the two `types.py` files.
- `Polling`, `TraineereUtils`, `AgentsBarUtils`: the pollers (as a trace of probes and sleeps), `to_list` and `response_raise_error_if_any`.
- `RemoteAgentWire`: every pure decision of `RemoteAgent`, such as URL and token planning, validation, request and payload construction, and what each operation makes of a reply, with the whole-run outcome of each retried call.
- `RemoteAgentClient`: the class `RemoteAgent` itself, with its attributes as fields. Each method sends its requests on a `Transport`, and its `ensures` ties the result, the new fields and the requests sent to the functions of `RemoteAgentWire`.

## Model

| member | source | states |
|---|---|---|
| RemoteAgentWire.WithScheme | ai_traineree_client/remote_agent.py:81-82 | the result always starts with "http" in some case; the URL is unchanged exactly when it already did, else "https://" is put in front |
| RemoteAgentWire.HasHttpPrefix | ai_traineree_client/remote_agent.py:81 | the test holds exactly when the URL has at least four characters and their lowercase form is "http" |
| RemoteAgentWire.WithSchemeIdempotent | ai_traineree_client/remote_agent.py:81-82 | normalising a URL twice is normalising it once |
| RemoteAgentWire.ParseUrl | ai_traineree_client/remote_agent.py:79-83 | succeeds exactly when the `url` argument (default "https://agents.bar") is a string; then the result has a scheme and ends in "/api/v1"; a non-string raises |
| RemoteAgentWire.ParseUrlDefault | ai_traineree_client/remote_agent.py:23 | with no `url` keyword the base URL is "https://agents.bar/api/v1" |
| RemoteAgentWire.NoHttpPrefix | ai_traineree_client/remote_agent.py:81 | a URL whose first character is not "h"/"H" has no scheme of its own |
| RemoteAgentWire.ParseUrlBareHost | ai_traineree_client/remote_agent.py:81-83 | any bare host not starting with "h" gets "https://" in front and "/api/v1" behind |
| RemoteAgentWire.ParseUrlUpperScheme | ai_traineree_client/remote_agent.py:81 | the scheme test ignores case: "HTTP://..." is kept as written |
| RemoteAgentWire.OrEnv | ai_traineree_client/remote_agent.py:89 | an explicit value wins; otherwise the environment variable, or None when it is unset |
| RemoteAgentWire.LoginOutcome | ai_traineree_client/remote_agent.py:102-109 | a status of 300 or more is a rejection naming the user and carrying the server text; success exactly when the status is below 300 and the body has `access_token`, which is then the token |
| RemoteAgentWire.LoginRequest | ai_traineree_client/remote_agent.py:101-102 | the login is a POST to "/login/access-token" under the base URL, with no Authorization header, whose form maps `username` and `password` to the resolved credentials |
| RemoteAgentWire.PlanToken | ai_traineree_client/remote_agent.py:85-98 | an explicit token, else the environment's, is used with no request; a login is planned exactly when there is no token and both credentials resolve (explicit first, then environment); otherwise no credentials |
| RemoteAgentWire.TokenOutcome | ai_traineree_client/remote_agent.py:85-109 | a planned token is the result, a missing credential raises, a login yields what the login reply gives |
| RemoteAgentWire.ExplicitTokenWins | ai_traineree_client/remote_agent.py:89-92 | an explicit access token is the token whatever the environment and the server say |
| RemoteAgentClient.Login | ai_traineree_client/remote_agent.py:94-109 | a missing credential raises with no request; otherwise exactly one login form is posted and the result is the login outcome of its reply |
| RemoteAgentClient.GetAccessToken | ai_traineree_client/remote_agent.py:85-92 | the result is the outcome of the token plan; a login request is sent exactly when the plan is to log in |
| RemoteAgentWire.ConstructorConfig | ai_traineree_client/remote_agent.py:42-49 | the config starts as the keyword arguments minus the three credentials, each value kept |
| RemoteAgentWire.CredentialsNotInConfig | ai_traineree_client/remote_agent.py:41-49 | no credential reaches the config, and every other keyword does |
| RemoteAgentClient.RemoteAgent.constructor | ai_traineree_client/remote_agent.py:46-58 | URL, token, name and description are stored; the cache is the popped config plus `state_size`, `action_size` and `agent_model` from the keywords (None when absent); `_discrete` is unset |
| RemoteAgentClient.NewRemoteAgent | ai_traineree_client/remote_agent.py:26-58 | a bad URL raises before any request; otherwise the token is resolved (one login request exactly when planned), its failure raises, and on success a fresh agent holds the parsed URL, the token and the initial cache; `kwargs` never holds `agent_name` or `description`, which Python binds to the named parameters |
| RemoteAgentWire.Merge | ai_traineree_client/remote_agent.py:214 | `dict.update`: remote values overwrite, other local keys are kept, the keys are the union |
| RemoteAgentWire.MergeIdempotent | ai_traineree_client/remote_agent.py:214 | merging the same remote config twice is merging it once |
| RemoteAgentWire.InfoOutcome | ai_traineree_client/remote_agent.py:205-208 | the parsed body whatever the status; an answer that is not JSON raises |
| RemoteAgentWire.AgentRequest | ai_traineree_client/remote_agent.py:207 | the read of the agent is an authenticated GET of "/agents/<name>" under the base URL, with no query and no body |
| RemoteAgentClient.RemoteAgent.Info | ai_traineree_client/remote_agent.py:205-208 | one read of the agent, whose result is the info outcome of its reply |
| RemoteAgentWire.SyncFrom | ai_traineree_client/remote_agent.py:214-217 | succeeds exactly when the description has a `config` object with both sizes and a `model`, and the new cache is then the merged config, the remote sizes and the model; a failure never changes the model, and changes nothing when `config` is not an object |
| RemoteAgentWire.AssignFrom | ai_traineree_client/remote_agent.py:215-217 | succeeds exactly when both sizes and the model are present and then assigns them; a failure keeps the config and the model |
| RemoteAgentWire.SyncOutcome | ai_traineree_client/remote_agent.py:210-217 | succeeds exactly when the reply is JSON describing the agent fully, with the new cache as above; a failed read changes nothing |
| RemoteAgentClient.RemoteAgent.Sync | ai_traineree_client/remote_agent.py:210-217 | one read of the agent; the new cache and the result are the sync outcome of its reply; `_discrete` is untouched |
| RemoteAgentClient.RemoteAgent.SyncFromAgent | ai_traineree_client/remote_agent.py:214-217 | the fields after the statements of `sync` that follow `info()`, as `SyncFrom` says |
| RemoteAgentClient.RemoteAgent.AssignFromAgent | ai_traineree_client/remote_agent.py:215-217 | the fields after the three assignments, as `AssignFrom` says |
| RemoteAgentWire.CachedOutcome | ai_traineree_client/remote_agent.py:60-76 | a known attribute is returned with the cache unchanged and no request; an unknown one is synced first, and then the accessor returns what the synced cache holds when the sync succeeds and raises the sync's own error when it fails |
| RemoteAgentClient.RemoteAgent.Cached | ai_traineree_client/remote_agent.py:60-76 | the properties `state_size`, `action_size`, `agent_model`: no request when the value is known, exactly one read otherwise; the result and the cache are as `CachedOutcome` says |
| RemoteAgentWire.SyncFillsAll | ai_traineree_client/remote_agent.py:60-76 | after an access that synced, any attribute the server described is served from the cache with no request |
| RemoteAgentWire.SyncMerges | ai_traineree_client/remote_agent.py:214 | after a successful sync every remote config value is in the config, local keys the server does not mention keep their values, and nothing else is added |
| RemoteAgentWire.ValidateModel | ai_traineree_client/remote_agent.py:186-189 | accepted exactly when the model is a string whose lowercase form is one of dqn, ppo, ddpg, rainbow; otherwise a ValueError naming it, or a failure for a non-string |
| RemoteAgentWire.LowerIdempotent | ai_traineree_client/remote_agent.py:188 | lowercasing twice is lowercasing once |
| RemoteAgentWire.ValidationIgnoresCase | ai_traineree_client/remote_agent.py:188 | a model name is accepted exactly when its lowercase form is |
| RemoteAgentWire.DiscreteIsSupported | ai_traineree_client/remote_agent.py:136 | every model the client treats as discrete (dqn, rainbow) passes validation |
| RemoteAgentWire.IsDiscreteModel | ai_traineree_client/remote_agent.py:136 | a model is discrete exactly when its lowercase name is "dqn" or "rainbow", and every discrete model is a supported one |
| RemoteAgentWire.CreatedConfig | ai_traineree_client/remote_agent.py:137-138 | the config gains the two sizes the caller gave; every other key keeps its value |
| RemoteAgentWire.CreatePayloadSizes | ai_traineree_client/remote_agent.py:137-141 | the creation payload carries the caller's sizes, whatever the config held before |
| RemoteAgentWire.CreateRequest | ai_traineree_client/remote_agent.py:140-141 | creation is an authenticated POST to "/agents/" whose body carries the agent's name, the model, the description and the config |
| RemoteAgentWire.CreateOutcome | ai_traineree_client/remote_agent.py:141-144 | success exactly when the status is below 300 and the body is JSON, and then the body is the result; a status of 300 or more raises with the body |
| RemoteAgentClient.RemoteAgent.CreateAgent | ai_traineree_client/remote_agent.py:111-144 | an invalid model raises with nothing changed or sent; otherwise the model is recorded with its discrete flag, the sizes go into the config, exactly one creation request carries that config, and the result is the creation outcome |
| RemoteAgentClient.RemoteAgent.CreateAgentAsWritten | ai_traineree_client/remote_agent.py:134-135 | as written, every valid model fails with an AttributeError on `agent_model` and nothing is sent |
| RemoteAgentWire.CreateAgentAsWrittenOutcome | ai_traineree_client/remote_agent.py:134-135 | the as-written `create_agent` always fails, validation errors first, then the missing setter |
| RemoteAgentWire.CreateAgentAsWrittenFailsForDqn | ai_traineree_client/remote_agent.py:135 | creating a "dqn" agent fails locally even though the server's reply would be a success |
| RemoteAgentWire.RemoveOutcome | ai_traineree_client/remote_agent.py:146-170 | an unconfirmed name answers False when quiet and raises otherwise; a confirmed one answers True exactly on a status below 300 and raises with the server text on 300 or more; False only ever means a quiet refusal |
| RemoteAgentWire.DeleteRequest | ai_traineree_client/remote_agent.py:167 | removal is an authenticated DELETE of the same URL the agent is read from, with no body |
| RemoteAgentClient.RemoteAgent.Remove | ai_traineree_client/remote_agent.py:146-170 | a delete request is sent exactly when the name is confirmed, and the result is the removal outcome |
| RemoteAgentWire.ExistsOutcome | ai_traineree_client/remote_agent.py:172-176 | any answer tells, and the answer is True exactly when the status is not 4xx/5xx |
| RemoteAgentClient.RemoteAgent.Exists | ai_traineree_client/remote_agent.py:172-176 | one read of the agent, with the result as `ExistsOutcome` says |
| RemoteAgentWire.IsActiveOutcome | ai_traineree_client/remote_agent.py:178-184 | an error status raises it; success exactly when the body is JSON with `is_active`, whose value is returned as it is |
| RemoteAgentClient.RemoteAgent.IsActive | ai_traineree_client/remote_agent.py:178-184 | one read of the agent, with the result as `IsActiveOutcome` says |
| RemoteAgentWire.ActiveImpliesExists | ai_traineree_client/remote_agent.py:172-184 | on the same reply, an answer from `is_active` means `exists` is True, and `exists` being False means `is_active` raises |
| RemoteAgentWire.HParams | ai_traineree_client/remote_agent.py:191-203 | the same keys as the config; numbers (bools included) kept, every other value replaced by its string; every value is a number or a string |
| RemoteAgentWire.HParamsIdempotent | ai_traineree_client/remote_agent.py:197-203 | the hyperparameters of the hyperparameters are the same hyperparameters |
| RemoteAgentClient.RemoteAgent.HParamsOf | ai_traineree_client/remote_agent.py:191-203 | the property only reads the config and has exactly its keys |
| RemoteAgentWire.UnwrapAction | ai_traineree_client/remote_agent.py:273-275 | a continuous agent returns the action as it is; a discrete one returns `int()` of the action's first item exactly when both the indexing and the conversion succeed, and otherwise raises the error of whichever failed |
| RemoteAgentWire.ActAttempt | ai_traineree_client/remote_agent.py:266-275 | no response or an error status raises; on an ok JSON reply the result is the body's missing-`action` error, else the unset-`_discrete` error, else exactly the unwrapped action; a body that is not JSON raises |
| RemoteAgentWire.ActRequest | ai_traineree_client/remote_agent.py:266-268 | one `act` attempt is an authenticated POST to the agent's URL plus "/act", with `noise` in the query and the state as the JSON body |
| RemoteAgentWire.ActExamples | ai_traineree_client/remote_agent.py:260-275 | a discrete agent answered {"action": [2]} acts 2; a continuous one acts the list unchanged |
| Python.ParseInt | ai_traineree_client/remote_agent.py:274 | `int()` of a string succeeds exactly when, with surrounding whitespace stripped, it is an optional sign followed by at least one ASCII digit, and then gives that signed number; anything else raises the conversion error |
| Python.ParseIntIgnoresSpace | ai_traineree_client/remote_agent.py:274 | whitespace around any integer literal does not change its number, so a discrete agent acts 2 on an action `[" 2"]` |
| Python.ParseIntSigned | ai_traineree_client/remote_agent.py:274 | a sign and whitespace are accepted: `int(" -5\n") == -5` |
| Python.ParseIntRefusesBareSign | ai_traineree_client/remote_agent.py:274 | a sign with no digit raises: `int("-")` |
| Python.ParseIntRefusesLetters | ai_traineree_client/remote_agent.py:274 | a non-numeric string raises: `int("abc")` |
| RemoteAgentWire.StepPayload | ai_traineree_client/remote_agent.py:292-296 | built exactly when `to_list` accepts the state, next state and action; the body is `{"step_data": ...}` with those three coerced and reward and done as given |
| RemoteAgentWire.StepDataMap | ai_traineree_client/remote_agent.py:292-295 | the five members of `step_data` have distinct keys, so each keeps its own value |
| RemoteAgentWire.StepAttempt | ai_traineree_client/remote_agent.py:298-303 | True exactly when the status is not an error; an error status raises it, and False is never returned |
| RemoteAgentWire.StepRequest | ai_traineree_client/remote_agent.py:298-299 | one `step` attempt is an authenticated POST to the agent's URL plus "/step" with the payload as the JSON body |
| RemoteAgentWire.StepPrepared | ai_traineree_client/remote_agent.py:292-299 | a `step` request can be built exactly when the payload can, and fails for the payload's reason |
| RemoteAgentWire.GetStateAttempt | ai_traineree_client/remote_agent.py:229-233 | an error status raises it; success exactly when the body is a JSON object whose keys are the six field names, and then the record built from it |
| RemoteAgentWire.SnapshotGetRequest | ai_traineree_client/remote_agent.py:229 | the snapshot read is an authenticated GET of "/snapshot/<name>" under the base URL, with no body |
| RemoteAgentWire.UploadOutcome | ai_traineree_client/remote_agent.py:246-250 | True exactly when the status is not an error; an error status raises, and False is never returned |
| RemoteAgentWire.SnapshotPostRequest | ai_traineree_client/remote_agent.py:245-246 | the upload is an authenticated POST to the same URL the snapshot is read from, whose JSON body is an object with exactly the six field names |
| RemoteAgentWire.SnapshotRoundTrip | ai_traineree_client/remote_agent.py:229-250 | a server that answers `get_state` with the body `upload_state` posted gives back the same record |
| RemoteAgentClient.RemoteAgent.UploadState | ai_traineree_client/remote_agent.py:235-250 | exactly one post carrying `asdict(state)`, with the result as `UploadOutcome` says |
| Retry.Retry | ai_traineree_client/remote_agent.py:219 | between one attempt and the whole budget are made; every attempt before the last made failed; a success is that attempt's result; a failing last attempt means the budget is spent and the exhaustion error is raised |
| Retry.RetryFirstSuccess | ai_traineree_client/remote_agent.py:252 | the first successful attempt is the result, and no attempt is made after it |
| Retry.RetryAllFail | ai_traineree_client/remote_agent.py:219 | when every attempt fails the whole budget is used, and the last failure is re-raised or wrapped |
| Retry.RetrySucceedsIff | ai_traineree_client/remote_agent.py:277 | the call succeeds exactly when some attempt within the budget succeeds |
| RemoteAgentWire.AttemptOutcomes | ai_traineree_client/remote_agent.py:252-275 | attempt i fails for the request's own reason when the request cannot be built, and otherwise is the handling of the i-th reply |
| RemoteAgentWire.RecoversOnLastAttempt | ai_traineree_client/remote_agent.py:277 | a call whose only successful attempt is the last returns it after the whole budget |
| RemoteAgentWire.FailsEveryAttempt | ai_traineree_client/remote_agent.py:219 | a call whose every attempt fails spends the whole budget and ends with the last failure, re-raised or wrapped |
| RemoteAgentClient.Attempts | ai_traineree_client/remote_agent.py:252-303 | the loop returns the retry policy's result on the attempt outcomes; it sends one request per attempt made (none when the request cannot be built) and consumes exactly those replies |
| RemoteAgentWire.ActRecoversOnLastAttempt | ai_traineree_client/remote_agent.py:252-275 | `act` succeeds on its third attempt after two failures and stops there |
| RemoteAgentWire.ActExhaustedWraps | ai_traineree_client/remote_agent.py:252 | three failed `act` attempts surface as the retry wrapper around the third failure |
| RemoteAgentWire.ActWithoutFlagExhausts | ai_traineree_client/remote_agent.py:273 | before `create_agent` sets the discrete flag `act` always makes all three attempts and raises the retry wrapper |
| RemoteAgentWire.ActRun | ai_traineree_client/remote_agent.py:252-275 | `act` as a whole makes one to three attempts, all but the last failed; a successful last attempt is the result, and a failed one means all three were made and the retry wrapper around the third failure is raised |
| RemoteAgentClient.RemoteAgent.Act | ai_traineree_client/remote_agent.py:252-275 | the result is the three-attempt run of `act`; the same request (state as JSON, `noise` in the query) is sent once per attempt made |
| RemoteAgentWire.StepRecoversOnLastAttempt | ai_traineree_client/remote_agent.py:277-303 | `step` succeeds with True on its tenth attempt after nine failures |
| RemoteAgentWire.StepExhaustedWraps | ai_traineree_client/remote_agent.py:277 | ten failed `step` attempts surface as the retry wrapper around the tenth failure |
| RemoteAgentWire.StepBadPayloadExhausts | ai_traineree_client/remote_agent.py:277-296 | a value `to_list` cannot coerce fails all ten attempts and ends in the retry wrapper around that error |
| RemoteAgentWire.StepRun | ai_traineree_client/remote_agent.py:277-303 | `step` as a whole makes one to ten attempts. With a payload that builds, every attempt before the last failed, a successful last attempt makes the result True, and a failed last attempt means all ten were made and the wrapper around the tenth failure is raised. A payload that cannot be built raises the wrapper around its error |
| RemoteAgentClient.RemoteAgent.Step | ai_traineree_client/remote_agent.py:277-303 | the result is the ten-attempt run of `step`; with a bad payload no request is sent, otherwise the same request is sent once per attempt made |
| RemoteAgentWire.GetStateRecoversOnLastAttempt | ai_traineree_client/remote_agent.py:219-233 | `get_state` succeeds on its third attempt after two failures |
| RemoteAgentWire.GetStateReraises | ai_traineree_client/remote_agent.py:219 | three failed `get_state` attempts re-raise the third failure itself, not a wrapper |
| RemoteAgentWire.GetStateRun | ai_traineree_client/remote_agent.py:219-233 | `get_state` as a whole makes one to three attempts, all but the last failed, and returns or re-raises exactly what the last attempt gave; a failure means all three were made |
| RemoteAgentClient.RemoteAgent.GetState | ai_traineree_client/remote_agent.py:219-233 | the result is the three-attempt re-raising run of `get_state`; the same request is sent once per attempt made |
| Dataclass.BindFields | ai_traineree_client/types.py:3-10 | every field takes its keyword or its default, in declaration order, and a missing required field raises |
| Dataclass.BindsIff | agents_bar/types.py:18-52 | a keyword call binds exactly when it names every field without a default and nothing undeclared |
| Dataclass.BindsAllRequired | ai_traineree_client/types.py:3-10 | with no defaults, a call binds exactly when it names every field and nothing else |
| Dataclass.Bind | ai_traineree_client/types.py:3-10 | succeeds exactly when the call binds, with each field's value in declaration order; a TypeError otherwise |
| Dataclass.Entries | ai_traineree_client/remote_agent.py:245 | `asdict` writes one member per field, in declaration order |
| Dataclass.EntriesToMap | ai_traineree_client/remote_agent.py:245 | with distinct field names the dictionary `asdict` gives maps each field name to its own value |
| Dataclass.BindEntries | ai_traineree_client/remote_agent.py:245 | constructing a record from the dictionary of `asdict` gives the same field values |
| Dataclass.EntriesOfBind | ai_traineree_client/remote_agent.py:245 | `asdict` of a constructed record holds every given keyword with its value and every other field with its default |
| Dataclass.EntriesOfBindAllGiven | ai_traineree_client/remote_agent.py:245 | when every field was given, `asdict` of the constructed record is exactly the keywords |
| TraineereTypes.FieldNamesOfFields | ai_traineree_client/types.py:5-10 | the six declared fields are the six names, none with a default |
| TraineereTypes.FromKwargs | ai_traineree_client/types.py:3-10 | `EncodedAgentState(**kw)` succeeds exactly when the keywords are the six field names, each becoming its field; a TypeError otherwise |
| TraineereTypes.AsDict | ai_traineree_client/remote_agent.py:245 | `asdict` writes one member per field, in declaration order, with the field's value; its keys are exactly the six field names |
| TraineereTypes.FieldsShape | ai_traineree_client/types.py:5-10 | the field names are these six, in this order, all distinct |
| TraineereTypes.RecordRoundTrip | ai_traineree_client/types.py:3-10 | `EncodedAgentState(**asdict(s)) == s` |
| TraineereTypes.MapRoundTrip | ai_traineree_client/types.py:3-10 | a dictionary that constructs a record is given back member for member by `asdict` |
| AgentsBarTypes.StateFieldsFacts | agents_bar/types.py:10-15 | the six declared fields are the six names, none with a default |
| AgentsBarTypes.StateShape | agents_bar/types.py:10-15 | the field names are these six in this order, distinct, the second being `obs_size` and not `state_size` |
| AgentsBarTypes.StateFromKwargs | agents_bar/types.py:8-15 | construction succeeds exactly when the keywords are the six field names, each becoming its field; a TypeError otherwise |
| AgentsBarTypes.StateAsDict | agents_bar/types.py:8-15 | `asdict` writes one member per field, in declaration order, with the field's value; its keys are exactly the six field names |
| AgentsBarTypes.StateRejectsStateSize | agents_bar/types.py:11 | a snapshot that calls its second field `state_size` does not construct this record |
| AgentsBarTypes.StateRoundTrip | agents_bar/types.py:8-15 | `EncodedAgentState(**asdict(s)) == s` |
| AgentsBarTypes.AgentFieldsFacts | agents_bar/types.py:20-25 | six declared names, four of them required |
| AgentsBarTypes.AgentFromKwargs | agents_bar/types.py:18-25 | construction succeeds exactly when the four required names are given and nothing undeclared; `description` defaults to None and `is_active` to True |
| AgentsBarTypes.AgentDefaults | agents_bar/types.py:24-25 | leaving out the optional fields gives None and True |
| AgentsBarTypes.EnvironmentFieldsFacts | agents_bar/types.py:30-34 | five declared names, three of them required |
| AgentsBarTypes.EnvironmentFromKwargs | agents_bar/types.py:28-34 | construction succeeds exactly when name, image and config are given and nothing undeclared; defaults None and True |
| AgentsBarTypes.EnvironmentDefaults | agents_bar/types.py:33-34 | leaving out the optional fields gives None and True |
| AgentsBarTypes.ExperimentFieldsFacts | agents_bar/types.py:39-44 | six declared names, four of them required |
| AgentsBarTypes.ExperimentFromKwargs | agents_bar/types.py:37-44 | construction succeeds exactly when the four required names are given and nothing undeclared; defaults None and True |
| AgentsBarTypes.ExperimentDefaults | agents_bar/types.py:43-44 | leaving out the optional fields gives None and True |
| AgentsBarTypes.SpaceFieldsFacts | agents_bar/types.py:49-52 | four declared names, none of them required |
| AgentsBarTypes.SpaceFromKwargs | agents_bar/types.py:47-52 | any subset of the four names constructs, each missing field being None; an undeclared name raises |
| AgentsBarTypes.SpaceAllDefault | agents_bar/types.py:47-52 | `Space()` is four Nones |
| TraineereUtils.ToList | ai_traineree_client/utils.py:30-37 | the result is always a list: a list as it is, a number (bool included) wrapped, anything else what a loop over it visits; a non-iterable raises |
| TraineereUtils.ToListIdempotent | ai_traineree_client/utils.py:30-37 | coercing twice is coercing once |
| TraineereUtils.ToListKeepsElements | ai_traineree_client/utils.py:35-37 | coercion keeps exactly the elements a loop over the value visits |
| TraineereUtils.ExistsPoll | ai_traineree_client/utils.py:16-27 | the poller always probes first; a probe that raises ends the wait with that exception, and one that reports existence ends it with True and no sleep |
| TraineereUtils.ExistsPollShape | ai_traineree_client/utils.py:16-27 | probes and half-second sleeps alternate, starting with a probe; True and an exception end right after a probe, False right after a sleep |
| TraineereUtils.ExistsPollObserved | ai_traineree_client/utils.py:19-27 | every probe before the last reported absence and the clock was within the limit at each sleep before the last; True or an exception is exactly what the last probe gave, and False comes only once the elapsed time exceeded the limit |
| TraineereUtils.WaitUntilAgentExists | ai_traineree_client/utils.py:4-27 | the loop's result and trace are those of the poll specification, an exception of a probe included |
| AgentsBarUtils.ReadyCheck | agents_bar/utils.py:30-31 | no response raises; existence is `response.ok`; activity is False on an error status, and on an ok reply is the truthiness of the body's `is_active`, or the parse error, or the missing-key error |
| AgentsBarUtils.GuardPoll | agents_bar/utils.py:26-39 | with the elapsed time at the limit the loop ends at once with True and no probe; otherwise it begins with a probe of the entity's path |
| AgentsBarUtils.WaitSpec | agents_bar/utils.py:25-39 | an unsupported entity fails the assertion with no probe; the poller never answers False; every probe reads the entity's own path |
| AgentsBarUtils.GuardPollNeverFalse | agents_bar/utils.py:29-39 | the pollers never return False: the result is True or an exception |
| AgentsBarUtils.GuardPollShape | agents_bar/utils.py:29-37 | probes and half-second sleeps alternate, starting with a probe |
| AgentsBarUtils.GuardPollObserved | agents_bar/utils.py:29-39 | every probe was taken with elapsed time below the limit, every probe but the last was not ready, a final probe was ready (True) or raised (that error), and a run ending after a sleep or at once ran out of time and returns True |
| AgentsBarUtils.NoTimeNoProbe | agents_bar/utils.py:27-39 | with `max_seconds <= 0` no probe is made and the answer is still True |
| AgentsBarUtils.UnsupportedEntityNoProbe | agents_bar/utils.py:25 | an entity outside agent, environment, experiment fails the assertion before any probe |
| AgentsBarUtils.WaitUntil | agents_bar/utils.py:25-39 | the loop's result and trace are those of the poll specification |
| AgentsBarUtils.WaitUntilActive | agents_bar/utils.py:11-39 | the result and trace are those of the activity poll |
| AgentsBarUtils.WaitUntilExists | agents_bar/utils.py:42-70 | the result and trace are those of the existence poll |
| AgentsBarUtils.WaitUntilAgentIsActive | agents_bar/utils.py:73-86 | the activity poll on "/agents/<name>" |
| AgentsBarUtils.WaitUntilAgentExists | agents_bar/utils.py:89-101 | the existence poll on "/agents/<name>" |
| AgentsBarUtils.ToListExamples | agents_bar/utils.py:112-126 | the three examples of the docstring hold |
| AgentsBarUtils.RaiseErrorIfAny | agents_bar/utils.py:129-142 | raises exactly for a 4xx or 5xx status, carrying the status and the server's reason; passes otherwise |
| AgentsBarUtils.Reason | agents_bar/utils.py:137-141 | the reason is the raw text unless the body is a JSON object, and then its `detail` member, or None when it has none |
| AgentsBarUtils.ReasonCases | agents_bar/utils.py:137-141 | the reason is the body's `detail` when the body is a JSON object (None when it has none), and the raw text otherwise |

## Left out

- Logging (`logger`, `global_logger`, `after_log`) and the class attributes `name` and `logger` are left out: they do not affect any result.
- The `verbose` progress printing of the pollers is left out, because it is output only.
- Time is a parameter. `clock(k)` is the elapsed time read after the k-th sleep. The pollers require that after k sleeps at least k half-seconds have elapsed (`ClockAdvances`, a bound on the total, not on each step). A poller therefore cannot run forever. The sleeps themselves appear only as `Sleep` events in the trace.
- The environment (`os.environ`) is a parameter map, and the network is the scripted `Transport`. What a real server answers is not modelled.
- The `Authorization` and `accept` headers are reduced to the bearer token each request carries (`Request.bearer`).
- The key order of the JSON that `create_agent` posts is not modelled: its `config` is a map.
- Annotated types (`state_size: int`, ...) are not modelled, because neither Python nor the dataclasses enforce them.
- `str()` of lists, tuples and dicts in `hparams` is the parameter `render`. For None and strings it is written out.
- `loss` (ai_traineree_client/remote_agent.py:55) is left out: nothing in the core reads it.
- `url` and `agentName` are constants of the class. The source never reassigns them after construction.
- The retry loop (`Attempts`) builds the request of `act` and `step` once and sends it on every attempt. This is the same as rebuilding it each time, because the arguments are plain values that do not change between attempts. A one-shot iterator passed to `step` would be consumed by `to_list` on the first attempt and give empty lists on the later ones; such arguments are not modelled.
- `tenacity` is modelled only as far as these decorators use it: a stop after n attempts, no wait, any exception retried.
- `info` exists only inside `Sync`. There is no separate lemma about it, because it passes its reply's body straight through.
- `dict.update` accepting an iterable of pairs in `sync` is not modelled. Only a JSON object is accepted as the remote config.
- The agents_bar pollers return True when the time runs out (agents_bar/utils.py:39 and :70), even though their docstrings say the result tells whether the entity exists. The model follows the code, and `GuardPollNeverFalse` states the behaviour.
- `RemoteAgentClient.RemoteAgent.HParamsOf`: states only the keys. The values are stated by `RemoteAgentWire.HParams`, which it returns.
- A request either gets a response or fails as a whole (`ConnectionFailed`), for every request of `RemoteAgent` and every probe of the pollers: a failed read of `agent.exists` or `client.get` escapes the poller. Timeouts, redirects and the other `requests` exceptions are not told apart.
- Python.ParseInt: does not model `_` separators between digits (`int("1_0")`) or non-ASCII decimal digits, both of which Python's `int()` accepts; only ASCII whitespace (the characters `str.isspace()` holds for below 128, separators 0x1C to 0x1F included) is stripped, not Unicode spaces such as U+00A0. Such an action from a discrete agent fails every `act` attempt in the model.
- An error status raised by `raise_for_status()` is reduced to `HttpStatus(status)`. The HTTPError's message (the status, the reason phrase and the URL) and the response it keeps are not modelled. This applies to `IsActiveOutcome`, `GetStateAttempt`, `UploadOutcome` and `StepAttempt`. `AgentsBarUtils.RaiseErrorIfAny` keeps the server's reason as well. No contract depends on the message.
- Floats are reals, so the NaN and infinities that the JSON parser of `requests` accepts cannot occur, and neither can `int()` of them raising.
- Python.Lower: lowercases ASCII letters only; Python's `str.lower` also maps other letters. Model names and URL schemes are compared after it, so a non-ASCII letter that lowercases into ASCII (such as the Kelvin sign) is not modelled.

## Findings

| source | as written | input that shows it | evidently intended | confidence | as-written member | corrected member |
|---|---|---|---|---|---|---|
| ai_traineree_client/remote_agent.py:135 | `create_agent` assigns to `self.agent_model`, a property with no setter, which raises AttributeError after validation | `create_agent(4, 2, "dqn")` on any agent | store the model in `_agent_model`, then set `_discrete`, write the sizes and post the creation request | not executed | RemoteAgentClient.RemoteAgent.CreateAgentAsWritten | RemoteAgentClient.RemoteAgent.CreateAgent |

The same assignment also means that `_discrete` is never set, because `__init__` does not assign it. So `act` fails on every attempt with an AttributeError and raises the retry wrapper (`RemoteAgentWire.ActWithoutFlagExhausts`). The model keeps `_discrete` unset until the corrected `CreateAgent` sets it.
