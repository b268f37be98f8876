/**
 * The records of agents_bar/types.py: the snapshot `EncodedAgentState`
 * (whose second field is `obs_size`), the creation requests `AgentCreate`,
 * `EnvironmentCreate` and `ExperimentCreate`, and `Space`. Each is a
 * dataclass: keyword construction checks the names and fills the defaults,
 * and never the annotated types, so every field holds a `Value`.
 */
module AgentsBarTypes {
  import opened Python
  import opened Dataclass

  /** The value of a field: the keyword if given, else its default. */
  function ArgOr(kwargs: map<string, Value>, name: string, default: Value): Value {
    if name in kwargs then kwargs[name] else default
  }

  // ---------------------------------------------------------------------------
  // EncodedAgentState
  // ---------------------------------------------------------------------------

  datatype EncodedAgentState = EncodedAgentState(
    model: Value,
    obsSize: Value,
    actionSize: Value,
    encodedConfig: Value,
    encodedNetwork: Value,
    encodedBuffer: Value)

  const StateFields: seq<Field> := [
    Field("model", None),
    Field("obs_size", None),
    Field("action_size", None),
    Field("encoded_config", None),
    Field("encoded_network", None),
    Field("encoded_buffer", None)
  ]

  const StateFieldNames: set<string> :=
    {"model", "obs_size", "action_size", "encoded_config", "encoded_network", "encoded_buffer"}

  lemma StateFieldsFacts()
    ensures NameSet(StateFields) == StateFieldNames
    ensures AllRequired(StateFields)
  {
    assert StateFields[0] in StateFields && StateFields[1] in StateFields && StateFields[2] in StateFields;
    assert StateFields[3] in StateFields && StateFields[4] in StateFields && StateFields[5] in StateFields;
  }

  /** The shape shared with the other snapshot record, except that the
      second field is `obs_size` where the other has `state_size`. */
  lemma StateShape()
    ensures Names(StateFields) == ["model", "obs_size", "action_size", "encoded_config", "encoded_network", "encoded_buffer"]
    ensures "state_size" !in NameSet(StateFields)
    ensures DistinctNames(StateFields)
  {
    StateFieldsFacts();
  }

  function StateValues(s: EncodedAgentState): (vs: seq<Value>)
    ensures |vs| == |StateFields|
  {
    [s.model, s.obsSize, s.actionSize, s.encodedConfig, s.encodedNetwork, s.encodedBuffer]
  }

  /** The snapshot holding the field values `vs`, in declaration order. */
  function StateFromValues(vs: seq<Value>): (r: EncodedAgentState)
    requires |vs| == |StateFields|
    ensures StateValues(r) == vs
  {
    EncodedAgentState(vs[0], vs[1], vs[2], vs[3], vs[4], vs[5])
  }

  /** `EncodedAgentState(**kwargs)`: exactly the six names, or a TypeError. */
  function StateFromKwargs(kwargs: map<string, Value>): (r: Result<EncodedAgentState, Error>)
    ensures r.Ok? <==> kwargs.Keys == StateFieldNames
    ensures r.Ok? ==> r.value == EncodedAgentState(
                        kwargs["model"], kwargs["obs_size"], kwargs["action_size"],
                        kwargs["encoded_config"], kwargs["encoded_network"], kwargs["encoded_buffer"])
    ensures r.Err? ==> r.error == BadArguments
  {
    StateFieldsFacts();
    BindsAllRequired(StateFields, kwargs);
    var b := Bind(StateFields, kwargs);
    if b.Err? then Err(b.error)
    else
      var vs := b.value;
      Ok(StateFromValues(vs))
  }

  /** `dataclasses.asdict(s)`. */
  function StateAsDict(s: EncodedAgentState): (es: seq<(string, Value)>)
    ensures |es| == |StateFields|
    ensures forall i :: 0 <= i < |es| ==> es[i] == (StateFields[i].name, StateValues(s)[i])
    ensures KeysOf(es) == StateFieldNames
  {
    var es := Entries(Names(StateFields), StateValues(s));
    EntriesKeys(Names(StateFields), StateValues(s));
    StateShape();
    es
  }

  /** A snapshot that names its second field `state_size` does not bind. */
  lemma StateRejectsStateSize(kwargs: map<string, Value>)
    requires "state_size" in kwargs
    ensures StateFromKwargs(kwargs) == Err(BadArguments)
  {
    StateFieldsFacts();
    StateShape();
    assert kwargs.Keys != StateFieldNames;
  }

  /** Record round trip: `EncodedAgentState(**asdict(s)) == s`. */
  lemma StateRoundTrip(s: EncodedAgentState)
    ensures StateFromKwargs(DictToMap(StateAsDict(s))) == Ok(s)
  {
    StateShape();
    BindEntries(StateFields, StateValues(s));
  }

  // ---------------------------------------------------------------------------
  // AgentCreate, EnvironmentCreate, ExperimentCreate
  // ---------------------------------------------------------------------------

  /** The defaults the three creation records share. */
  const DescriptionDefault: Value := VNone
  const IsActiveDefault: Value := VBool(true)

  datatype AgentCreate = AgentCreate(name: Value, model: Value, image: Value, config: Value,
                                     description: Value, isActive: Value)

  const AgentFields: seq<Field> := [
    Field("name", None),
    Field("model", None),
    Field("image", None),
    Field("config", None),
    Field("description", Some(DescriptionDefault)),
    Field("is_active", Some(IsActiveDefault))
  ]

  const AgentFieldNames: set<string> := {"name", "model", "image", "config", "description", "is_active"}
  const AgentRequired: set<string> := {"name", "model", "image", "config"}

  lemma AgentFieldsFacts()
    ensures NameSet(AgentFields) == AgentFieldNames
    ensures RequiredNames(AgentFields) == AgentRequired
  {
    assert AgentFields[0] in AgentFields && AgentFields[1] in AgentFields && AgentFields[2] in AgentFields;
    assert AgentFields[3] in AgentFields && AgentFields[4] in AgentFields && AgentFields[5] in AgentFields;
  }

  /** The agent request holding the field values `vs`, in declaration order. */
  function AgentFromValues(vs: seq<Value>): (r: AgentCreate)
    requires |vs| == |AgentFields|
  {
    AgentCreate(vs[0], vs[1], vs[2], vs[3], vs[4], vs[5])
  }

  /** `AgentCreate(**kwargs)`: no unknown keyword, the four required ones
      given; `description` defaults to None and `is_active` to True. */
  function AgentFromKwargs(kwargs: map<string, Value>): (r: Result<AgentCreate, Error>)
    ensures r.Ok? <==> AgentRequired <= kwargs.Keys <= AgentFieldNames
    ensures r.Ok? ==> r.value == AgentCreate(
                        kwargs["name"], kwargs["model"], kwargs["image"], kwargs["config"],
                        ArgOr(kwargs, "description", VNone), ArgOr(kwargs, "is_active", VBool(true)))
    ensures r.Err? ==> r.error == BadArguments
  {
    AgentFieldsFacts();
    BindsIff(AgentFields, kwargs);
    var b := Bind(AgentFields, kwargs);
    if b.Err? then Err(b.error)
    else
      var vs := b.value;
      Ok(AgentFromValues(vs))
  }

  /** Leaving out the optional fields gives None and True. */
  lemma AgentDefaults(name: Value, model: Value, image: Value, config: Value)
    ensures AgentFromKwargs(map["name" := name, "model" := model, "image" := image, "config" := config])
              == Ok(AgentCreate(name, model, image, config, VNone, VBool(true)))
  {
  }

  datatype EnvironmentCreate = EnvironmentCreate(name: Value, image: Value, config: Value,
                                                 description: Value, isActive: Value)

  const EnvironmentFields: seq<Field> := [
    Field("name", None),
    Field("image", None),
    Field("config", None),
    Field("description", Some(DescriptionDefault)),
    Field("is_active", Some(IsActiveDefault))
  ]

  const EnvironmentFieldNames: set<string> := {"name", "image", "config", "description", "is_active"}
  const EnvironmentRequired: set<string> := {"name", "image", "config"}

  lemma EnvironmentFieldsFacts()
    ensures NameSet(EnvironmentFields) == EnvironmentFieldNames
    ensures RequiredNames(EnvironmentFields) == EnvironmentRequired
  {
    assert EnvironmentFields[0] in EnvironmentFields && EnvironmentFields[1] in EnvironmentFields;
    assert EnvironmentFields[2] in EnvironmentFields && EnvironmentFields[3] in EnvironmentFields;
    assert EnvironmentFields[4] in EnvironmentFields;
  }

  /** The environment request holding the field values `vs`, in declaration order. */
  function EnvironmentFromValues(vs: seq<Value>): (r: EnvironmentCreate)
    requires |vs| == |EnvironmentFields|
  {
    EnvironmentCreate(vs[0], vs[1], vs[2], vs[3], vs[4])
  }

  /** `EnvironmentCreate(**kwargs)`. */
  function EnvironmentFromKwargs(kwargs: map<string, Value>): (r: Result<EnvironmentCreate, Error>)
    ensures r.Ok? <==> EnvironmentRequired <= kwargs.Keys <= EnvironmentFieldNames
    ensures r.Ok? ==> r.value == EnvironmentCreate(
                        kwargs["name"], kwargs["image"], kwargs["config"],
                        ArgOr(kwargs, "description", VNone), ArgOr(kwargs, "is_active", VBool(true)))
    ensures r.Err? ==> r.error == BadArguments
  {
    EnvironmentFieldsFacts();
    BindsIff(EnvironmentFields, kwargs);
    var b := Bind(EnvironmentFields, kwargs);
    if b.Err? then Err(b.error)
    else
      var vs := b.value;
      Ok(EnvironmentFromValues(vs))
  }

  lemma EnvironmentDefaults(name: Value, image: Value, config: Value)
    ensures EnvironmentFromKwargs(map["name" := name, "image" := image, "config" := config])
              == Ok(EnvironmentCreate(name, image, config, VNone, VBool(true)))
  {
  }

  datatype ExperimentCreate = ExperimentCreate(name: Value, agentNames: Value, environmentNames: Value,
                                               config: Value, description: Value, isActive: Value)

  const ExperimentFields: seq<Field> := [
    Field("name", None),
    Field("agent_names", None),
    Field("environment_names", None),
    Field("config", None),
    Field("description", Some(DescriptionDefault)),
    Field("is_active", Some(IsActiveDefault))
  ]

  const ExperimentFieldNames: set<string> :=
    {"name", "agent_names", "environment_names", "config", "description", "is_active"}
  const ExperimentRequired: set<string> := {"name", "agent_names", "environment_names", "config"}

  lemma ExperimentFieldsFacts()
    ensures NameSet(ExperimentFields) == ExperimentFieldNames
    ensures RequiredNames(ExperimentFields) == ExperimentRequired
  {
    assert ExperimentFields[0] in ExperimentFields && ExperimentFields[1] in ExperimentFields;
    assert ExperimentFields[2] in ExperimentFields && ExperimentFields[3] in ExperimentFields;
    assert ExperimentFields[4] in ExperimentFields && ExperimentFields[5] in ExperimentFields;
  }

  /** The experiment request holding the field values `vs`, in declaration order. */
  function ExperimentFromValues(vs: seq<Value>): (r: ExperimentCreate)
    requires |vs| == |ExperimentFields|
  {
    ExperimentCreate(vs[0], vs[1], vs[2], vs[3], vs[4], vs[5])
  }

  /** `ExperimentCreate(**kwargs)`; the name lists are taken as given. */
  function ExperimentFromKwargs(kwargs: map<string, Value>): (r: Result<ExperimentCreate, Error>)
    ensures r.Ok? <==> ExperimentRequired <= kwargs.Keys <= ExperimentFieldNames
    ensures r.Ok? ==> r.value == ExperimentCreate(
                        kwargs["name"], kwargs["agent_names"], kwargs["environment_names"], kwargs["config"],
                        ArgOr(kwargs, "description", VNone), ArgOr(kwargs, "is_active", VBool(true)))
    ensures r.Err? ==> r.error == BadArguments
  {
    ExperimentFieldsFacts();
    BindsIff(ExperimentFields, kwargs);
    var b := Bind(ExperimentFields, kwargs);
    if b.Err? then Err(b.error)
    else
      var vs := b.value;
      Ok(ExperimentFromValues(vs))
  }

  lemma ExperimentDefaults(name: Value, agents: seq<Value>, environments: seq<Value>, config: Value)
    ensures ExperimentFromKwargs(map["name" := name, "agent_names" := VList(agents),
                                     "environment_names" := VList(environments), "config" := config])
              == Ok(ExperimentCreate(name, VList(agents), VList(environments), config, VNone, VBool(true)))
  {
  }

  // ---------------------------------------------------------------------------
  // Space
  // ---------------------------------------------------------------------------

  datatype Space = Space(dtype: Value, shape: Value, low: Value, high: Value)

  const SpaceFields: seq<Field> := [
    Field("dtype", Some(VNone)),
    Field("shape", Some(VNone)),
    Field("low", Some(VNone)),
    Field("high", Some(VNone))
  ]

  const SpaceFieldNames: set<string> := {"dtype", "shape", "low", "high"}

  lemma SpaceFieldsFacts()
    ensures NameSet(SpaceFields) == SpaceFieldNames
    ensures RequiredNames(SpaceFields) == {}
  {
    assert SpaceFields[0] in SpaceFields && SpaceFields[1] in SpaceFields;
    assert SpaceFields[2] in SpaceFields && SpaceFields[3] in SpaceFields;
  }

  /** The space holding the field values `vs`, in declaration order. */
  function SpaceFromValues(vs: seq<Value>): (r: Space)
    requires |vs| == |SpaceFields|
  {
    Space(vs[0], vs[1], vs[2], vs[3])
  }

  /** `Space(**kwargs)`: any subset of the four names, each missing one None. */
  function SpaceFromKwargs(kwargs: map<string, Value>): (r: Result<Space, Error>)
    ensures r.Ok? <==> kwargs.Keys <= SpaceFieldNames
    ensures r.Ok? ==> r.value == Space(ArgOr(kwargs, "dtype", VNone), ArgOr(kwargs, "shape", VNone),
                                       ArgOr(kwargs, "low", VNone), ArgOr(kwargs, "high", VNone))
    ensures r.Err? ==> r.error == BadArguments
  {
    SpaceFieldsFacts();
    BindsIff(SpaceFields, kwargs);
    var b := Bind(SpaceFields, kwargs);
    if b.Err? then Err(b.error)
    else
      var vs := b.value;
      assert vs[0] == ValueOf(SpaceFields[0], kwargs) == ArgOr(kwargs, "dtype", VNone);
      assert vs[1] == ValueOf(SpaceFields[1], kwargs) == ArgOr(kwargs, "shape", VNone);
      assert vs[2] == ValueOf(SpaceFields[2], kwargs) == ArgOr(kwargs, "low", VNone);
      assert vs[3] == ValueOf(SpaceFields[3], kwargs) == ArgOr(kwargs, "high", VNone);
      Ok(SpaceFromValues(vs))
  }

  /** `Space()` is four Nones. */
  lemma SpaceAllDefault()
    ensures SpaceFromKwargs(map[]) == Ok(Space(VNone, VNone, VNone, VNone))
  {
  }
}
