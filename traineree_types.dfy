/**
 * The snapshot record `EncodedAgentState` of ai_traineree_client/types.py:
 * a dataclass of six fields, none with a default, that `get_state` builds
 * from the server's JSON (`EncodedAgentState(**state)`) and `upload_state`
 * turns back into JSON (`dataclasses.asdict(state)`).
 */
module TraineereTypes {
  import opened Python
  import opened Dataclass

  datatype EncodedAgentState = EncodedAgentState(
    model: Value,
    stateSize: Value,
    actionSize: Value,
    encodedConfig: Value,
    encodedNetwork: Value,
    encodedBuffer: Value)

  /** The declared fields, in declaration order. */
  const Fields: seq<Field> := [
    Field("model", None),
    Field("state_size", None),
    Field("action_size", None),
    Field("encoded_config", None),
    Field("encoded_network", None),
    Field("encoded_buffer", None)
  ]

  /** The names of the fields. */
  const FieldNames: set<string> :=
    {"model", "state_size", "action_size", "encoded_config", "encoded_network", "encoded_buffer"}

  lemma FieldNamesOfFields()
    ensures NameSet(Fields) == FieldNames
    ensures AllRequired(Fields)
  {
    assert Fields[0] in Fields && Fields[1] in Fields && Fields[2] in Fields;
    assert Fields[3] in Fields && Fields[4] in Fields && Fields[5] in Fields;
  }

  /** The field values in declaration order. */
  function FieldValues(s: EncodedAgentState): (vs: seq<Value>)
    ensures |vs| == |Fields|
  {
    [s.model, s.stateSize, s.actionSize, s.encodedConfig, s.encodedNetwork, s.encodedBuffer]
  }

  /** The record holding the field values `vs`, in declaration order. */
  function FromValues(vs: seq<Value>): (s: EncodedAgentState)
    requires |vs| == |Fields|
    ensures FieldValues(s) == vs
  {
    EncodedAgentState(vs[0], vs[1], vs[2], vs[3], vs[4], vs[5])
  }

  /** `EncodedAgentState(**kwargs)`: a TypeError unless the keywords are
      exactly the six field names. */
  function FromKwargs(kwargs: map<string, Value>): (r: Result<EncodedAgentState, Error>)
    ensures r.Ok? <==> kwargs.Keys == FieldNames
    ensures r.Ok? ==> r.value == EncodedAgentState(
                        kwargs["model"], kwargs["state_size"], kwargs["action_size"],
                        kwargs["encoded_config"], kwargs["encoded_network"], kwargs["encoded_buffer"])
    ensures r.Err? ==> r.error == BadArguments
  {
    FieldNamesOfFields();
    BindsAllRequired(Fields, kwargs);
    var b := Bind(Fields, kwargs);
    if b.Err? then Err(b.error)
    else
      var vs := b.value;
      Ok(FromValues(vs))
  }

  /** `dataclasses.asdict(s)`: the six members in declaration order. */
  function AsDict(s: EncodedAgentState): (es: seq<(string, Value)>)
    ensures |es| == |Fields|
    ensures forall i :: 0 <= i < |es| ==> es[i] == (Fields[i].name, FieldValues(s)[i])
    ensures KeysOf(es) == FieldNames
  {
    var es := Entries(Names(Fields), FieldValues(s));
    EntriesKeys(Names(Fields), FieldValues(s));
    FieldsShape();
    es
  }

  /** The record shape: six distinct field names, in this order. */
  lemma FieldsShape()
    ensures Names(Fields) == ["model", "state_size", "action_size", "encoded_config", "encoded_network", "encoded_buffer"]
    ensures DistinctNames(Fields)
  {
  }

  /** Record round trip: `EncodedAgentState(**asdict(s)) == s`. */
  lemma RecordRoundTrip(s: EncodedAgentState)
    ensures FromKwargs(DictToMap(AsDict(s))) == Ok(s)
  {
    BindEntries(Fields, FieldValues(s));
  }

  /** Map round trip: a map that constructs a record is given back field for
      field by `asdict`. */
  lemma MapRoundTrip(kwargs: map<string, Value>)
    requires FromKwargs(kwargs).Ok?
    ensures DictToMap(AsDict(FromKwargs(kwargs).value)) == kwargs
  {
    FieldNamesOfFields();
    FieldsShape();
    assert FieldValues(FromKwargs(kwargs).value) == Bind(Fields, kwargs).value;
    EntriesOfBindAllGiven(Fields, kwargs);
  }
}
