/**
 * The two operations of a Python `@dataclass` that the client uses: the
 * generated `__init__` called with keyword arguments (`Record(**kwargs)`),
 * and `dataclasses.asdict`. A dataclass checks the names of the arguments,
 * never the types of their values, so every field holds a `Value`.
 */
module Dataclass {
  import opened Python

  /** A declared field and its default, if it has one. */
  datatype Field = Field(name: string, default: Option<Value>)

  function Names(fields: seq<Field>): (ns: seq<string>)
    ensures |ns| == |fields|
    ensures forall i :: 0 <= i < |fields| ==> ns[i] == fields[i].name
  {
    seq(|fields|, i requires 0 <= i < |fields| => fields[i].name)
  }

  function NameSet(fields: seq<Field>): set<string> {
    set f | f in fields :: f.name
  }

  predicate DistinctNames(fields: seq<Field>) {
    forall i, j :: 0 <= i < j < |fields| ==> fields[i].name != fields[j].name
  }

  /** Whether the call `__init__(**kwargs)` binds: no unknown keyword, and
      every field without a default is given. */
  predicate Binds(fields: seq<Field>, kwargs: map<string, Value>) {
    && kwargs.Keys <= NameSet(fields)
    && forall i :: 0 <= i < |fields| ==> fields[i].name in kwargs || fields[i].default.Some?
  }

  /** The value a field takes: the keyword argument, else the default. */
  function ValueOf(f: Field, kwargs: map<string, Value>): Value
    requires f.name in kwargs || f.default.Some?
  {
    if f.name in kwargs then kwargs[f.name] else f.default.value
  }

  /** Every field takes its value, or `missing` is raised. */
  function BindFields(fields: seq<Field>, kwargs: map<string, Value>): (r: Result<seq<Value>, Error>)
    ensures r.Ok? <==> forall i :: 0 <= i < |fields| ==> fields[i].name in kwargs || fields[i].default.Some?
    ensures r.Ok? ==> (|r.value| == |fields| &&
                       forall i :: 0 <= i < |fields| ==> r.value[i] == ValueOf(fields[i], kwargs))
    ensures r.Err? ==> r.error == BadArguments
    decreases |fields|
  {
    if fields == [] then Ok([])
    else
      var f := fields[0];
      if f.name !in kwargs && f.default.None? then Err(BadArguments)
      else
        match BindFields(fields[1..], kwargs)
        case Err(e) => Err(e)
        case Ok(rest) => Ok([ValueOf(f, kwargs)] + rest)
  }

  /** The names of the fields without a default. */
  function RequiredNames(fields: seq<Field>): set<string> {
    set f | f in fields && f.default.None? :: f.name
  }

  /** A call binds exactly when it names every field without a default and
      nothing undeclared. */
  lemma BindsIff(fields: seq<Field>, kwargs: map<string, Value>)
    ensures Binds(fields, kwargs) <==> RequiredNames(fields) <= kwargs.Keys <= NameSet(fields)
  {
    if Binds(fields, kwargs) {
      forall n | n in RequiredNames(fields) ensures n in kwargs {
        var f :| f in fields && f.default.None? && f.name == n;
        var i :| 0 <= i < |fields| && fields[i] == f;
      }
    }
    if RequiredNames(fields) <= kwargs.Keys <= NameSet(fields) {
      forall i | 0 <= i < |fields| ensures fields[i].name in kwargs || fields[i].default.Some? {
        assert fields[i] in fields;
      }
    }
  }

  /** Every field lacks a default. */
  predicate AllRequired(fields: seq<Field>) {
    forall i :: 0 <= i < |fields| ==> fields[i].default.None?
  }

  /** With no defaults, a call binds exactly when it names every field and
      nothing else. */
  lemma BindsAllRequired(fields: seq<Field>, kwargs: map<string, Value>)
    requires AllRequired(fields)
    ensures Binds(fields, kwargs) <==> kwargs.Keys == NameSet(fields)
  {
    if Binds(fields, kwargs) {
      forall n | n in NameSet(fields) ensures n in kwargs {
        var f :| f in fields && f.name == n;
        var i :| 0 <= i < |fields| && fields[i] == f;
      }
    }
    if kwargs.Keys == NameSet(fields) {
      forall i | 0 <= i < |fields| ensures fields[i].name in kwargs {
        assert fields[i] in fields;
      }
    }
  }

  /** The generated `__init__` called as `Record(**kwargs)`: the field values
      in declaration order, or a TypeError. */
  function Bind(fields: seq<Field>, kwargs: map<string, Value>): (r: Result<seq<Value>, Error>)
    ensures r.Ok? <==> Binds(fields, kwargs)
    ensures r.Ok? ==> (|r.value| == |fields| &&
                       forall i :: 0 <= i < |fields| ==> r.value[i] == ValueOf(fields[i], kwargs))
    ensures r.Err? ==> r.error == BadArguments
  {
    if !(kwargs.Keys <= NameSet(fields)) then Err(BadArguments)
    else BindFields(fields, kwargs)
  }

  /** `dataclasses.asdict`: one member per field, in declaration order. */
  function Entries(names: seq<string>, values: seq<Value>): (es: seq<(string, Value)>)
    requires |names| == |values|
    ensures |es| == |names|
    ensures forall i :: 0 <= i < |es| ==> es[i] == (names[i], values[i])
  {
    seq(|names|, i requires 0 <= i < |names| => (names[i], values[i]))
  }

  /** The keys `asdict` writes are the field names. */
  lemma EntriesKeys(names: seq<string>, values: seq<Value>)
    requires |names| == |values|
    ensures DictToMap(Entries(names, values)).Keys == set n | n in names
  {
    var es := Entries(names, values);
    forall n | n in names ensures n in KeysOf(es) {
      var i :| 0 <= i < |names| && names[i] == n;
      assert es[i] in es;
    }
  }

  /** The first member of `asdict`, when its name does not come again, adds
      its value to the dict of the rest. */
  lemma EntriesCons(names: seq<string>, values: seq<Value>)
    requires |names| == |values| && names != [] && names[0] !in names[1..]
    ensures DictToMap(Entries(names, values)) == DictToMap(Entries(names[1..], values[1..]))[names[0] := values[0]]
  {
    var es := Entries(names, values);
    var tail := Entries(names[1..], values[1..]);
    assert es == [es[0]] + tail;
    EntriesKeys(names[1..], values[1..]);
    DictToMapCons(es[0], tail);
  }

  /** With distinct names, the dict `asdict` gives maps every field name to
      its field's value. */
  lemma {:induction false} EntriesToMap(names: seq<string>, values: seq<Value>)
    requires |names| == |values|
    requires forall i, j :: 0 <= i < j < |names| ==> names[i] != names[j]
    ensures DictToMap(Entries(names, values)).Keys == set n | n in names
    ensures forall i :: 0 <= i < |names| ==> DictToMap(Entries(names, values))[names[i]] == values[i]
  {
    EntriesKeys(names, values);
    if names != [] {
      var tail := names[1..];
      assert names[0] !in tail by {
        forall j | 0 <= j < |tail| ensures tail[j] != names[0] {
          assert tail[j] == names[j + 1];
        }
      }
      forall i, j | 0 <= i < j < |tail| ensures tail[i] != tail[j] {
        assert tail[i] == names[i + 1] && tail[j] == names[j + 1];
      }
      EntriesToMap(tail, values[1..]);
      EntriesCons(names, values);
      forall i | 0 <= i < |names| ensures DictToMap(Entries(names, values))[names[i]] == values[i] {
        if i > 0 {
          assert names[i] == tail[i - 1];
        }
      }
    }
  }

  /** Constructing from the dict `asdict` produced gives back the same field
      values: `Record(**asdict(r)) == r`. */
  lemma BindEntries(fields: seq<Field>, values: seq<Value>)
    requires |fields| == |values| && DistinctNames(fields)
    ensures Bind(fields, DictToMap(Entries(Names(fields), values))) == Ok(values)
  {
    var names := Names(fields);
    EntriesToMap(names, values);
    var m := DictToMap(Entries(names, values));
    assert m.Keys <= NameSet(fields) by {
      forall n | n in m ensures n in NameSet(fields) {
        var i :| 0 <= i < |names| && names[i] == n;
        assert fields[i] in fields;
      }
    }
    forall i | 0 <= i < |fields| ensures fields[i].name in m {
      assert names[i] == fields[i].name && names[i] in names;
    }
    assert Binds(fields, m);
    var r := Bind(fields, m).value;
    assert |r| == |values|;
    forall i | 0 <= i < |fields| ensures r[i] == values[i] {
      assert r[i] == ValueOf(fields[i], m) == m[names[i]];
    }
    assert r == values;
  }

  /** `asdict(Record(**kwargs))` gives back the arguments when every field
      was given: defaults only fill what the call left out. */
  lemma EntriesOfBind(fields: seq<Field>, kwargs: map<string, Value>)
    requires DistinctNames(fields) && Bind(fields, kwargs).Ok?
    ensures var m := DictToMap(Entries(Names(fields), Bind(fields, kwargs).value));
            && m.Keys == NameSet(fields)
            && forall i :: 0 <= i < |fields| ==> m[fields[i].name] == ValueOf(fields[i], kwargs)
  {
    var names := Names(fields);
    var values := Bind(fields, kwargs).value;
    EntriesToMap(names, values);
    assert (set n | n in names) == NameSet(fields) by {
      forall n | n in NameSet(fields) ensures n in names {
        var f :| f in fields && f.name == n;
        var i :| 0 <= i < |fields| && fields[i] == f;
        assert names[i] == n;
      }
    }
  }

  /** When every field was given, `asdict(Record(**kwargs))` is `kwargs`
      itself. */
  lemma EntriesOfBindAllGiven(fields: seq<Field>, kwargs: map<string, Value>)
    requires DistinctNames(fields) && Bind(fields, kwargs).Ok? && kwargs.Keys == NameSet(fields)
    ensures DictToMap(Entries(Names(fields), Bind(fields, kwargs).value)) == kwargs
  {
    var m := DictToMap(Entries(Names(fields), Bind(fields, kwargs).value));
    EntriesOfBind(fields, kwargs);
    forall k | k in kwargs ensures m[k] == kwargs[k] {
      var f :| f in fields && f.name == k;
      var i :| 0 <= i < |fields| && fields[i] == f;
      assert m[fields[i].name] == ValueOf(fields[i], kwargs);
    }
  }
}
