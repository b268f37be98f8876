/**
 * The Python values the client exchanges with the service (what `json`
 * produces and accepts, plus tuples), the few built-in operations on them the
 * client relies on (`x[key]`, `x[0]`, `int(x)`, truthiness, `str.lower`), and
 * the exceptions the client can raise.
 */
module Python {

  datatype Option<+T> = None | Some(value: T)

  datatype Result<+T, +E> = Ok(value: T) | Err(error: E)

  /** A Python value. Floats are reals (no inf or nan); a dict keeps the
      members in the order they were written, duplicates included. */
  datatype Value =
    | VNone
    | VBool(b: bool)
    | VInt(i: int)
    | VFloat(x: real)
    | VStr(s: string)
    | VList(items: seq<Value>)
    | VTuple(items: seq<Value>)
    | VDict(entries: seq<(string, Value)>)

  /** The exceptions raised by the client, named after the situation; the
      Python exception class is given beside each. */
  datatype Error =
    | NotIterable                          // TypeError from list(x)
    | NotSubscriptable                     // TypeError from x[key]
    | NotAMapping                          // TypeError from f(**x) or d.update(x)
    | NotConvertible                       // ValueError or TypeError from int(x)
    | NotAString                           // TypeError or AttributeError on a str operation
    | KeyMissing(key: string)              // KeyError
    | IndexOutOfRange                      // IndexError
    | BadArguments                         // TypeError: unexpected or missing keyword argument
    | BadJson                              // json.JSONDecodeError from Response.json()
    | ConnectionFailed                     // requests.ConnectionError: no response at all
    | HttpStatus(status: int)              // requests.HTTPError from raise_for_status()
    | HttpErrorWithReason(status: int, reason: Value)  // HTTPError carrying the server's reason
    | MissingCredentials                   // ValueError: nothing to log in with
    | LoginRejected(username: Value, text: string)     // ValueError: login answered >= 300
    | UnsupportedModel(model: string)      // ValueError: unknown agent model
    | DeletionNotConfirmed                 // ValueError: remove() without the right name
    | CreationRejected(body: Value)        // RuntimeError: create answered >= 300
    | DeletionRejected(name: string, text: string)     // RuntimeError: delete answered >= 300
    | NoSetter(attribute: string)          // AttributeError: assignment to a read-only property
    | NoAttribute(attribute: string)       // AttributeError: attribute never assigned
    | UnsupportedEntity(entity: string)    // AssertionError
    | RetryExhausted(last: Error)          // tenacity.RetryError wrapping the last attempt

  /** `isinstance(v, (int, float))`; `bool` is a subclass of `int`. */
  predicate IsNumber(v: Value) {
    v.VBool? || v.VInt? || v.VFloat?
  }

  /** Python truthiness, as in `if v:` or `a and v`. */
  predicate Truthy(v: Value) {
    match v
    case VNone => false
    case VBool(b) => b
    case VInt(i) => i != 0
    case VFloat(x) => x != 0.0
    case VStr(s) => s != ""
    case VList(items) => items != []
    case VTuple(items) => items != []
    case VDict(entries) => entries != []
  }

  /** The keys written in a dict display. */
  function KeysOf(entries: seq<(string, Value)>): set<string> {
    set e | e in entries :: e.0
  }

  /** The dict that `entries` denote: each key takes the value of its last
      member, as `json.loads` and a dict display do. */
  function DictToMap(entries: seq<(string, Value)>): (m: map<string, Value>)
    ensures m.Keys == KeysOf(entries)
    decreases |entries|
  {
    if entries == [] then map[]
    else
      var rest := DictToMap(entries[1..]);
      assert KeysOf(entries) == {entries[0].0} + KeysOf(entries[1..]) by {
        assert entries == [entries[0]] + entries[1..];
      }
      if entries[0].0 in rest then rest else rest[entries[0].0 := entries[0].1]
  }

  /** A dict display with one more member in front: the later members win. */
  lemma DictToMapCons(e: (string, Value), rest: seq<(string, Value)>)
    ensures DictToMap([e] + rest) == if e.0 in DictToMap(rest) then DictToMap(rest) else DictToMap(rest)[e.0 := e.1]
  {
    assert ([e] + rest)[1..] == rest;
  }

  /** `list(d)`: the keys of the dict that `entries` denote, each once, in the
      order of their first appearance. */
  function DictKeys(entries: seq<(string, Value)>): (ks: seq<string>)
    ensures forall i, j :: 0 <= i < j < |ks| ==> ks[i] != ks[j]
    ensures (set k | k in ks) == KeysOf(entries)
    decreases |entries|
  {
    if entries == [] then []
    else
      var init := entries[..|entries| - 1];
      var last := entries[|entries| - 1];
      var ks := DictKeys(init);
      assert KeysOf(entries) == KeysOf(init) + {last.0} by {
        assert entries == init + [last];
      }
      if last.0 in ks then ks else ks + [last.0]
  }

  /** `dict.get(key)`: the value, or None when the key is absent. */
  function DictGet(m: map<string, Value>, key: string): Value {
    if key in m then m[key] else VNone
  }

  /** `v[key]` for a string key. */
  function Subscript(v: Value, key: string): (r: Result<Value, Error>)
    ensures r.Ok? <==> v.VDict? && key in KeysOf(v.entries)
    ensures r.Ok? ==> r.value == DictToMap(v.entries)[key]
    ensures r.Err? ==> r.error == (if v.VDict? then KeyMissing(key) else NotSubscriptable)
  {
    match v
    case VDict(entries) =>
      var m := DictToMap(entries);
      if key in m then Ok(m[key]) else Err(KeyMissing(key))
    case _ => Err(NotSubscriptable)
  }

  /** Unpacking `v` as a mapping, as `f(**v)` and `d.update(v)` do.
      (`update` also accepts an iterable of pairs; that form is not modelled.) */
  function AsMapping(v: Value): (r: Result<map<string, Value>, Error>)
    ensures r.Ok? <==> v.VDict?
    ensures r.Ok? ==> r.value == DictToMap(v.entries)
  {
    if v.VDict? then Ok(DictToMap(v.entries)) else Err(NotAMapping)
  }

  /** `v[0]`. A JSON object has only string keys, so `0` is never one of them. */
  function FirstItem(v: Value): (r: Result<Value, Error>)
    ensures (v.VList? || v.VTuple?) && v.items != [] ==> r == Ok(v.items[0])
    ensures (v.VList? || v.VTuple?) && v.items == [] ==> r == Err(IndexOutOfRange)
  {
    match v
    case VList(items) => if items != [] then Ok(items[0]) else Err(IndexOutOfRange)
    case VTuple(items) => if items != [] then Ok(items[0]) else Err(IndexOutOfRange)
    case VStr(s) => if s != "" then Ok(VStr([s[0]])) else Err(IndexOutOfRange)
    case VDict(_) => Err(KeyMissing("0"))
    case _ => Err(NotSubscriptable)
  }

  /** `int(x)` of a float: the fraction is dropped, toward zero. */
  function TruncateTowardZero(x: real): (n: int)
    ensures 0.0 <= x ==> n as real <= x < n as real + 1.0
    ensures x < 0.0 ==> n as real - 1.0 < x <= n as real
  {
    if x >= 0.0 then x.Floor else -((-x).Floor)
  }

  predicate IsDigit(c: char) {
    '0' <= c <= '9'
  }

  predicate AllDigits(s: string) {
    forall i :: 0 <= i < |s| ==> IsDigit(s[i])
  }

  /** The number a string of decimal digits spells. */
  function DigitsValue(s: string): (n: nat)
    requires AllDigits(s)
    decreases |s|
  {
    if s == [] then 0
    else DigitsValue(s[..|s| - 1]) * 10 + (s[|s| - 1] as int - '0' as int)
  }

  /** The ASCII characters `str.isspace()` holds for, which `int()` strips:
      space, tab, line feed, vertical tab, form feed, carriage return and
      the four separators 0x1C to 0x1F. */
  predicate IsSpace(c: char) {
    c == ' ' || c == '\t' || c == '\n' || c == '\r' || c as int == 11 || c as int == 12
    || (28 <= c as int <= 31)
  }

  /** `s.lstrip()`: the suffix left after the leading whitespace. */
  function TrimLeft(s: string): (r: string)
    ensures |r| <= |s| && r == s[|s| - |r|..]
    ensures forall i :: 0 <= i < |s| - |r| ==> IsSpace(s[i])
    ensures r == [] || !IsSpace(r[0])
    decreases |s|
  {
    if s != [] && IsSpace(s[0]) then TrimLeft(s[1..]) else s
  }

  /** `s.rstrip()`: the prefix left before the trailing whitespace. */
  function TrimRight(s: string): (r: string)
    ensures |r| <= |s| && r == s[..|r|]
    ensures forall i :: |r| <= i < |s| ==> IsSpace(s[i])
    ensures r == [] || !IsSpace(r[|r| - 1])
    decreases |s|
  {
    if s != [] && IsSpace(s[|s| - 1]) then TrimRight(s[..|s| - 1]) else s
  }

  /** A literal without its leading sign, if it has one. */
  function Unsigned(t: string): (u: string)
    ensures t != [] && (t[0] == '-' || t[0] == '+') ==> u == t[1..]
    ensures !(t != [] && (t[0] == '-' || t[0] == '+')) ==> u == t
  {
    if t != [] && (t[0] == '-' || t[0] == '+') then t[1..] else t
  }

  /** What `int()` accepts once whitespace is stripped: an optional sign,
      then at least one ASCII digit. */
  predicate IsIntLiteral(t: string) {
    Unsigned(t) != [] && AllDigits(Unsigned(t))
  }

  /** The number an integer literal denotes. */
  function LiteralValue(t: string): int
    requires IsIntLiteral(t)
  {
    var n: int := DigitsValue(Unsigned(t));
    if t[0] == '-' then -n else n
  }

  /** The sign-and-digits core of `int(s)`. */
  function ParseDigits(t: string): (r: Result<int, Error>)
    ensures r.Ok? <==> IsIntLiteral(t)
    ensures r.Ok? ==> r.value == LiteralValue(t)
    ensures r.Err? ==> r.error == NotConvertible
    ensures t != "" && AllDigits(t) ==> r == Ok(DigitsValue(t))
  {
    if t != "" && AllDigits(t) then Ok(DigitsValue(t))
    else if |t| > 1 && (t[0] == '-' || t[0] == '+') && AllDigits(t[1..]) then
      var n: int := DigitsValue(t[1..]);
      Ok(if t[0] == '-' then -n else n)
    else Err(NotConvertible)
  }

  /** `int(s)` for a string: surrounding whitespace, an optional sign and at
      least one ASCII digit. */
  function ParseInt(s: string): (r: Result<int, Error>)
    ensures r.Ok? <==> IsIntLiteral(TrimRight(TrimLeft(s)))
    ensures r.Ok? ==> r.value == LiteralValue(TrimRight(TrimLeft(s)))
    ensures r.Err? ==> r.error == NotConvertible
    ensures s != "" && AllDigits(s) ==> r == Ok(DigitsValue(s))
  {
    ParseDigits(TrimRight(TrimLeft(s)))
  }

  /** Whitespace around a literal does not matter: `int(" -2\n") == -2`. */
  lemma ParseIntIgnoresSpace(pad: string, lit: string, tail: string)
    requires forall i :: 0 <= i < |pad| ==> IsSpace(pad[i])
    requires forall i :: 0 <= i < |tail| ==> IsSpace(tail[i])
    requires IsIntLiteral(lit)
    ensures ParseInt(pad + lit + tail) == Ok(LiteralValue(lit))
  {
    var u := Unsigned(lit);
    assert lit[|lit| - 1] == u[|u| - 1];
    assert IsDigit(u[|u| - 1]);
    assert !IsSpace(lit[0]) by {
      if !(lit[0] == '-' || lit[0] == '+') { assert lit[0] == u[0] && IsDigit(u[0]); }
    }
    TrimLeftPad(pad, lit + tail);
    assert pad + lit + tail == pad + (lit + tail);
    TrimRightPad(lit, tail);
    assert TrimRight(TrimLeft(pad + lit + tail)) == lit;
  }

  /** Signs and whitespace are accepted: `int(" -5\n") == -5`. */
  lemma ParseIntSigned()
    ensures ParseInt(" -5\n") == Ok(-5)
  {
    var lit := "-5";
    assert Unsigned(lit) == "5";
    assert DigitsValue("5") == 5 by { assert "5"[..0] == ""; }
    ParseIntIgnoresSpace(" ", lit, "\n");
    assert " -5\n" == " " + lit + "\n";
  }

  /** A sign with no digit after it is refused: `int("-")` raises. */
  lemma ParseIntRefusesBareSign()
    ensures ParseInt("-").Err?
  {
    var t := "-";
    assert TrimLeft(t) == t by { assert !IsSpace(t[0]); }
    assert TrimRight(t) == t by { assert !IsSpace(t[|t| - 1]); }
    assert Unsigned(t) == [];
  }

  /** A string that is not a number is refused: `int("abc")` raises. */
  lemma ParseIntRefusesLetters()
    ensures ParseInt("abc").Err?
  {
    var t := "abc";
    assert t[0] == 'a' && t[|t| - 1] == 'c';
    assert TrimLeft(t) == t;
    assert TrimRight(t) == t;
    assert Unsigned(t) == t;
    assert !AllDigits(t) by { assert !IsDigit(t[0]); }
    assert !IsIntLiteral(t);
  }

  lemma {:induction false} TrimLeftPad(pad: string, rest: string)
    requires forall i :: 0 <= i < |pad| ==> IsSpace(pad[i])
    requires rest != [] && !IsSpace(rest[0])
    ensures TrimLeft(pad + rest) == rest
    decreases |pad|
  {
    if pad != [] {
      assert (pad + rest)[1..] == pad[1..] + rest;
      TrimLeftPad(pad[1..], rest);
    }
  }

  lemma {:induction false} TrimRightPad(rest: string, tail: string)
    requires forall i :: 0 <= i < |tail| ==> IsSpace(tail[i])
    requires rest != [] && !IsSpace(rest[|rest| - 1])
    ensures TrimRight(rest + tail) == rest
    decreases |tail|
  {
    if tail != [] {
      assert (rest + tail)[..|rest + tail| - 1] == rest + tail[..|tail| - 1];
      TrimRightPad(rest, tail[..|tail| - 1]);
    }
  }

  /** `int(v)`. */
  function IntOf(v: Value): (r: Result<int, Error>)
    ensures v.VInt? ==> r == Ok(v.i)
    ensures v.VBool? ==> r == Ok(if v.b then 1 else 0)
    ensures v.VFloat? ==> r.Ok? && r.value as real <= v.x + 1.0 && v.x - 1.0 <= r.value as real
    ensures r.Ok? ==> IsNumber(v) || v.VStr?
  {
    match v
    case VBool(b) => Ok(if b then 1 else 0)
    case VInt(i) => Ok(i)
    case VFloat(x) => Ok(TruncateTowardZero(x))
    case VStr(s) => ParseInt(s)
    case _ => Err(NotConvertible)
  }

  function LowerChar(c: char): char {
    if 'A' <= c <= 'Z' then (c as int + 32) as char else c
  }

  /** `s.lower()` on ASCII letters; every other character is kept. */
  function Lower(s: string): (r: string)
    ensures |r| == |s|
    ensures forall i :: 0 <= i < |s| ==> r[i] == LowerChar(s[i])
  {
    seq(|s|, i requires 0 <= i < |s| => LowerChar(s[i]))
  }

  /** `s[:n]`. */
  function Prefix(s: string, n: nat): (r: string)
    ensures |r| == if |s| <= n then |s| else n
    ensures r <= s
  {
    if |s| <= n then s else s[..n]
  }
}
