/** Python values and the small part of Python's semantics that the ingestion
    code relies on: truthiness, subscripting with its exceptions, `dict.get`,
    ASCII `str.lower` and `str` of a natural number. */
module PyValue {

  /** A JSON-like Python value. Floats are not distinguished from integers:
      the modelled code never does arithmetic on them. */
  datatype Value =
    | Null
    | Bool(b: bool)
    | Num(n: int)
    | Str(s: string)
    | List(items: seq<Value>)
    | Dict(fields: map<string, Value>)

  /** A Python dict with string keys: a data-package entry or a dataset record. */
  type Record = map<string, Value>

  /** The argument of a subscript `v[k]`. */
  datatype Key = Field(name: string) | Index(i: nat)

  /** The field errors of a CKAN `ValidationError`: field name to messages. */
  type ErrorDict = map<string, seq<string>>

  /** The exceptions the modelled code can raise or catch. */
  datatype Exc =
    | KeyError(key: Key)
    | IndexError
    | TypeError
    | AttributeError
    | UnboundLocalError
    | ValidationError(errors: ErrorDict)
    | NotFound

  datatype Option<+T> = None | Some(value: T)

  /** The result of a Python call: a value, or the exception it raised.
      Usable with `:-`, which propagates the exception as Python does. */
  datatype Outcome<+T> = Ok(value: T) | Raise(exc: Exc) {

    predicate IsFailure() {
      Raise?
    }

    function PropagateFailure<U>(): Outcome<U>
      requires Raise?
    {
      Raise(exc)
    }

    function Extract(): T
      requires Ok?
    {
      value
    }
  }

  /** Python's `bool(v)`. */
  predicate Truthy(v: Value) {
    match v
    case Null => false
    case Bool(b) => b
    case Num(n) => n != 0
    case Str(s) => |s| > 0
    case List(xs) => |xs| > 0
    case Dict(m) => |m| > 0
  }

  /** `d.get(k)`: the value stored under `k`, or None. */
  function Get(d: Record, k: string): Value {
    if k in d then d[k] else Null
  }

  /** `v[k]`. Dict keys are strings, so an integer subscript of a dict is a
      KeyError; a string subscript of anything but a dict is a TypeError. */
  function Subscript(v: Value, k: Key): (r: Outcome<Value>)
    ensures r.Ok? <==>
      || (v.Dict? && k.Field? && k.name in v.fields)
      || (v.List? && k.Index? && k.i < |v.items|)
      || (v.Str? && k.Index? && k.i < |v.s|)
    ensures v.Dict? && k.Field? && k.name in v.fields ==> r == Ok(v.fields[k.name])
    ensures v.List? && k.Index? && k.i < |v.items| ==> r == Ok(v.items[k.i])
    ensures r.Raise? ==> r.exc == KeyError(k) || r.exc == IndexError || r.exc == TypeError
    ensures r == Raise(KeyError(k)) <==> v.Dict? && (k.Index? || k.name !in v.fields)
  {
    match v
    case Dict(m) =>
      if k.Field? && k.name in m then Ok(m[k.name]) else Raise(KeyError(k))
    case List(xs) =>
      if !k.Index? then Raise(TypeError)
      else if k.i < |xs| then Ok(xs[k.i])
      else Raise(IndexError)
    case Str(s) =>
      if !k.Index? then Raise(TypeError)
      else if k.i < |s| then Ok(Str([s[k.i]]))
      else Raise(IndexError)
    case _ => Raise(TypeError)
  }

  function LowerChar(c: char): char {
    if 'A' <= c <= 'Z' then (c as int - 'A' as int + 'a' as int) as char else c
  }

  /** `s.lower()` on the ASCII letters; other characters are kept. */
  function Lower(s: string): (r: string)
    ensures |r| == |s|
    ensures forall i :: 0 <= i < |s| ==> r[i] == LowerChar(s[i])
    ensures forall i :: 0 <= i < |r| ==> !('A' <= r[i] <= 'Z')
  {
    if s == [] then [] else [LowerChar(s[0])] + Lower(s[1..])
  }

  /** Lower-casing twice is lower-casing once. */
  lemma LowerIdempotent(s: string)
    ensures Lower(Lower(s)) == Lower(s)
  {
    var t := Lower(s);
    assert forall i :: 0 <= i < |t| ==> LowerChar(t[i]) == t[i];
  }

  function DigitChar(d: nat): char
    requires d < 10
  {
    ('0' as int + d) as char
  }

  predicate IsDigit(c: char) {
    '0' <= c <= '9'
  }

  /** `str(n)` for a natural number: its decimal digits, most significant first. */
  function Decimal(n: nat): (r: string)
    ensures 1 <= |r|
    ensures forall i :: 0 <= i < |r| ==> IsDigit(r[i])
    ensures |r| > 1 ==> r[0] != '0'
    decreases n
  {
    if n < 10 then [DigitChar(n)] else Decimal(n / 10) + [DigitChar(n % 10)]
  }

  /** `int(s)` for a string of decimal digits: the inverse of `Decimal`. */
  function DecimalValue(s: string): nat
    requires forall i :: 0 <= i < |s| ==> IsDigit(s[i])
  {
    if s == [] then 0
    else
      assert IsDigit(s[|s| - 1]);
      DecimalValue(s[..|s| - 1]) * 10 + (s[|s| - 1] as int - '0' as int)
  }

  /** Reading back the digits that `Decimal` writes gives the number. */
  lemma {:induction false} DecimalRoundTrip(n: nat)
    ensures DecimalValue(Decimal(n)) == n
    decreases n
  {
    var r := Decimal(n);
    if n >= 10 {
      DecimalRoundTrip(n / 10);
      assert r[..|r| - 1] == Decimal(n / 10);
    }
  }

  /** A number below 10^k has at most k digits. */
  lemma {:induction false} DecimalLength(n: nat, k: nat)
    requires 1 <= k
    requires n < Pow10(k)
    ensures |Decimal(n)| <= k
    decreases n
  {
    if n >= 10 {
      assert n / 10 < Pow10(k - 1);
      DecimalLength(n / 10, k - 1);
    }
  }

  function Pow10(k: nat): (p: nat)
    ensures p >= 1
  {
    if k == 0 then 1 else 10 * Pow10(k - 1)
  }
}
