/**
  Decoded JSON values, as Python's `json` module hands them to the analyzer
  code, and the handful of Python operations that code applies to them:
  truthiness, `dict.get`, hashability (for set and dict keys) and the `>`
  comparison used on confidences.

  JSON text itself is never decoded here: every operation that calls
  `json.loads` takes the decoder as a parameter of type `Parser`, so each
  property proved about it holds for every decoder.
*/
module JsonValue {

  datatype Option<+T> = None | Some(value: T)

  /** The Python exceptions that the modelled code can raise. */
  datatype PyError = KeyError | TypeError | AttributeError | ValueError

  /** A Python computation: a value, or the exception it raised. */
  datatype Result<+T> = Ok(value: T) | Err(error: PyError)

  datatype Json =
    | Null
    | Bool(b: bool)
    | Num(n: real)
    | Str(s: string)
    | Arr(items: seq<Json>)
    | Obj(fields: map<string, Json>)

  /** `json.loads`: `None` when the text is not valid JSON. */
  type Parser = string -> Option<Json>

  /** Python's `bool(x)` on a decoded value. */
  predicate Truthy(j: Json) {
    match j
    case Null => false
    case Bool(b) => b
    case Num(n) => n != 0.0
    case Str(s) => s != ""
    case Arr(xs) => xs != []
    case Obj(m) => m != map[]
  }

  /** `d.get(key, default)` on a decoded object. */
  function Get(m: map<string, Json>, key: string, default: Json): Json {
    if key in m then m[key] else default
  }

  /** Lists and dicts cannot be set members or dict keys. */
  predicate Hashable(j: Json) {
    !j.Arr? && !j.Obj?
  }

  predicate IsNumber(j: Json) {
    j.Num? || j.Bool?
  }

  /** A bool takes part in arithmetic comparisons as 0 or 1. */
  function NumberValue(j: Json): real
    requires IsNumber(j)
  {
    if j.Num? then j.n else if j.b then 1.0 else 0.0
  }

  /** Lexicographic order on strings, by code point, as Python compares `str`. */
  predicate StrLess(a: string, b: string) {
    if a == [] then b != []
    else if b == [] then false
    else if a[0] != b[0] then a[0] < b[0]
    else StrLess(a[1..], b[1..])
  }

  /**
    Python's `a > b` on two decoded values: numbers (and bools) compare by
    value, strings lexicographically; any other pairing raises TypeError.
  */
  function Greater(a: Json, b: Json): (r: Result<bool>)
    ensures r.Ok? <==> (IsNumber(a) && IsNumber(b)) || (a.Str? && b.Str?)
  {
    if IsNumber(a) && IsNumber(b) then Ok(NumberValue(a) > NumberValue(b))
    else if a.Str? && b.Str? then Ok(StrLess(b.s, a.s))
    else Err(TypeError)
  }

  lemma {:induction false} StrLessIrreflexive(a: string)
    ensures !StrLess(a, a)
  {
    if a != [] {
      StrLessIrreflexive(a[1..]);
    }
  }

  lemma {:induction false} StrLessTransitive(a: string, b: string, c: string)
    requires StrLess(a, b) && StrLess(b, c)
    ensures StrLess(a, c)
  {
    if a != [] && b != [] && c != [] && a[0] == b[0] && b[0] == c[0] {
      StrLessTransitive(a[1..], b[1..], c[1..]);
    }
  }

  /** Any two different strings are ordered one way or the other. */
  lemma {:induction false} StrLessTotal(a: string, b: string)
    requires a != b
    ensures StrLess(a, b) || StrLess(b, a)
  {
    if a != [] && b != [] && a[0] == b[0] {
      assert a == [a[0]] + a[1..] && b == [b[0]] + b[1..];
      StrLessTotal(a[1..], b[1..]);
    }
  }

  /** `c > b` and `b > a` give `c > a`. */
  lemma GreaterTransitive(a: Json, b: Json, c: Json)
    requires Greater(b, a) == Ok(true) && Greater(c, b) == Ok(true)
    ensures Greater(c, a) == Ok(true)
  {
    if a.Str? {
      StrLessTransitive(a.s, b.s, c.s);
    }
  }

  /** `a > b` being false and `c > b` give `c > a`: `a <= b < c`. */
  lemma GreaterAfterNotGreater(a: Json, b: Json, c: Json)
    requires Greater(a, b) == Ok(false) && Greater(c, b) == Ok(true)
    ensures Greater(c, a) == Ok(true)
  {
    if a.Str? {
      if a.s == b.s {
      } else {
        StrLessTotal(a.s, b.s);
        StrLessTransitive(a.s, b.s, c.s);
      }
    }
  }

  /** `a > b` false and `b > c` false give `a > c` false: `a <= b <= c`. */
  lemma NotGreaterTransitive(a: Json, b: Json, c: Json)
    requires Greater(a, b) == Ok(false) && Greater(b, c) == Ok(false)
    ensures Greater(a, c) == Ok(false)
  {
    if a.Str? {
      if a.s != b.s && b.s != c.s {
        StrLessTotal(a.s, b.s);
        StrLessTotal(b.s, c.s);
        StrLessTransitive(a.s, b.s, c.s);
        if StrLess(c.s, a.s) {
          StrLessTransitive(a.s, b.s, c.s);
          StrLessTransitive(c.s, a.s, c.s);
          StrLessIrreflexive(c.s);
        }
      }
    }
  }
}
