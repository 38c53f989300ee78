/**
 JSON-like values as the GeoRequetes import script receives them (rows of the
 delimited-text reader, decoded feature collections, search hits), and the
 handful of Python operations the transformer applies to them. Each operation
 returns a `Result` whose error is the exception Python would raise.
 */
module Json {

  datatype Option<+T> = None | Some(value: T)

  /** A decoded JSON value. Numbers are only ever copied, never computed with,
      so a number is kept as its literal text. */
  datatype Value =
    | Null
    | Bool(b: bool)
    | Num(literal: string)
    | Str(s: string)
    | Arr(items: seq<Value>)
    | Obj(fields: map<string, Value>)

  /** The exceptions that malformed input makes the transformer raise. */
  datatype Error = KeyError | IndexError | TypeError

  datatype Result<+T> = Ok(value: T) | Err(error: Error) {
    predicate IsFailure() { Err? }

    function PropagateFailure<U>(): (r: Result<U>)
      requires Err?
    {
      Err(error)
    }

    function Extract(): (v: T)
      requires Ok?
    {
      value
    }
  }

  /** `v[key]` with a string key: only a dict can be subscripted by a string. */
  function Subscript(v: Value, key: string): (r: Result<Value>) {
    match v
    case Obj(m) => if key in m then Ok(m[key]) else Err(KeyError)
    case _ => Err(TypeError)
  }

  /** `v[k0][k1]...`, evaluated left to right; the first failing step raises. */
  function Path(v: Value, keys: seq<string>): (r: Result<Value>)
    decreases |keys|
  {
    if keys == [] then Ok(v)
    else
      var w :- Subscript(v, keys[0]);
      Path(w, keys[1..])
  }

  /** `v[i]` with a non-negative integer index: a list gives its element, a
      string its one-character substring; a decoded dict has only string keys,
      so an integer key is missing. */
  function Item(v: Value, i: nat): (r: Result<Value>) {
    match v
    case Arr(xs) => if i < |xs| then Ok(xs[i]) else Err(IndexError)
    case Str(s) => if i < |s| then Ok(Str([s[i]])) else Err(IndexError)
    case Obj(_) => Err(KeyError)
    case _ => Err(TypeError)
  }

  /** Python's `in` on a string (substring test). */
  predicate IsSubstring(needle: string, hay: string)
    decreases |hay|
  {
    |needle| <= |hay| && (hay[..|needle|] == needle || (|hay| > 0 && IsSubstring(needle, hay[1..])))
  }

  /** `key in v`: key membership for a dict, element equality for a list,
      substring for a string; other values do not support `in`. */
  function Contains(key: string, v: Value): (r: Result<bool>) {
    match v
    case Obj(m) => Ok(key in m)
    case Arr(xs) => Ok(Str(key) in xs)
    case Str(s) => Ok(IsSubstring(key, s))
    case _ => Err(TypeError)
  }

  /** `v[key] = x` on a dict, as the new value of `v`. */
  function SetKey(v: Value, key: string, x: Value): (r: Result<Value>) {
    match v
    case Obj(m) => Ok(Obj(m[key := x]))
    case _ => Err(TypeError)
  }

  /** `prefix + v` where `prefix` is a string literal: only a string can be
      concatenated to it. */
  function AddPrefix(prefix: string, v: Value): (r: Result<Value>) {
    match v
    case Str(s) => Ok(Str(prefix + s))
    case _ => Err(TypeError)
  }

  /** The elements a `for x in v` loop visits, for a loop whose body starts by
      subscripting `x` with a string key. A list gives its elements. A dict
      gives its keys and a string its characters; both are strings, so the
      first subscript raises TypeError, and only an empty dict or string runs
      the loop to completion (zero iterations). Other values are not
      iterable. */
  function Iterate(v: Value): (r: Result<seq<Value>>) {
    match v
    case Arr(xs) => Ok(xs)
    case Obj(m) => if m == map[] then Ok([]) else Err(TypeError)
    case Str(s) => if s == "" then Ok([]) else Err(TypeError)
    case _ => Err(TypeError)
  }
}
