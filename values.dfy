/** JSON-like values as the modelled Python code sees them after `response.json()`,
    and the handful of Python operations the code applies to them (`d.get`, `k in d`,
    `d[k]`). Where Python would raise, the operation returns `Err` with the exception's
    class; the exception messages are not modelled. */
module Values {

  datatype Option<T> = None | Some(value: T)

  /** The exceptions the modelled code can raise. */
  datatype PyError =
    | AttributeError   // `.get`, `.items` or `.startswith` on a value that lacks the method
    | TypeError        // `in`, iteration or subscription on a value that does not support it
    | KeyError         // `d[k]` on a dict without the key `k`
    | QueueRejected    // RuntimeError: the /prompt reply carries an "error" entry
    | ExecutionFailed  // RuntimeError: the history's `status.status_str` is "error"
    | TimedOut         // TimeoutError: the poll budget is used up

  datatype Result<T> = Ok(value: T) | Err(error: PyError)

  /** A JSON value; an object keeps its fields in insertion order, as a Python dict does. */
  datatype Value =
    | Null
    | Bool(b: bool)
    | Num(x: real)
    | Str(s: string)
    | Arr(items: seq<Value>)
    | Obj(fields: seq<Field>)

  datatype Field = Field(name: string, value: Value)

  /** The value stored under `key`: the first field with that name. */
  function Lookup(fields: seq<Field>, key: string): (r: Option<Value>)
    ensures r.None? <==> forall i :: 0 <= i < |fields| ==> fields[i].name != key
    ensures r.Some? ==> exists i :: 0 <= i < |fields| && fields[i] == Field(key, r.value)
  {
    if |fields| == 0 then None
    else if fields[0].name == key then Some(fields[0].value)
    else
      var r := Lookup(fields[1..], key);
      assert forall i :: 1 <= i < |fields| ==> fields[i] == fields[1..][i - 1];
      r
  }

  /** Python's `key in s` for two strings: `key` is a prefix of some suffix of `s`. */
  function IsSubstring(key: string, s: string): (r: bool)
    ensures r <==> exists i :: 0 <= i <= |s| && key <= s[i..]
  {
    if key <= s then
      assert s[0..] == s;
      true
    else if |s| == 0 then false
    else
      var r := IsSubstring(key, s[1..]);
      assert forall i :: 0 <= i <= |s| - 1 ==> s[1..][i..] == s[i + 1..];
      assert forall i :: 1 <= i <= |s| ==> s[i..] == s[1..][i - 1..];
      r
  }

  /** Python's `v.get(key, default)`. */
  function DictGet(v: Value, key: string, default: Value): (r: Result<Value>)
    ensures r.Err? <==> !v.Obj?
    ensures r.Err? ==> r.error == AttributeError
    ensures v.Obj? && Lookup(v.fields, key).Some? ==> r == Ok(Lookup(v.fields, key).value)
    ensures v.Obj? && Lookup(v.fields, key).None? ==> r == Ok(default)
  {
    match v
    case Obj(fields) =>
      (match Lookup(fields, key)
       case Some(x) => Ok(x)
       case None => Ok(default))
    case _ => Err(AttributeError)
  }

  /** Python's `key in v` for a string `key`: a key of a dict, an element of a list,
      a substring of a string; anything else raises TypeError. */
  function Contains(key: string, v: Value): (r: Result<bool>)
    ensures v.Obj? ==> r == Ok(Lookup(v.fields, key).Some?)
    ensures v.Arr? ==> r == Ok(Str(key) in v.items)
    ensures v.Str? ==> r == Ok(IsSubstring(key, v.s))
    ensures !v.Obj? && !v.Arr? && !v.Str? ==> r == Err(TypeError)
  {
    match v
    case Obj(fields) => Ok(Lookup(fields, key).Some?)
    case Arr(items) => Ok(Str(key) in items)
    case Str(s) => Ok(IsSubstring(key, s))
    case _ => Err(TypeError)
  }

  /** Python's `v[key]` for a string `key`. */
  function Subscript(v: Value, key: string): (r: Result<Value>)
    ensures r.Ok? <==> v.Obj? && Lookup(v.fields, key).Some?
    ensures r.Ok? ==> r.value == Lookup(v.fields, key).value
    ensures r.Err? ==> r.error == (if v.Obj? then KeyError else TypeError)
  {
    match v
    case Obj(fields) =>
      (match Lookup(fields, key)
       case Some(x) => Ok(x)
       case None => Err(KeyError))
    case _ => Err(TypeError)
  }

  /** `pre` followed by what a later step produced; a failure of that step wins. */
  function Prepend<T>(pre: seq<T>, rest: Result<seq<T>>): Result<seq<T>>
  {
    match rest
    case Ok(s) => Ok(pre + s)
    case Err(e) => Err(e)
  }

  lemma PrependPrepend<T>(a: seq<T>, b: seq<T>, rest: Result<seq<T>>)
    ensures Prepend(a, Prepend(b, rest)) == Prepend(a + b, rest)
  {
    if rest.Ok? {
      assert a + (b + rest.value) == (a + b) + rest.value;
    }
  }

  /** The records of one step followed by those of the steps after it; the first failure wins. */
  function Chain<T>(first: Result<seq<T>>, rest: Result<seq<T>>): Result<seq<T>>
  {
    match first
    case Err(e) => Err(e)
    case Ok(a) => Prepend(a, rest)
  }

  lemma PrependNothing<T>(rest: Result<seq<T>>)
    ensures Prepend([], rest) == rest
  {
    if rest.Ok? {
      assert [] + rest.value == rest.value;
    }
  }

  lemma ChainPrepend<T>(a: seq<T>, first: Result<seq<T>>, rest: Result<seq<T>>)
    ensures Chain(Prepend(a, first), rest) == Prepend(a, Chain(first, rest))
  {
    if first.Ok? {
      PrependPrepend(a, first.value, rest);
    }
  }
}
