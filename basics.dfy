/** Values shared by the prompt builder and the chat view: optional values,
    Python-style raised exceptions, and the three states a key of a JSON
    object can be in. */
module Basics {

  datatype Option<T> = None | Some(value: T)

  /** The outcome of a Python computation that either returns a value or
      raises (a TypeError while formatting, a ValueError from the client
      factory); the exception text is never observable by the caller. */
  datatype Result<T> = Ok(value: T) | Raised

  /** A key of a decoded JSON object: absent, present with `null`, or present
      with a value. Python tells the first two apart for truthiness of the
      enclosing dict and for `dict.get(key, default)`. */
  datatype Field<T> = Missing | Null | Given(value: T)

  /** `d.get(key)`: the value, or None both for an absent key and for null. */
  function Get<T>(f: Field<T>): (r: Option<T>)
    ensures r.Some? <==> f.Given?
    ensures r.Some? ==> r.value == f.value
  {
    if f.Given? then Some(f.value) else None
  }

  /** `d.get(key, default)`: the default only for an ABSENT key; a key that
      is present with null still yields None. */
  function GetOr<T>(f: Field<T>, default: T): (r: Option<T>)
    ensures r == None <==> f == Null
    ensures f == Missing ==> r == Some(default)
    ensures f.Given? ==> r == Some(f.value)
  {
    match f
    case Missing => Some(default)
    case Null => None
    case Given(v) => Some(v)
  }

  /** Python truthiness of an optional string: None and "" are falsy. */
  predicate TruthyString(s: Option<string>) {
    s.Some? && s.value != ""
  }
}
