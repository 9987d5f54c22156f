/**
 * The fragment of PHP's value model that the wrapper's logic depends on:
 * scalars and ordered arrays, the language's `empty()` test, array offset
 * lookup, the exceptions the wrapper throws, and a result type that stands
 * for "returns a value or throws".
 */
module Php {

  datatype Option<+T> = None | Some(value: T)

  /** An array key; PHP normalises integer-like string keys to integers. */
  datatype Key = IntKey(i: int) | StrKey(s: string)

  /** A PHP value. Floats, objects and resources are not part of this model. */
  datatype Value =
    | Null
    | Bool(b: bool)
    | Int(i: int)
    | Str(s: string)
    | Arr(entries: seq<Entry>)

  /** One key => value pair of an array; `entries` keep insertion order, which is `foreach` order. */
  datatype Entry = Entry(key: Key, value: Value)

  /** The exceptions the wrapper throws, with their messages. */
  datatype Exception =
    | InvalidArgumentException(message: string)
    | RuntimeException(message: string)
    | DomainException(message: string)
    | BadMethodCallException(message: string)
    | TypeError

  /** Either the value an operation returns, or the exception it throws. */
  datatype Result<+T> = Ok(value: T) | Err(error: Exception)

  /** A string that PHP converts to false: the empty string and "0". */
  predicate FalsyString(s: string) {
    s == "" || s == "0"
  }

  /**
   * PHP's `empty($x)`: true for a missing offset (`None`), null, false, 0,
   * a falsy string and the empty array.
   */
  predicate Empty(v: Option<Value>) {
    match v
    case None => true
    case Some(Null) => true
    case Some(Bool(b)) => !b
    case Some(Int(i)) => i == 0
    case Some(Str(s)) => FalsyString(s)
    case Some(Arr(entries)) => entries == []
  }

  /** PHP's `is_array($x)`; a missing offset reads as null, which is not an array. */
  predicate IsArray(v: Option<Value>) {
    v.Some? && v.value.Arr?
  }

  /** `$array[$key]` for an offset that may be missing (`None`). */
  function Lookup(entries: seq<Entry>, key: Key): (r: Option<Value>)
    ensures r.Some? ==> exists i :: 0 <= i < |entries| && entries[i] == Entry(key, r.value)
    ensures r.None? <==> forall i :: 0 <= i < |entries| ==> entries[i].key != key
  {
    if entries == [] then None
    else if entries[0].key == key then Some(entries[0].value)
    else
      var r := Lookup(entries[1..], key);
      assert forall i :: 1 <= i < |entries| ==> entries[i] == entries[1..][i - 1];
      r
  }

  /** PHP's conversion of a nullable string to string: null becomes "". */
  function Interpolate(s: Option<string>): string
  {
    match s
    case Some(text) => text
    case None => ""
  }
}
