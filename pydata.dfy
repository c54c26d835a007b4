/**
 * The Python values the account code passes around: request payloads and validated
 * data are dicts from field name to value, and the helpers raise a few built-in exceptions.
 */
module PyData {
  import opened Models
  import Wrappers

  /** A Python value as it can appear in a payload, in validated data or in a response. */
  datatype Value =
    | NoneV
    | BoolV(b: bool)
    | IntV(i: int)
    | StrV(s: string)
    | ListV(items: seq<Value>)
    | DictV(entries: map<string, Value>)
    | UserV(user: User)

  /** `type(v).__name__`, as it appears in an AttributeError message. */
  function TypeName(v: Value): string {
    match v
    case NoneV => "NoneType"
    case BoolV(_) => "bool"
    case IntV(_) => "int"
    case StrV(_) => "str"
    case ListV(_) => "list"
    case DictV(_) => "dict"
    case UserV(_) => "User"
  }

  /** `bool(v)`: None, False, 0 and empty containers are false; a model instance is true. */
  predicate Truthy(v: Value) {
    match v
    case NoneV => false
    case BoolV(b) => b
    case IntV(i) => i != 0
    case StrV(s) => |s| > 0
    case ListV(items) => |items| > 0
    case DictV(entries) => |entries| > 0
    case UserV(_) => true
  }

  /** The exceptions that the modelled code raises or catches. */
  datatype PyExc =
    | AttributeError(typeName: string, attr: string)
    | KeyError(key: string)
    | IndexError
    | NotAuthenticatedError
    | DatabaseError(text: string)
    | OtherError(text: string)

  /** `str(e)`. */
  function ExcStr(e: PyExc): string {
    match e
    case AttributeError(t, a) => "'" + t + "' object has no attribute '" + a + "'"
    case KeyError(k) => "'" + k + "'"
    case IndexError => "list index out of range"
    case NotAuthenticatedError => "Authentication credentials were not provided."
    case DatabaseError(text) => text
    case OtherError(text) => text
  }

  /** `d[key]` on a dict: the value, or KeyError. */
  function Get(d: map<string, Value>, key: string): (r: Wrappers.Result<Value, PyExc>)
    ensures r.Success? <==> key in d
    ensures r.Success? ==> r.value == d[key]
    ensures r.Failure? ==> r.error == KeyError(key)
  {
    if key in d then Wrappers.Success(d[key]) else Wrappers.Failure(KeyError(key))
  }

  /** A dict object that callers share and update in place. */
  class Dict {
    var entries: map<string, Value>

    constructor (entries: map<string, Value>)
      ensures this.entries == entries
    {
      this.entries := entries;
    }

    /** `d.pop(key)` for a key that is present: the value comes out and the key goes away. */
    method Pop(key: string) returns (v: Value)
      requires key in entries
      modifies this
      ensures v == old(entries)[key]
      ensures entries == old(entries) - {key}
    {
      v := entries[key];
      entries := entries - {key};
    }
  }
}
