/**
 * A Django session: a dictionary from string keys to Python values, updated in place by
 * `session[key] = v` and `session.pop(key, default)`.
 */
module Sessions {

  /** The Python values the core stores in sessions, task results and render contexts. */
  datatype Value =
    | Null
    | Bool(b: bool)
    | Int(i: int)
    | Float(f: real)
    | Str(s: string)
    | Dict(entries: map<string, Value>)

  /** Python truthiness: `None`, `False`, zero, `''` and `{}` are false, everything else true. */
  predicate Truthy(v: Value) {
    match v
    case Null => false
    case Bool(b) => b
    case Int(i) => i != 0
    case Float(f) => f != 0.0
    case Str(s) => s != ""
    case Dict(e) => e != map[]
  }

  /** `d.get(key, default)` on a dictionary. */
  function Get(d: map<string, Value>, key: string, default: Value): Value {
    if key in d then d[key] else default
  }

  /** `a` and `b` agree at `key`: both lack it, or both hold the same value under it. */
  predicate SameAt(a: map<string, Value>, b: map<string, Value>, key: string) {
    (key in a <==> key in b) && (key in a ==> a[key] == b[key])
  }

  /** What an operation hands to its caller, together with the session it leaves behind. */
  datatype Step<+R> = Step(result: R, session: map<string, Value>)

  class Session {
    var data: map<string, Value>

    constructor (initial: map<string, Value>)
      ensures data == initial
    {
      data := initial;
    }

    /** `session.get(key, default)`. */
    function Lookup(key: string, default: Value): Value
      reads this
    {
      Get(data, key, default)
    }

    /** `session[key] = v`. */
    method Set(key: string, v: Value)
      modifies this
      ensures data == old(data)[key := v]
    {
      data := data[key := v];
    }

    /** `session.pop(key, default)`: removes `key` and returns what it held. */
    method Pop(key: string, default: Value) returns (v: Value)
      modifies this
      ensures v == Get(old(data), key, default)
      ensures data == old(data) - {key}
    {
      v := Get(data, key, default);
      data := data - {key};
    }
  }
}
