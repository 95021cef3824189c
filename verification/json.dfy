/**
  Decoded JSON values as Python's `json` module produces them, and the handful
  of Python operations the synchroniser applies to them: truthiness, `or`,
  `dict.get`, subscription `v[key]`, membership `key in v` and iteration.
  Each operation raises (a `Fault`) exactly when Python would raise for that
  kind of value.
*/
module Json {
  import opened Wrappers

  /** A decoded JSON document. `Int` and `Float` stay apart, as they do in Python. */
  datatype Value =
    | Null
    | Bool(b: bool)
    | Int(i: int)
    | Float(x: real)
    | Str(s: string)
    | Arr(items: seq<Value>)
    | Obj(fields: map<string, Value>)

  /** The exceptions Python raises when a value is used as the wrong kind. */
  datatype Fault =
    | KeyError(key: string)   // `d[k]` on a dict without `k`
    | TypeError               // subscription, membership or iteration the kind does not support
    | AttributeError          // `.get` on something that is not a dict

  /** Python's truth value of a decoded JSON value. */
  predicate Truthy(v: Value) {
    match v
    case Null => false
    case Bool(b) => b
    case Int(i) => i != 0
    case Float(x) => x != 0.0
    case Str(s) => |s| > 0
    case Arr(a) => |a| > 0
    case Obj(m) => |m| > 0
  }

  /** Python's `a or b`: the first operand when it is truthy, else the second. */
  function Or(a: Value, b: Value): (r: Value)
    ensures Truthy(r) <==> Truthy(a) || Truthy(b)
    ensures r == a || r == b
    ensures Truthy(a) ==> r == a
    ensures !Truthy(a) ==> r == b
  {
    if Truthy(a) then a else b
  }

  /** `d.get(k)` on a dict: the value under `k`, or `None` (serialised as `null`) when absent. */
  function Get(m: map<string, Value>, k: string): (r: Value)
    ensures k !in m ==> r == Null
    ensures k in m ==> r == m[k]
  {
    if k in m then m[k] else Null
  }

  /** Whether `needle` occurs as a contiguous piece of `hay` (Python's `needle in hay` on strings). */
  predicate HasInfix(needle: string, hay: string)
    decreases |hay|
  {
    if |needle| > |hay| then false
    else hay[..|needle|] == needle || (|hay| > 0 && HasInfix(needle, hay[1..]))
  }

  /** `needle in v` for a string `needle`. */
  function Contains(v: Value, needle: string): (r: Result<bool, Fault>)
    ensures v.Obj? ==> r == Success(needle in v.fields)
    ensures v.Arr? ==> r == Success(Str(needle) in v.items)
    ensures v.Str? ==> r == Success(HasInfix(needle, v.s))
    ensures r.Failure? ==> r == Failure(TypeError)
    ensures r.Failure? <==> !(v.Obj? || v.Arr? || v.Str?)
  {
    match v
    case Obj(m) => Success(needle in m)
    case Arr(a) => Success(Str(needle) in a)
    case Str(s) => Success(HasInfix(needle, s))
    case _ => Failure(TypeError)
  }

  /** `v[key]` for a string `key`: only a dict holding `key` yields a value. */
  function Subscript(v: Value, key: string): (r: Result<Value, Fault>)
    ensures r.Success? <==> v.Obj? && key in v.fields
    ensures r.Success? ==> r.value == v.fields[key]
    ensures v.Obj? && key !in v.fields ==> r == Failure(KeyError(key))
    ensures !v.Obj? ==> r == Failure(TypeError)
  {
    match v
    case Obj(m) => if key in m then Success(m[key]) else Failure(KeyError(key))
    case _ => Failure(TypeError)
  }

  /** `v.get(key)`: defined on dicts only. */
  function GetAttr(v: Value, key: string): (r: Result<Value, Fault>)
    ensures r.Success? <==> v.Obj?
    ensures v.Obj? ==> r == Success(Get(v.fields, key))
    ensures !v.Obj? ==> r == Failure(AttributeError)
  {
    match v
    case Obj(m) => Success(Get(m, key))
    case _ => Failure(AttributeError)
  }

  /** `needle` sits in `hay` starting at position `i`. */
  predicate OccursAt(needle: string, hay: string, i: int) {
    0 <= i && i + |needle| <= |hay| && hay[i..i + |needle|] == needle
  }

  /** `needle in hay` holds exactly when `needle` starts at some position of `hay`. */
  lemma {:induction false} HasInfixIffOccurs(needle: string, hay: string)
    ensures HasInfix(needle, hay) <==> exists i :: OccursAt(needle, hay, i)
    decreases |hay|
  {
    if |needle| > |hay| {
    } else if hay[..|needle|] == needle {
      assert OccursAt(needle, hay, 0);
    } else if |hay| > 0 {
      HasInfixIffOccurs(needle, hay[1..]);
      if HasInfix(needle, hay[1..]) {
        var i :| OccursAt(needle, hay[1..], i);
        assert hay[i + 1..i + 1 + |needle|] == hay[1..][i..i + |needle|];
        assert OccursAt(needle, hay, i + 1);
      } else {
        forall i | OccursAt(needle, hay, i)
          ensures false
        {
          if i > 0 {
            assert hay[i..i + |needle|] == hay[1..][i - 1..i - 1 + |needle|];
            assert OccursAt(needle, hay[1..], i - 1);
          }
        }
      }
    }
  }
}
