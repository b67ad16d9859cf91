/**
 * The business payload: a JSON-like dictionary read field by field with
 * `dict.get(key, default)`. The readers return `Err` exactly where the
 * source's next operation on the value would raise.
 */
module BusinessData {
  import opened Wrappers

  /** A JSON value as it can appear in a payload (booleans and nested objects are not modelled). */
  datatype Value = Num(n: real) | Str(s: string) | List(items: seq<Value>) | Null

  type Data = map<string, Value>

  /** Python's `type(v).__name__`, as it appears in exception messages. */
  function TypeName(v: Value): string
  {
    match v
    case Num(_) => "float"
    case Str(_) => "str"
    case List(_) => "list"
    case Null => "NoneType"
  }

  /** The TypeError message of comparing a value of type `typeName` with an int. */
  function CompareError(op: string, typeName: string): string
  {
    "'" + op + "' not supported between instances of '" + typeName + "' and 'int'"
  }

  /** `d.get(key)`: the stored value, or `None` when the key is absent. */
  function Get(d: Data, key: string): (v: Value)
    ensures key !in d ==> v == Null
    ensures key in d ==> v == d[key]
  {
    if key in d then d[key] else Null
  }

  /**
   * `d.get(key, 0)` followed by a comparison `op` against an int literal:
   * an absent key reads as 0, a number as itself, and any other value makes
   * the comparison raise a TypeError.
   */
  function NumberField(d: Data, key: string, op: string): (r: Result<real>)
    ensures key !in d ==> r == Ok(0.0)
    ensures r.Ok? <==> key !in d || d[key].Num?
    ensures key in d && d[key].Num? ==> r.value == d[key].n
  {
    if key !in d then Ok(0.0)
    else match d[key]
      case Num(n) => Ok(n)
      case other =>
        Err(CompareError(op, TypeName(other)))
  }

  /**
   * `d.get(key, default)` used as a key into a table whose keys are strings:
   * `Some(s)` for a string, `None` for a hashable non-string (it matches no
   * entry), and an error for a list, which is unhashable.
   */
  function KeyField(d: Data, key: string, default: string): (r: Result<Option<string>>)
    ensures key !in d ==> r == Ok(Some(default))
    ensures r.Err? <==> key in d && d[key].List?
    ensures r.Ok? && r.value.Some? ==> key !in d || d[key] == Str(r.value.value)
  {
    if key !in d then Ok(Some(default))
    else match d[key]
      case Str(s) => Ok(Some(s))
      case List(_) => Err("unhashable type: 'list'")
      case _ => Ok(None)
  }

  /** The value stored under `key`, or `Str(default)` when absent: `d.get(key, default)`. */
  function GetOr(d: Data, key: string, default: string): (v: Value)
    ensures key !in d ==> v == Str(default)
    ensures key in d ==> v == d[key]
  {
    if key in d then d[key] else Str(default)
  }

  /** The field reads as a number: it is absent or numeric. */
  predicate NumOk(d: Data, key: string)
  {
    key !in d || d[key].Num?
  }

  /** The number a readable field stands for, 0 when absent. */
  function NumOr0(d: Data, key: string): real
  {
    if key in d && d[key].Num? then d[key].n else 0.0
  }

  /** The table key a field stands for (see KeyField), when it is not a list. */
  function KeyOr(d: Data, key: string, default: string): Option<string>
  {
    if key !in d then Some(default) else if d[key].Str? then Some(d[key].s) else None
  }

  lemma FieldReaders(d: Data, key: string, op: string, default: string)
    ensures NumberField(d, key, op).Ok? <==> NumOk(d, key)
    ensures NumOk(d, key) ==> NumberField(d, key, op) == Ok(NumOr0(d, key))
    ensures KeyField(d, key, default).Ok? ==> KeyField(d, key, default) == Ok(KeyOr(d, key, default))
  {
  }
}
