/** JSON values as `json.loads` returns them, and the Python operations the
    modelled code applies to them.  An object is an insertion-ordered dict;
    a number keeps both its value and the text `str()` prints for it. */
module Json {
  import opened Wrappers
  import opened PyText
  import OrderedDict

  datatype Value =
    | Null
    | Bool(b: bool)
    | Num(n: real, text: string)
    | Str(s: string)
    | Arr(items: seq<Value>)
    | Obj(fields: OrderedDict.Dict<string, Value>)

  type Fields = OrderedDict.Dict<string, Value>

  /** `d.get(k, default)` */
  function Get(fs: Fields, k: string, default: Value): Value {
    OrderedDict.Lookup(fs, k).GetOr(default)
  }

  predicate HasKey(fs: Fields, k: string) {
    OrderedDict.Lookup(fs, k).Some?
  }

  /** `iter(v)`: a list yields its items, a string its characters, a dict its
      keys; anything else raises `TypeError`. */
  function Iterate(v: Value): Result<seq<Value>> {
    match v
    case Arr(items) => Ok(items)
    case Str(s) => Ok(seq(|s|, i requires 0 <= i < |s| => Str([s[i]])))
    case Obj(fs) => Ok(seq(|fs|, i requires 0 <= i < |fs| => Str(fs[i].0)))
    case _ => Err(TypeError)
  }

  /** `v == i` for a Python `int` `i` (`True == 1`, `0.0 == 0`). */
  predicate EqualsInt(v: Value, i: int) {
    match v
    case Num(n, _) => n == i as real
    case Bool(b) => (if b then 1 else 0) == i
    case _ => false
  }

  /** `i in v` for a Python `int` `i`. */
  function IntIn(i: int, v: Value): Result<bool> {
    match v
    case Arr(items) => Ok(exists k :: 0 <= k < |items| && EqualsInt(items[k], i))
    case Obj(fs) => Ok(false)
    case _ => Err(TypeError)
  }

  /** `key in v` for a Python `str` `key`. */
  function StrIn(key: string, v: Value): Result<bool> {
    match v
    case Obj(fs) => Ok(HasKey(fs, key))
    case Arr(items) => Ok(Str(key) in items)
    case Str(s) => Ok(Contains(s, key))
    case _ => Err(TypeError)
  }

  /** `repr(v)`; strings are always quoted with `'` and never escaped. */
  function Repr(v: Value): string
    decreases v
  {
    match v
    case Null => "None"
    case Bool(b) => if b then "True" else "False"
    case Num(_, text) => text
    case Str(s) => "'" + s + "'"
    case Arr(items) =>
      "[" + Join(seq(|items|, i requires 0 <= i < |items| => Repr(items[i])), ", ") + "]"
    case Obj(fs) =>
      "{" + Join(seq(|fs|, i requires 0 <= i < |fs| => FieldRepr(fs, i, v)), ", ") + "}"
  }

  function FieldRepr(fs: Fields, i: nat, parent: Value): string
    requires i < |fs| && parent == Obj(fs)
    decreases parent, 0
  {
    assert fs[i] in fs;
    "'" + fs[i].0 + "': " + Repr(fs[i].1)
  }

  /** `str(v)` */
  function PyStr(v: Value): string {
    if v.Str? then v.s else Repr(v)
  }
}
