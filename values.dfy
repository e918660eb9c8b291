/** The GraphQL argument values and configuration values the backends read:
    Python's `None`, booleans, integers, strings, lists and dicts. Decimal,
    float and date inputs are carried as `Int` or `Str`. */
module Values {
  import opened Wrappers
  import opened Dicts
  import S = Strs

  datatype Value =
    | Null
    | Bool(b: bool)
    | Int(i: int)
    | Str(s: string)
    | List(items: seq<Value>)
    | Obj(fields: Dict<string, Value>)

  /** Python truthiness: `None`, `False`, `0`, `""`, `[]` and `{}` are false. */
  predicate Truthy(v: Value) {
    match v
    case Null => false
    case Bool(b) => b
    case Int(i) => i != 0
    case Str(s) => s != ""
    case List(items) => items != []
    case Obj(fields) => fields != []
  }

  /** Python `==` on the values above; `True == 1` and `False == 0` hold. */
  predicate PyEq(a: Value, b: Value) {
    match (a, b)
    case (Bool(x), Int(y)) => (if x then 1 else 0) == y
    case (Int(x), Bool(y)) => x == (if y then 1 else 0)
    case _ => a == b
  }

  /** `v in xs` for a tuple `xs`. */
  predicate PyIn(v: Value, xs: seq<Value>) {
    exists i :: 0 <= i < |xs| && PyEq(v, xs[i])
  }

  /** `v.get(k)` on a dict value; anything else has no keys. */
  function Field(v: Value, k: string): Option<Value> {
    if v.Obj? then Get(v.fields, k) else None
  }

  /** `k in v` on a dict value. */
  predicate HasField(v: Value, k: string) {
    v.Obj? && HasKey(v.fields, k)
  }

  /** `v.get(k, default)`: an explicit `None` under `k` stays `None` (the
      `.get(k) or …` idiom is separate: see `Or`). */
  function FieldOr(v: Value, k: string, default: Value): Value {
    Field(v, k).GetOr(default)
  }

  /** `v[k]` with a string key: a dict without `k` raises KeyError, and a
      value that is not a dict cannot be indexed by a string. */
  function Subscript(v: Value, k: string): (r: Result<Value>)
    ensures r.Ok? <==> HasField(v, k)
    ensures r.Ok? ==> Field(v, k) == Some(r.value)
    ensures r.Err? ==> r.error == if v.Obj? then KeyError else TypeError
  {
    if !v.Obj? then Err(TypeError)
    else if HasKey(v.fields, k) then Ok(Get(v.fields, k).value) else Err(KeyError)
  }

  /** Python's `a or b`. */
  function Or(a: Value, b: Value): (r: Value)
    ensures Truthy(r) <==> Truthy(a) || Truthy(b)
    ensures r == a || r == b
  {
    if Truthy(a) then a else b
  }

  /** `isinstance(v, (list, tuple))`. */
  predicate IsList(v: Value) {
    v.List?
  }

  /** One element of `dict(iterable)`: it must yield exactly two items, the
      key and the value. A string yields its characters and a dict its keys.
      Keys other than strings are not represented and count as a TypeError. */
  function DictPair(item: Value): (r: Result<(string, Value)>)
    ensures item.Str? ==> (r.Ok? <==> |item.s| == 2)
    ensures item.Null? || item.Bool? || item.Int? ==> r == Err(TypeError)
  {
    match item
    case Str(s) => if |s| == 2 then Ok(([s[0]], Str([s[1]]))) else Err(ValueError)
    case List(xs) =>
      if |xs| != 2 then Err(ValueError) else if xs[0].Str? then Ok((xs[0].s, xs[1])) else Err(TypeError)
    case Obj(fs) => if |fs| != 2 then Err(ValueError) else Ok((fs[0].0, Str(fs[1].0)))
    case _ => Err(TypeError)
  }

  /** The pairs put one after another, the later of two equal keys winning. */
  function DictFrom(acc: Dict<string, Value>, items: seq<Value>): (r: Result<Dict<string, Value>>)
    ensures r.Ok? <==> forall i :: 0 <= i < |items| ==> DictPair(items[i]).Ok?
    ensures r.Ok? && Distinct(acc) ==> Distinct(r.value)
    decreases |items|
  {
    if items == [] then Ok(acc)
    else
      var p :- DictPair(items[0]);
      PutProperties(acc, p.0, p.1);
      var r := DictFrom(Put(acc, p.0, p.1), items[1..]);
      assert forall i :: 1 <= i < |items| ==> items[i] == items[1..][i - 1];
      if r.Err? then
        var j :| 0 <= j < |items[1..]| && DictPair(items[1..][j]).Err?;
        assert DictPair(items[j + 1]).Err?;
        r
      else r
  }

  /** `dict(v)`: a dict is copied, a list is read as pairs, the empty string
      is the empty dict and any other string fails on its one-character
      elements; `None`, booleans and integers are not iterable. */
  function PyDict(v: Value): (r: Result<Dict<string, Value>>)
    ensures v.Obj? ==> r == Ok(v.fields)
    ensures v.Str? ==> r == if v.s == "" then Ok([]) else Err(ValueError)
    ensures v.Null? || v.Bool? || v.Int? ==> r == Err(TypeError)
    ensures v.List? ==> (r.Ok? <==> forall i :: 0 <= i < |v.items| ==> DictPair(v.items[i]).Ok?)
    ensures v.List? && r.Ok? ==> Distinct(r.value)
  {
    match v
    case Obj(fs) => Ok(fs)
    case List(xs) => DictFrom([], xs)
    case Str(s) => if s == "" then Ok([]) else Err(ValueError)
    case _ => Err(TypeError)
  }

  /** Python's `x in container`: key membership for a dict, item membership
      for a list, substring for a string; `None`, booleans and integers are
      not containers. */
  function PyContains(container: Value, x: string): (r: Result<bool>)
    ensures container.Obj? ==> r == Ok(HasField(container, x))
    ensures container.List? ==> r == Ok(PyIn(Str(x), container.items))
    ensures container.Str? ==> r == Ok(S.Contains(container.s, x))
    ensures r.Err? <==> container.Null? || container.Bool? || container.Int?
    ensures r.Err? ==> r.error == TypeError
  {
    match container
    case Obj(_) => Ok(HasField(container, x))
    case List(items) => Ok(PyIn(Str(x), items))
    case Str(s) => Ok(S.Contains(s, x))
    case _ => Err(TypeError)
  }
}
