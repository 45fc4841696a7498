/** The subset of Python values that `json.loads` produces and the relay
    inspects: `None`, booleans, integers, strings, lists and dicts. A dict
    keeps its keys in insertion order, as Python's does. */
module Json {
  import opened PyStr

  datatype Value =
    | Null
    | Bool(b: bool)
    | Int(i: int)
    | Str(s: string)
    | Arr(items: seq<Value>)
    | Obj(fields: seq<(string, Value)>)

  /** Python truthiness: `None`, `False`, `0` and empty containers are false. */
  predicate Truthy(v: Value) {
    match v
    case Null => false
    case Bool(b) => b
    case Int(i) => i != 0
    case Str(s) => s != ""
    case Arr(xs) => xs != []
    case Obj(fs) => fs != []
  }

  /** `k in d` for a dict. */
  predicate HasKey(fields: seq<(string, Value)>, k: string) {
    exists i :: 0 <= i < |fields| && fields[i].0 == k
  }

  /** `d.get(k)`: the value stored under `k`, if any. */
  function Get(fields: seq<(string, Value)>, k: string): (r: Option<Value>)
    ensures r.Some? <==> HasKey(fields, k)
    ensures r.Some? ==> exists i :: 0 <= i < |fields| && fields[i] == (k, r.value)
  {
    if fields == [] then None
    else if fields[0].0 == k then Some(fields[0].1)
    else
      var r := Get(fields[1..], k);
      assert forall i :: 1 <= i < |fields| ==> fields[i] == fields[1..][i - 1];
      r
  }

  /** The keys of a dict are pairwise distinct, as in every dict Python builds. */
  predicate DistinctKeys(fields: seq<(string, Value)>) {
    forall i, j :: 0 <= i < j < |fields| ==> fields[i].0 != fields[j].0
  }

  /** In a dict, looking a key up gives the value stored beside it. */
  lemma {:induction false} GetDistinct(fields: seq<(string, Value)>, i: nat)
    requires DistinctKeys(fields) && i < |fields|
    ensures Get(fields, fields[i].0) == Some(fields[i].1)
  {
    if i > 0 {
      assert fields[0].0 != fields[i].0;
      assert fields[1..][i - 1] == fields[i];
      GetDistinct(fields[1..], i - 1);
    }
  }

  /** `d.get(k, default)`. */
  function GetOr(fields: seq<(string, Value)>, k: string, default: Value): (r: Value)
    ensures !HasKey(fields, k) ==> r == default
    ensures HasKey(fields, k) ==> Get(fields, k) == Some(r)
  {
    match Get(fields, k)
    case Some(v) => v
    case None => default
  }

  /** `len(v)`; `None` where Python raises TypeError. */
  function Len(v: Value): Option<nat> {
    match v
    case Str(s) => Some(|s|)
    case Arr(xs) => Some(|xs|)
    case Obj(fs) => Some(|fs|)
    case _ => None
  }

  /** `type(v).__name__`, for the messages of the exceptions the model raises. */
  function TypeName(v: Value): string {
    match v
    case Null => "NoneType"
    case Bool(_) => "bool"
    case Int(_) => "int"
    case Str(_) => "str"
    case Arr(_) => "list"
    case Obj(_) => "dict"
  }

  /** `str(v)`, as an f-string renders a value. */
  function Text(v: Value): string {
    match v
    case Str(s) => s
    case _ => Repr(v)
  }

  /** `repr(v)`; strings are shown between single quotes without escaping. */
  function Repr(v: Value): string {
    match v
    case Null => "None"
    case Bool(b) => if b then "True" else "False"
    case Int(i) => IntToStr(i)
    case Str(s) => "'" + s + "'"
    case Arr(xs) => "[" + Join(", ", seq(|xs|, k requires 0 <= k < |xs| => Repr(xs[k]))) + "]"
    case Obj(fs) =>
      "{" + Join(", ", seq(|fs|, k requires 0 <= k < |fs| => "'" + fs[k].0 + "': " + Repr(fs[k].1))) + "}"
  }
}
