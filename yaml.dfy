/** The values a parsed `service.yaml` holds, with the Python operations the generators apply to them. */
module Yaml {
  import opened Wrappers
  import opened Strings

  /** A YAML node as `yaml.safe_load` returns it (floats and dates are not modelled). */
  datatype Value =
    | Null
    | Bool(b: bool)
    | Int(i: int)
    | Str(s: string)
    | List(items: seq<Value>)
    | Dict(entries: map<string, Value>)

  /** Python truthiness: `None`, `False`, `0`, `''`, `[]` and `{}` are false. */
  predicate Truthy(v: Value) {
    match v
    case Null => false
    case Bool(b) => b
    case Int(i) => i != 0
    case Str(s) => s != ""
    case List(items) => items != []
    case Dict(entries) => entries != map[]
  }

  /** `m.get(k, d)`: a present key wins even when its value is `None`. */
  function Get(m: map<string, Value>, k: string, d: Value): (r: Value)
    ensures k in m ==> r == m[k]
    ensures k !in m ==> r == d
  {
    if k in m then m[k] else d
  }

  /** `{**base, **over}`: a shallow union in which the keys of `over` win. */
  function Override(base: map<string, Value>, over: map<string, Value>): (r: map<string, Value>)
    ensures r.Keys == base.Keys + over.Keys
    ensures forall k :: k in over ==> r[k] == over[k]
    ensures forall k :: k in base && k !in over ==> r[k] == base[k]
  {
    base + over
  }

  /** Layered lookup: the override's value, else the base's, else the default. */
  function Layered(base: map<string, Value>, over: map<string, Value>, k: string, d: Value): Value {
    if k in over then over[k] else if k in base then base[k] else d
  }

  /** Looking a key up in the union is the layered lookup; keys only in `base` survive unchanged. */
  lemma OverrideGet(base: map<string, Value>, over: map<string, Value>, k: string, d: Value)
    ensures Get(Override(base, over), k, d) == Layered(base, over, k, d)
  {
  }

  /** `int(v)`: integers as they are, booleans as 0 and 1, digit strings parsed; anything else fails. */
  function IntOf(v: Value): (r: Option<int>)
    ensures v.Int? ==> r == Some(v.i)
    ensures v.Str? ==> (r.Some? <==> IsDigits(v.s))
    ensures (v.Null? || v.List? || v.Dict?) ==> r.None?
  {
    match v
    case Int(i) => Some(i)
    case Bool(b) => Some(if b then 1 else 0)
    case Str(s) => (match ParseDigits(s) case Some(n) => Some(n as int) case None => None)
    case _ => None
  }

  /** `int(str(n)) == n` for the string form of a natural number. */
  lemma IntOfDecimal(n: nat)
    ensures IntOf(Str(NatToDecimal(n))) == Some(n)
  {
    ParseNatToDecimal(n);
  }

  /** `v * 2`: numbers double, strings and lists repeat themselves, `None` and mappings fail. */
  function Times2(v: Value): (r: Option<Value>)
    ensures r.None? <==> (v.Null? || v.Dict?)
    ensures v.Int? ==> r == Some(Int(2 * v.i))
    ensures v.Str? ==> r == Some(Str(v.s + v.s))
    ensures r.Some? && IntOf(v).Some? && !v.Str? ==> r.value == Int(2 * IntOf(v).value)
  {
    match v
    case Int(i) => Some(Int(2 * i))
    case Bool(b) => Some(Int(if b then 2 else 0))
    case Str(s) => Some(Str(s + s))
    case List(items) => Some(List(items + items))
    case _ => None
  }
}
