/**
 * Decoded JSON values, as the engine builds request bodies and reads
 * provider responses. Objects are maps, so key order is not modelled.
 */
module Json {
  import opened Wrappers

  datatype Json =
    | JNull
    | JBool(b: bool)
    | JInt(i: int)
    | JNum(r: real)             // a non-integral number (a Python float or Decimal)
    | JStr(s: string)
    | JArr(items: seq<Json>)
    | JObj(fields: map<string, Json>)

  /** One Python subscript: `x["name"]` or `x[n]`. */
  datatype Step = Key(name: string) | Index(n: nat)

  type Path = seq<Step>

  /** Python's `j[step]`; None where Python raises (missing key, index out of range, wrong type). */
  function Subscript(j: Json, step: Step): (r: Option<Json>)
    ensures step.Key? ==> (r.Some? <==> j.JObj? && step.name in j.fields)
    ensures step.Index? && j.JArr? ==> (r.Some? <==> step.n < |j.items|)
    ensures step.Index? && j.JStr? ==> (r.Some? <==> step.n < |j.s|)
    ensures step.Index? && j.JStr? && step.n < |j.s| ==> r == Some(JStr([j.s[step.n]]))
    ensures step.Index? && !j.JArr? && !j.JStr? ==> r.None?
  {
    match step
    case Key(k) =>
      if j.JObj? && k in j.fields then Some(j.fields[k]) else None
    case Index(n) =>
      if j.JArr? && n < |j.items| then Some(j.items[n])
      else if j.JStr? && n < |j.s| then Some(JStr([j.s[n]]))
      else None
  }

  /** A chain of subscripts such as `response["choices"][0]["message"]["content"]`. */
  function Lookup(j: Json, path: Path): Option<Json>
    decreases |path|
  {
    if path == [] then Some(j)
    else match Subscript(j, path[0])
      case None => None
      case Some(child) => Lookup(child, path[1..])
  }

  /** A chain of subscripts can be split anywhere: first follow `p`, then `q`. */
  lemma {:induction false} LookupAppend(j: Json, p: Path, q: Path)
    ensures Lookup(j, p + q) ==
      (match Lookup(j, p) case None => None case Some(mid) => Lookup(mid, q))
    decreases |p|
  {
    if p == [] {
      assert p + q == q;
    } else {
      assert (p + q)[0] == p[0];
      assert (p + q)[1..] == p[1..] + q;
      match Subscript(j, p[0]) {
        case None =>
        case Some(child) => LookupAppend(child, p[1..], q);
      }
    }
  }

  /** Python truthiness of a decoded JSON value (`bool(x)`, `if x:`). */
  predicate Truthy(j: Json)
  {
    match j
    case JNull => false
    case JBool(b) => b
    case JInt(i) => i != 0
    case JNum(r) => r != 0.0
    case JStr(s) => s != ""
    case JArr(items) => items != []
    case JObj(fields) => fields != map[]
  }

  /** A value Python treats as true; a missing key (`.get` giving None) is false. */
  predicate Present(o: Option<Json>)
  {
    o.Some? && Truthy(o.value)
  }

  /** `m.get(key)`. */
  function Get(m: map<string, Json>, key: string): (r: Option<Json>)
    ensures r.Some? <==> key in m
  {
    if key in m then Some(m[key]) else None
  }

  /** Any non-empty string is truthy, so a CLI value "false" is sent as `true`. */
  lemma NonEmptyStringIsTrue(s: string)
    requires s != ""
    ensures Truthy(JStr(s)) && JBool(Truthy(JStr(s))) == JBool(true)
  {
  }

  /** The object field `key` is present exactly when the optional argument was supplied, holding its value. */
  ghost predicate Carries(fields: map<string, Json>, key: string, v: Option<Json>)
  {
    && (key in fields <==> v.Some?)
    && (v.Some? ==> fields[key] == v.value)
  }

  /** `if v is not None: d[key] = v` on an object held in a local map. */
  function Stored(fields: map<string, Json>, key: string, v: Option<Json>): (r: map<string, Json>)
    ensures key !in fields ==> Carries(r, key, v)
    ensures r.Keys == fields.Keys + (if v.Some? then {key} else {})
    ensures forall k :: k in fields && k != key ==> r[k] == fields[k]
  {
    if v.Some? then fields[key := v.value] else fields
  }

  /** Python's `d.setdefault(key, {})` on an object held in a local map. */
  function SetDefaultObject(fields: map<string, Json>, key: string): (r: map<string, Json>)
    ensures key in r && r.Keys == fields.Keys + {key}
    ensures key in fields ==> r == fields
    ensures key !in fields ==> r[key] == JObj(map[])
  {
    if key in fields then fields else fields[key := JObj(map[])]
  }
}
