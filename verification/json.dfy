/** JSON values as built by the structured-data helpers, and JavaScript object
    spread over them. A property whose value is `undefined` is modelled as an
    absent key, which is what JSON serialization makes of it. Numbers are
    integers: every number the modelled builders emit is one. */
module Json {
  import opened Options
  import Strings

  datatype Json =
    | JNull
    | JBool(b: bool)
    | JNum(n: int)
    | JStr(s: string)
    | JArr(elems: seq<Json>)
    | JObj(fields: map<string, Json>)

  type Object = map<string, Json>

  /** `{ ...base, ...over }`: every key of either object, and where both have a
      key the later object's value wins. */
  function Spread(base: Object, over: Object): (r: Object)
    ensures r.Keys == base.Keys + over.Keys
    ensures forall k :: k in over ==> r[k] == over[k]
    ensures forall k :: k in base && k !in over ==> r[k] == base[k]
  {
    base + over
  }

  /** Reading property `k` of an object: `undefined` when it is absent. */
  function Get(o: Object, k: string): Option<Json> {
    if k in o then Some(o[k]) else None
  }

  /** The string value of property `k`, when it is a string. */
  function StringField(o: Object, k: string): Option<string> {
    if k in o && o[k].JStr? then Some(o[k].s) else None
  }

  /** `{ k: o.k }`: the property `k` copied, or nothing when `o.k` is undefined. */
  function Copy(o: Object, k: string): (r: Object)
    ensures k in o ==> r == map[k := o[k]]
    ensures k !in o ==> r == map[]
  {
    if k in o then map[k := o[k]] else map[]
  }

  /** The text a template literal `${v}` produces for a JSON value, or for
      `undefined` when `v` is None. */
  function TemplateString(v: Option<Json>): string {
    match v
    case None => "undefined"
    case Some(j) => ToText(j)
  }

  /** JavaScript's `String(j)`; an array joins its elements with commas, with
      `null` elements becoming empty. */
  function ToText(j: Json): string
    decreases j
  {
    match j
    case JNull => "null"
    case JBool(b) => if b then "true" else "false"
    case JNum(n) => Strings.IntToString(n)
    case JStr(s) => s
    case JArr(es) =>
      Strings.Join(seq(|es|, i requires 0 <= i < |es| => if es[i].JNull? then "" else ToText(es[i])), ",")
    case JObj(_) => "[object Object]"
  }
}
