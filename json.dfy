/** The JSON values the server stores and sends, with the JavaScript
    operations its handlers apply to them: truthiness, `||` defaults,
    string interpolation, `|| []` lists, `includes`, and object spread. */
module JsonValues {
  import opened Wrappers
  import opened Text

  /** A parsed JSON value; numbers are integers. */
  datatype Json =
    | JNull
    | JBool(b: bool)
    | JNum(n: int)
    | JStr(s: string)
    | JArr(items: seq<Json>)
    | JObj(fields: map<string, Json>)

  /** JavaScript truthiness: `null`, `false`, `0` and `""` are falsy. */
  predicate Truthy(v: Json) {
    match v
    case JNull => false
    case JBool(b) => b
    case JNum(n) => n != 0
    case JStr(s) => s != ""
    case _ => true
  }

  /** Reading a property of a request body; an absent property is
      `undefined`, which every use here treats like `null`. */
  function Prop(obj: map<string, Json>, k: string): Json {
    if k in obj then obj[k] else JNull
  }

  /** `v || fallback`. */
  function Or(v: Json, fallback: Json): (r: Json)
    ensures Truthy(v) ==> r == v
    ensures !Truthy(v) ==> r == fallback
    ensures Truthy(fallback) ==> Truthy(r)
  {
    if Truthy(v) then v else fallback
  }

  /** `String(v)`, as a template literal interpolates it. An array prints its
      elements joined by commas, with `null` elements empty. */
  function Str(v: Json): string
    decreases v
  {
    match v
    case JNull => "null"
    case JBool(b) => if b then "true" else "false"
    case JNum(n) => IntToDecimal(n)
    case JStr(s) => s
    case JArr(items) =>
      if items == [] then ""
      else Join(seq(|items|, i requires 0 <= i < |items| => if items[i].JNull? then "" else Str(items[i])), ',')
    case JObj(_) => "[object Object]"
  }

  /** `(v || [])` about to receive `.push(x)`: a falsy value gives a new empty
      list and an array its items; any other value has no `push` (None). */
  function PushTarget(v: Json): (r: Option<seq<Json>>)
    ensures !Truthy(v) ==> r == Some([])
    ensures v.JArr? ==> r == Some(v.items)
    ensures r.Some? <==> !Truthy(v) || v.JArr?
  {
    if !Truthy(v) then Some([])
    else if v.JArr? then Some(v.items)
    else None
  }

  /** `(v || [])` walked by `for ... of`: a falsy value gives nothing, an
      array its items, a string its characters one by one; numbers, `true`
      and objects are not iterable (None). */
  function Iterated(v: Json): (r: Option<seq<Json>>)
    ensures !Truthy(v) ==> r == Some([])
    ensures v.JArr? ==> r == Some(v.items)
    ensures v.JStr? ==> r.Some? && |r.value| == |v.s|
    ensures r.None? <==> Truthy(v) && (v.JNum? || v.JBool? || v.JObj?)
  {
    if !Truthy(v) then Some([])
    else if v.JArr? then Some(v.items)
    else if v.JStr? then Some(Chars(v.s))
    else None
  }

  /** A string's characters, each as a one-character string. */
  function Chars(s: string): (r: seq<Json>)
    ensures |r| == |s| && forall i :: 0 <= i < |s| ==> r[i] == JStr([s[i]])
  {
    seq(|s|, i requires 0 <= i < |s| => JStr([s[i]]))
  }

  /** `a === b` as `includes` compares (SameValueZero): primitives by value;
      an array or object read from a request is a fresh value equal to
      nothing stored. */
  predicate SameValueZero(a: Json, b: Json) {
    !b.JArr? && !b.JObj? && a == b
  }

  /** `list.includes(x)`. */
  predicate Includes(list: seq<Json>, x: Json) {
    exists i :: 0 <= i < |list| && SameValueZero(list[i], x)
  }

  /** `{...v}`: an object gives its own properties, a string or an array one
      property per index, named by the index in decimal; `null`, numbers and
      booleans give none. */
  function Spread(v: Json): (r: map<string, Json>)
    ensures v.JObj? ==> r == v.fields
    ensures v.JStr? ==> r == Indexed(Chars(v.s))
    ensures v.JArr? ==> r == Indexed(v.items)
    ensures v.JNull? || v.JNum? || v.JBool? ==> r == map[]
  {
    match v
    case JObj(fields) => fields
    case JStr(s) => Indexed(Chars(s))
    case JArr(items) => Indexed(items)
    case _ => map[]
  }

  /** The properties `"0"`, `"1"`, ... of a list's entries. */
  function Indexed(items: seq<Json>): (r: map<string, Json>)
    ensures forall i: nat :: i < |items| ==> NatToDecimal(i) in r && r[NatToDecimal(i)] == items[i]
    ensures forall k :: k in r ==> exists i: nat :: i < |items| && k == NatToDecimal(i)
  {
    NatToDecimalInjective();
    map i | 0 <= i < |items| :: NatToDecimal(i) := items[i]
  }

  /** `{...existing, ...body, [stamp]: at}`: the body's properties override the
      stored ones, and the stamp overrides both. */
  function Merge(existing: Json, body: map<string, Json>, stamp: string, at: Json): (r: map<string, Json>)
    ensures r.Keys == Spread(existing).Keys + body.Keys + {stamp}
    ensures r[stamp] == at
    ensures forall k :: k in body && k != stamp ==> r[k] == body[k]
    ensures forall k :: k in Spread(existing) && k !in body && k != stamp ==> r[k] == Spread(existing)[k]
  {
    Spread(existing) + body + map[stamp := at]
  }
}
