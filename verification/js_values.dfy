/** The JSON-shaped values the pages receive from the back end, and the
    JavaScript coercions the pages apply to them: truthiness, `||`, `??`,
    property access through `?.`, `Number(...)` and `String(...)`. */
module JsValues {
  import opened Outcomes
  import opened Text

  /** A value as the browser holds it after parsing a JSON response. Numbers
      are integers here. */
  datatype JsValue =
    | Undefined
    | Null
    | Bool(b: bool)
    | Num(n: int)
    | Str(s: string)
    | Arr(items: seq<JsValue>)
    | Obj(props: map<string, JsValue>)

  /** JavaScript truthiness: `undefined`, `null`, `false`, `0` and `""` are falsy. */
  predicate Truthy(v: JsValue) {
    match v
    case Undefined => false
    case Null => false
    case Bool(b) => b
    case Num(n) => n != 0
    case Str(s) => s != ""
    case _ => true
  }

  /** `a || b`. */
  function Or(a: JsValue, b: JsValue): JsValue
  {
    if Truthy(a) then a else b
  }

  /** `a ?? b`. */
  function Coalesce(a: JsValue, b: JsValue): JsValue
  {
    if a == Undefined || a == Null then b else a
  }

  /** `v?.[key]` for the property names the pages read: an own property of
      an object, `undefined` otherwise. */
  function Prop(v: JsValue, key: string): JsValue {
    if v.Obj? && key in v.props then v.props[key] else Undefined
  }

  /** `Object.prototype.hasOwnProperty.call(v, key)` for objects. */
  predicate HasOwn(v: JsValue, key: string) {
    v.Obj? && key in v.props
  }

  /** `Number(s)` for a string: white space around an optionally signed run
      of decimal digits; the empty string is 0; anything else is `NaN` (`None`). */
  function StringToNumber(s: string): (r: Option<int>)
    ensures Trim(s) == "" ==> r == Some(0)
    ensures s != [] && AllDigits(s) ==> r == Some(DigitsValue(s))
  {
    var t := Trim(s);
    assert s != [] && AllDigits(s) ==> t == s by {
      if s != [] && AllDigits(s) {
        DigitsAreTrimmed(s);
      }
    }
    if t == "" then Some(0)
    else if AllDigits(t) then Some(DigitsValue(t))
    else if t[0] == '+' && |t| > 1 && AllDigits(t[1..]) then Some(DigitsValue(t[1..]))
    else if t[0] == '-' && |t| > 1 && AllDigits(t[1..]) then Some(0 - DigitsValue(t[1..]) as int)
    else None
  }

  /** `Number(v)` for primitive values; `None` is `NaN`. */
  function ToNumber(v: JsValue): (r: Option<int>)
    ensures v.Num? ==> r == Some(v.n)
    ensures v == Null ==> r == Some(0)
    ensures v == Undefined ==> r == None
  {
    match v
    case Undefined => None
    case Null => Some(0)
    case Bool(b) => Some(if b then 1 else 0)
    case Num(n) => Some(n)
    case Str(s) => StringToNumber(s)
    case _ => None
  }

  /** `String(v)`, as a template literal `${v}` renders it. */
  function ToJsString(v: JsValue): string
    decreases v
  {
    match v
    case Undefined => "undefined"
    case Null => "null"
    case Bool(b) => if b then "true" else "false"
    case Num(n) => IntToString(n)
    case Str(s) => s
    case Arr(items) =>
      Join(seq(|items|, i requires 0 <= i < |items| =>
        if items[i] == Undefined || items[i] == Null then "" else ToJsString(items[i])), ",")
    case Obj(_) => "[object Object]"
  }

  /** `Array.isArray(v) ? v : []`. */
  function ArrayOrEmpty(v: JsValue): (r: seq<JsValue>)
    ensures v.Arr? ==> r == v.items
    ensures !v.Arr? ==> r == []
  {
    if v.Arr? then v.items else []
  }

  /** An array of strings, item by item. */
  function StrItems(ws: seq<string>): (items: seq<JsValue>)
    ensures |items| == |ws|
    ensures forall k :: 0 <= k < |ws| ==> items[k] == Str(ws[k])
  {
    if ws == [] then [] else [Str(ws[0])] + StrItems(ws[1..])
  }

  /** `Array.isArray(a) ? a : Array.isArray(b) ? b : ... : []`: the items
      of the first candidate that is an array, or none. */
  function FirstArray(candidates: seq<JsValue>): (r: seq<JsValue>)
    ensures (forall i :: 0 <= i < |candidates| ==> !candidates[i].Arr?) ==> r == []
    ensures forall i :: (0 <= i < |candidates| && candidates[i].Arr?
                         && (forall j :: 0 <= j < i ==> !candidates[j].Arr?)) ==> r == candidates[i].items
  {
    if candidates == [] then []
    else if candidates[0].Arr? then candidates[0].items
    else
      var rest := candidates[1..];
      var r := FirstArray(rest);
      assert forall i :: 1 <= i < |candidates| ==> candidates[i] == rest[i - 1];
      assert forall i :: (0 <= i < |candidates| && candidates[i].Arr?
                          && (forall j :: 0 <= j < i ==> !candidates[j].Arr?)) ==> r == candidates[i].items by {
        forall i | 0 <= i < |candidates| && candidates[i].Arr? && (forall j :: 0 <= j < i ==> !candidates[j].Arr?)
          ensures r == candidates[i].items
        {
          assert forall j :: 0 <= j < i - 1 ==> !rest[j].Arr?;
        }
      }
      r
  }

  /** The list in a response body: its `data` array, else the body itself
      when it is an array, else none. */
  function ListOf(body: JsValue): (r: seq<JsValue>)
    ensures Prop(body, "data").Arr? ==> r == Prop(body, "data").items
    ensures !Prop(body, "data").Arr? && body.Arr? ==> r == body.items
    ensures !Prop(body, "data").Arr? && !body.Arr? ==> r == []
  {
    var candidates := [Prop(body, "data"), body];
    assert candidates[0] == Prop(body, "data") && candidates[1] == body;
    FirstArray(candidates)
  }
}
