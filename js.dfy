/** JavaScript values as the browser code handles them: truthiness, strict
    equality, conversion to text, and plain objects used as key/value bags. */
module Js {
  import opened Text

  /** A JavaScript value held in component state, a form or a JSON body.
      Numbers are integers (floating point is not modelled); `Arr` is an array. */
  datatype Value = Undefined | Null | Bool(b: bool) | Num(n: int) | Str(s: string) | Arr(items: seq<Value>)

  /** JavaScript truthiness: `undefined`, `null`, `false`, `0` and `""` are falsy. */
  predicate Truthy(v: Value) {
    match v
    case Undefined => false
    case Null => false
    case Bool(b) => b
    case Num(n) => n != 0
    case Str(s) => s != ""
    case Arr(_) => true
  }

  /** `!v`. */
  function Not(v: Value): (r: Value)
    ensures r.Bool? && (r.b <==> !Truthy(v))
  {
    Bool(!Truthy(v))
  }

  /** `a === b`. An array literal is a fresh object, so two arrays are never
      taken to be the same object here. */
  predicate StrictEquals(a: Value, b: Value) {
    a == b && !a.Arr?
  }

  /** `String(v)`, also what a template literal `${v}` produces. */
  function ToText(v: Value): string {
    match v
    case Undefined => "undefined"
    case Null => "null"
    case Bool(b) => if b then "true" else "false"
    case Num(n) => IntToString(n)
    case Str(s) => s
    case Arr(items) => JoinItems(items, ",")
  }

  /** The text React shows for a value placed in markup: `undefined`, `null`
      and booleans show nothing, an array shows its elements one after another. */
  function Render(v: Value): string {
    match v
    case Undefined => ""
    case Null => ""
    case Bool(_) => ""
    case Num(n) => IntToString(n)
    case Str(s) => s
    case Arr(items) => RenderAll(items)
  }

  function RenderAll(items: seq<Value>): string {
    if items == [] then "" else Render(items[0]) + RenderAll(items[1..])
  }

  /** `items.join(sep)`: `undefined` and `null` elements contribute empty text. */
  function JoinItems(items: seq<Value>, sep: string): string {
    if items == [] then ""
    else
      var first := if items[0].Undefined? || items[0].Null? then "" else ToText(items[0]);
      if |items| == 1 then first else first + sep + JoinItems(items[1..], sep)
  }

  /** The five falsy values; every other value, every array included, is truthy. */
  lemma FalsyValues(v: Value)
    ensures !Truthy(v) <==> v in [Undefined, Null, Bool(false), Num(0), Str("")]
  {
  }

  /** `===` holds between equal primitives and never involves an array literal,
      not even one compared with itself. */
  lemma StrictEqualsOnValues(a: Value, b: Value)
    ensures StrictEquals(a, b) ==> StrictEquals(b, a)
    ensures !a.Arr? ==> (StrictEquals(a, b) <==> a == b)
    ensures a.Arr? ==> !StrictEquals(a, a)
  {
  }

  /** `String` of an array: "" for `[]`, the element's text for `[v]` (nothing for
      `undefined` and `null`), and the texts of a longer array joined by commas. */
  lemma {:induction false} ArrayText(v: Value, rest: seq<Value>)
    ensures ToText(Arr([])) == ""
    ensures ToText(Arr([v])) == (if v.Undefined? || v.Null? then "" else ToText(v))
    ensures rest != [] ==> ToText(Arr([v] + rest)) == ToText(Arr([v])) + "," + ToText(Arr(rest))
  {
    assert ([v] + rest)[1..] == rest;
  }

  /** `items.join(sep)` skips nothing: `undefined` and `null` still take their
      place between two separators, so `[a, null, b].join("-")` is `a--b`. */
  lemma {:induction false} JoinItemsKeepsNullishPlaces(a: string, b: string, sep: string)
    ensures JoinItems([Str(a), Null, Str(b)], sep) == a + sep + sep + b
    ensures JoinItems([Undefined], sep) == ""
  {
    assert [Str(a), Null, Str(b)][1..] == [Null, Str(b)];
    assert [Null, Str(b)][1..] == [Str(b)];
    assert JoinItems([Str(b)], sep) == b;
    assert JoinItems([Null, Str(b)], sep) == sep + b;
  }

  /** In markup a primitive shows as its `String` text, except that `undefined`,
      `null`, `true` and `false` show nothing. */
  lemma RenderOfPrimitive(v: Value)
    requires !v.Arr?
    ensures Render(v) == (if v.Undefined? || v.Null? || v.Bool? then "" else ToText(v))
  {
  }

  /** A plain object such as a form's state or a record from the server. */
  type Object = map<string, Value>

  /** `o[k]`, `undefined` when the key is absent. */
  function Get(o: Object, k: string): (v: Value)
    ensures k !in o ==> v == Undefined
    ensures k in o ==> v == o[k]
  {
    if k in o then o[k] else Undefined
  }

  /** `{ ...o, [k]: v }`: the one named field takes the new value. */
  function With(o: Object, k: string, v: Value): (r: Object)
    ensures r.Keys == o.Keys + {k}
    ensures Get(r, k) == v
    ensures forall j :: j != k ==> Get(r, j) == Get(o, j)
  {
    o[k := v]
  }

  /** `const { a, b } = o; const payload = { a, b };`: an object with exactly
      the listed keys, each holding what `o` holds there (maybe `undefined`). */
  function Pick(o: Object, keys: set<string>): (r: Object)
    ensures r.Keys == keys
    ensures forall k :: k in keys ==> Get(r, k) == Get(o, k)
  {
    map k | k in keys :: Get(o, k)
  }

  /** `fields[k]` of an object whose values are all text, such as a form's state. */
  function FieldText(fields: map<string, string>, k: string): (v: Value)
    ensures k in fields ==> v == Str(fields[k])
    ensures k !in fields ==> v == Undefined
  {
    if k in fields then Str(fields[k]) else Undefined
  }

  /** The entries of a parsed JSON object, in the order the server wrote them.
      The bodies DRF sends have distinct, non-numeric keys, so this order is also the
      order `Object.values` lists them in (it would put integer-like keys first). */
  type Entries = seq<(string, Value)>

  /** `data.key` on a parsed JSON object. `JSON.parse` keeps the last of two
      entries with the same key, so the search runs from the end. */
  function Lookup(entries: Entries, key: string): (v: Value)
    ensures (exists i :: 0 <= i < |entries| && entries[i].0 == key) ==>
              exists i :: 0 <= i < |entries| && entries[i] == (key, v)
                          && forall j :: i < j < |entries| ==> entries[j].0 != key
    ensures (forall i :: 0 <= i < |entries| ==> entries[i].0 != key) ==> v == Undefined
  {
    if entries == [] then Undefined
    else if entries[|entries| - 1].0 == key then entries[|entries| - 1].1
    else
      var front := entries[..|entries| - 1];
      assert forall i :: 0 <= i < |front| ==> front[i] == entries[i];
      Lookup(front, key)
  }

  /** `Object.values(data)` of a parsed JSON object: its values in key order. */
  function Values(entries: Entries): (vs: seq<Value>)
    ensures |vs| == |entries|
    ensures forall i :: 0 <= i < |entries| ==> vs[i] == entries[i].1
  {
    seq(|entries|, i requires 0 <= i < |entries| => entries[i].1)
  }

  /** `vs.flat()`: every array element is replaced by its elements, one level deep. */
  function Flat(vs: seq<Value>): (r: seq<Value>)
    ensures (forall i :: 0 <= i < |vs| ==> !vs[i].Arr?) ==> r == vs
  {
    if vs == [] then [] else (if vs[0].Arr? then vs[0].items else [vs[0]]) + Flat(vs[1..])
  }

  /** Each text as a JavaScript string value. */
  function Strs(texts: seq<string>): (vs: seq<Value>)
    ensures |vs| == |texts|
    ensures forall i :: 0 <= i < |texts| ==> vs[i] == Str(texts[i])
  {
    seq(|texts|, i requires 0 <= i < |texts| => Str(texts[i]))
  }

  /** Joining string values through `Array.prototype.join` is joining their texts. */
  lemma {:induction false} JoinStrs(texts: seq<string>, sep: string)
    ensures JoinItems(Strs(texts), sep) == Join(texts, sep)
  {
    if |texts| > 1 {
      assert Strs(texts)[1..] == Strs(texts[1..]);
      JoinStrs(texts[1..], sep);
    }
  }

  /** The body of an error reply, `error.response?.data`: missing, a parsed
      JSON object, or plain text (an HTML error page, say). */
  datatype Body = NoBody | JsonObject(entries: Entries) | JsonText(text: string)
  {
    /** `if (err.response?.data)`: an object is always truthy, text when not empty. */
    predicate Truthy() {
      JsonObject? || (JsonText? && text != "")
    }

    /** `err.response?.data?.key`: a key of the object; on text only `length` exists.
        `length` counts characters here, where JavaScript counts UTF-16 code units. */
    function Field(key: string): (v: Value)
      ensures NoBody? ==> v == Undefined
      ensures JsonObject? ==> v == Lookup(entries, key)
      ensures JsonText? ==> v == (if key == "length" then Num(|text|) else Undefined)
    {
      match this
      case NoBody => Undefined
      case JsonObject(entries) => Lookup(entries, key)
      case JsonText(text) => if key == "length" then Num(|text|) else Undefined
    }
  }
}
