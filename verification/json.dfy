/** JavaScript values as they travel through the application as JSON: what
    `JSON.parse` returns, what route handlers put in a response body, and the
    few object operations the code performs on them (property read, property
    write, `Object.assign`, object spread, truthiness and `String(v)`).

    An object is an ordered list of fields, because the question selector
    indexes into `Object.entries`, which lists string keys in insertion
    order. JavaScript lists integer-like keys (`"0"`, `"12"`) first, in
    ascending order; that reordering is not modelled, and the digest keys the
    prompts ask for are not integer-like.
    A key may occur more than once in a list produced by `JSON.parse`; as in
    JavaScript, the last occurrence is the one a read sees. Numbers are
    integers. */
module Json {
  import opened Wrappers
  import opened Text

  datatype Value =
    | JNull
    | JBool(b: bool)
    | JNum(n: int)
    | JStr(s: string)
    | JArr(items: seq<Value>)
    | JObj(fields: seq<(string, Value)>)

  type Fields = seq<(string, Value)>

  /** The keys present in a field list. */
  function Keys(fs: Fields): set<string>
  {
    if |fs| == 0 then {} else Keys(fs[..|fs| - 1]) + {fs[|fs| - 1].0}
  }

  /** `obj[k]`: the value of the last field named `k`, `None` for `undefined`. */
  function Get(fs: Fields, k: string): Option<Value>
  {
    if |fs| == 0 then None
    else if fs[|fs| - 1].0 == k then Some(fs[|fs| - 1].1)
    else Get(fs[..|fs| - 1], k)
  }

  lemma {:induction false} GetDefinedIffKey(fs: Fields, k: string)
    ensures Get(fs, k).Some? <==> k in Keys(fs)
  {
    if |fs| > 0 {
      GetDefinedIffKey(fs[..|fs| - 1], k);
    }
  }

  /** Every field named `k` takes the value `v`, in place. */
  function ReplaceAll(fs: Fields, k: string, v: Value): (r: Fields)
    ensures |r| == |fs|
  {
    if |fs| == 0 then []
    else
      var last := fs[|fs| - 1];
      ReplaceAll(fs[..|fs| - 1], k, v) + [if last.0 == k then (k, v) else last]
  }

  lemma {:induction false} ReplaceAllFacts(fs: Fields, k: string, v: Value, k': string)
    ensures Keys(ReplaceAll(fs, k, v)) == Keys(fs)
    ensures Get(ReplaceAll(fs, k, v), k') ==
            if k' != k then Get(fs, k') else if k in Keys(fs) then Some(v) else None
  {
    if |fs| > 0 {
      var r := ReplaceAll(fs, k, v);
      assert r[..|r| - 1] == ReplaceAll(fs[..|fs| - 1], k, v);
      ReplaceAllFacts(fs[..|fs| - 1], k, v, k');
    }
  }

  /** `obj[k] = v`: an existing key keeps its position, a new key is appended. */
  function Set(fs: Fields, k: string, v: Value): Fields
  {
    if k in Keys(fs) then ReplaceAll(fs, k, v) else fs + [(k, v)]
  }

  /** After `obj[k] = v`, reading `k` gives `v`, every other key reads as
      before, and the key set gains exactly `k`. */
  lemma SetFacts(fs: Fields, k: string, v: Value, k': string)
    ensures Keys(Set(fs, k, v)) == Keys(fs) + {k}
    ensures Get(Set(fs, k, v), k') == if k' == k then Some(v) else Get(fs, k')
  {
    ReplaceAllFacts(fs, k, v, k');
    if k !in Keys(fs) {
      assert (fs + [(k, v)])[..|fs|] == fs;
    }
  }

  lemma {:induction false} KeysCons(x: (string, Value), rest: Fields)
    ensures Keys([x] + rest) == {x.0} + Keys(rest)
    decreases |rest|
  {
    if |rest| > 0 {
      assert ([x] + rest)[..|rest|] == [x] + rest[..|rest| - 1];
      KeysCons(x, rest[..|rest| - 1]);
    }
  }

  /** Reading a list from its front: a later field shadows the first one. */
  lemma {:induction false} GetCons(x: (string, Value), rest: Fields, k: string)
    ensures Get([x] + rest, k) ==
            if k in Keys(rest) then Get(rest, k) else if x.0 == k then Some(x.1) else None
    decreases |rest|
  {
    GetDefinedIffKey(rest, k);
    if |rest| > 0 {
      assert ([x] + rest)[..|rest|] == [x] + rest[..|rest| - 1];
      GetCons(x, rest[..|rest| - 1], k);
      GetDefinedIffKey(rest[..|rest| - 1], k);
    }
  }

  /** `Object.assign(target, {...fields})`: each field of `src`, in order, is
      written into `target`. */
  function Assign(target: Fields, src: Fields): Fields
    decreases |src|
  {
    if |src| == 0 then target else Assign(Set(target, src[0].0, src[0].1), src[1..])
  }

  /** After `Object.assign`, a key of the source reads as in the source
      (the source overwrites), any other key reads as in the target, and the
      keys are the union. */
  lemma {:induction false} AssignFacts(target: Fields, src: Fields, k: string)
    ensures Keys(Assign(target, src)) == Keys(target) + Keys(src)
    ensures Get(Assign(target, src), k) == if k in Keys(src) then Get(src, k) else Get(target, k)
    decreases |src|
  {
    if |src| > 0 {
      var x := src[0];
      assert src == [x] + src[1..];
      SetFacts(target, x.0, x.1, k);
      AssignFacts(Set(target, x.0, x.1), src[1..], k);
      KeysCons(x, src[1..]);
      GetCons(x, src[1..], k);
    }
  }

  /** JavaScript truthiness of a JSON value (`undefined` is `None` and falsy). */
  predicate Truthy(v: Value) {
    match v
    case JNull => false
    case JBool(b) => b
    case JNum(n) => n != 0
    case JStr(s) => s != ""
    case JArr(_) => true
    case JObj(_) => true
  }

  /** `x || d` where `x` may be `undefined`. */
  function Or(x: Option<Value>, d: Value): (r: Value)
    ensures Truthy(d) ==> Truthy(r)
    ensures x.Some? && Truthy(x.value) ==> r == x.value
    ensures (x.None? || !Truthy(x.value)) ==> r == d
  {
    if x.Some? && Truthy(x.value) then x.value else d
  }

  /** `String(v)`, which is what a template literal `${v}` inserts. */
  function Display(v: Value): string
  {
    match v
    case JNull => "null"
    case JBool(b) => if b then "true" else "false"
    case JNum(n) => IntToString(n)
    case JStr(s) => s
    case JArr(items) =>
      Join(",", seq(|items|, i requires 0 <= i < |items| =>
        if items[i].JNull? then "" else Display(items[i])))
    case JObj(_) => "[object Object]"
  }

  /** The string rendering of a possibly `undefined` value. */
  function DisplayOpt(x: Option<Value>): string {
    match x
    case None => "undefined"
    case Some(v) => Display(v)
  }

  /** The own enumerable fields that `{...v}`, `Object.assign(_, v)` and
      `Object.entries(v)` see: an object's fields, each key once, at its
      first position with its last value; the indexed elements of an array or
      the indexed characters of a string; nothing for `null`, booleans and
      numbers. */
  function Spread(v: Value): (r: Fields)
    ensures v.JArr? ==> |r| == |v.items| && forall i :: 0 <= i < |r| ==> r[i].1 == v.items[i]
    ensures v.JNull? || v.JBool? || v.JNum? ==> r == []
  {
    match v
    case JObj(fs) => Assign([], fs)
    case JArr(items) => seq(|items|, i requires 0 <= i < |items| => (NatToString(i), items[i]))
    case JStr(s) => seq(|s|, i requires 0 <= i < |s| => (NatToString(i), JStr([s[i]])))
    case _ => []
  }

  /** Spreading an object keeps what every key reads as, and its key set. */
  lemma SpreadObject(fs: Fields, k: string)
    ensures Keys(Spread(JObj(fs))) == Keys(fs)
    ensures Get(Spread(JObj(fs)), k) == Get(fs, k)
  {
    AssignFacts([], fs, k);
    GetDefinedIffKey(fs, k);
  }

  /** `v.k` for a key that is not the name of a built-in property of strings
      or arrays (all the keys this application reads): `null` throws, an
      object yields its field, any other value yields `undefined`. */
  function Prop(v: Value, k: string): (r: Result<Option<Value>>)
    ensures r.Err? <==> v.JNull?
    ensures v.JObj? ==> r == Ok(Get(v.fields, k))
  {
    match v
    case JNull => Err("TypeError: Cannot read properties of null")
    case JObj(fs) => Ok(Get(fs, k))
    case _ => Ok(None)
  }

  /** `v?.k`: optional chaining never throws; `null` and `undefined` short-circuit. */
  function OptProp(v: Option<Value>, k: string): (r: Option<Value>)
    ensures v.Some? && v.value.JObj? ==> r == Get(v.value.fields, k)
    ensures v.None? || !v.value.JObj? ==> r.None?
  {
    if v.Some? && v.value.JObj? then Get(v.value.fields, k) else None
  }

  /** `JSON.parse(content || '{}')`: missing or empty content parses to the
      empty object; anything else goes to the parser, whose failure throws.
      The parser itself is a parameter of the model. */
  function ParseContent(content: Option<string>, parse: string -> Option<Value>): (r: Result<Value>)
    ensures (content.None? || content.value == "") ==> r == Ok(JObj([]))
    ensures content.Some? && content.value != "" && parse(content.value).None? ==> r.Err?
    ensures content.Some? && content.value != "" && parse(content.value).Some? ==>
              r == Ok(parse(content.value).value)
  {
    if content.None? || content.value == "" then Ok(JObj([]))
    else match parse(content.value)
      case None => Err("SyntaxError: Unexpected token in JSON")
      case Some(v) => Ok(v)
  }

  /** What a route handler produces: a JSON response with a status, or an
      exception that escapes the handler, which the framework answers with
      status 500. */
  datatype Response = Respond(status: nat, body: Value) | Unhandled {
    function Status(): nat {
      if Respond? then status else 500
    }
  }

  /** An error body `{ error: message }`. */
  function ErrorBody(message: string): Value {
    JObj([("error", JStr(message))])
  }
}
