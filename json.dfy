/** JSON values as the token documents hold them, and the handful of
    JavaScript operations the core applies to them: property access, the
    `"$type" in val` token test, `Object.entries`, object spread and
    `String(...)`. Objects are association lists with distinct keys, in
    insertion order. Numbers are modelled as integers. */
module Json {
  import opened Wrappers
  import opened Strings
  import opened Assoc

  datatype Json =
    | JNull
    | JBool(b: bool)
    | JNum(n: int)
    | JStr(s: string)
    | JArr(items: seq<Json>)
    | JObj(members: seq<(string, Json)>)

  type Member = (string, Json)

  /** `v && typeof v === "object"`: a non-null object or an array. */
  predicate IsObjectLike(v: Json)
  {
    v.JObj? || v.JArr?
  }

  /** Every object, at every depth, holds each of its keys once, as every
      object JavaScript builds or `JSON.parse` returns does. */
  predicate WellFormed(v: Json)
    decreases v
  {
    match v
    case JObj(ms) => DistinctKeys(ms) && forall i :: 0 <= i < |ms| ==> WellFormed(ms[i].1)
    case JArr(items) => forall i :: 0 <= i < |items| ==> WellFormed(items[i])
    case _ => true
  }

  /** `v[key]` on an object-like value: an own key of an object, or an index
      or `length` of an array; `None` stands for `undefined`. */
  function Property(v: Json, key: string): Option<Json>
  {
    match v
    case JObj(ms) => Lookup(ms, key)
    case JArr(items) =>
      if key == "length" then Some(JNum(|items|))
      else (
        match CanonicalIndex(key)
        case Some(i) => if i < |items| then Some(items[i]) else None
        case None => None)
    case _ => None
  }

  /** Walk `path` the way `current && typeof current === "object" && part in
      current` followed by `current = current[part]` does. */
  function At(v: Json, path: seq<string>): Option<Json>
    decreases |path|
  {
    if path == [] then Some(v)
    else
      match Property(v, path[0])
      case None => None
      case Some(w) => At(w, path[1..])
  }

  /** The value at `path` through own keys of objects only: what a document
      holds at a path. */
  function Get(v: Json, path: seq<string>): Option<Json>
    decreases |path|
  {
    if path == [] then Some(v)
    else if !v.JObj? then None
    else
      match Lookup(v.members, path[0])
      case None => None
      case Some(w) => Get(w, path[1..])
  }

  /** A value found through objects is found by the JavaScript walk too. */
  lemma {:induction false} GetThenAt(v: Json, path: seq<string>)
    requires Get(v, path).Some?
    ensures At(v, path) == Get(v, path)
    decreases |path|
  {
    if path != [] {
      GetThenAt(Lookup(v.members, path[0]).value, path[1..]);
    }
  }

  /** Walking a concatenated path is walking its two halves. */
  lemma {:induction false} GetAppend(v: Json, p: seq<string>, q: seq<string>)
    ensures Get(v, p + q) == if Get(v, p).Some? then Get(Get(v, p).value, q) else None
    decreases |p|
  {
    if p == [] {
      assert p + q == q;
    } else {
      assert (p + q)[0] == p[0] && (p + q)[1..] == p[1..] + q;
      if v.JObj? && Lookup(v.members, p[0]).Some? {
        GetAppend(Lookup(v.members, p[0]).value, p[1..], q);
      }
    }
  }

  /** The JavaScript walk over a concatenated path walks its two halves. */
  lemma {:induction false} AtAppend(v: Json, p: seq<string>, q: seq<string>)
    ensures At(v, p + q) == if At(v, p).Some? then At(At(v, p).value, q) else None
    decreases |p|
  {
    if p == [] {
      assert p + q == q;
    } else {
      assert (p + q)[0] == p[0] && (p + q)[1..] == p[1..] + q;
      if Property(v, p[0]).Some? {
        AtAppend(Property(v, p[0]).value, p[1..], q);
      }
    }
  }

  /** `"$type" in v` for an object-like `v`: the test the preview and list
      traversals use to recognise a token. */
  predicate IsToken(v: Json)
  {
    v.JObj? && "$type" in Keys(v.members)
  }

  /** `Object.entries(v)` for an object-like `v`: an object's own entries, or an
      array's elements under their index strings. */
  function Entries(v: Json): (es: seq<Member>)
    ensures v.JObj? ==> es == v.members
    ensures !IsObjectLike(v) ==> es == []
  {
    match v
    case JObj(ms) => ms
    case JArr(items) => seq(|items|, i requires 0 <= i < |items| => (NatToString(i), items[i]))
    case _ => []
  }

  /** `{ ...v }`: the own enumerable properties of `v` as a fresh record
      (the characters of a string under their indices, nothing for
      `null`, booleans and numbers). */
  function Spread(v: Json): (r: seq<Member>)
    ensures v.JObj? ==> r == v.members
  {
    match v
    case JStr(s) => seq(|s|, i requires 0 <= i < |s| => (NatToString(i), JStr([s[i]])))
    case _ => Entries(v)
  }

  /** `String(x)`, with `None` for `undefined`. */
  function JsString(x: Option<Json>): string
  {
    match x
    case None => "undefined"
    case Some(v) => ValueString(v)
  }

  /** `String(v)` for a JSON value; an array renders as its elements joined by
      commas, with `null` elements rendered empty, as `Array.prototype.join` does. */
  function ValueString(v: Json): string
    decreases v, 1
  {
    match v
    case JNull => "null"
    case JBool(b) => if b then "true" else "false"
    case JNum(n) => IntToString(n)
    case JStr(s) => s
    case JArr(items) => Join(seq(|items|, i requires 0 <= i < |items| => ElementString(items[i])), ",")
    case JObj(_) => "[object Object]"
  }

  function ElementString(v: Json): string
    decreases v, 2
  {
    if v.JNull? then "" else ValueString(v)
  }

  /** The string value of the `$value` of a token, as `String(val.$value)`. */
  function TokenValueString(token: Json): string
  {
    JsString(Property(token, "$value"))
  }
}
