/** Parsed JSON values as JavaScript sees them after `JSON.parse` (or before
    `JSON.stringify`): truthiness, property reads and string conversion. */
module Json {
  import opened Options
  import Decimal

  /** Numbers are integral here; an object keeps its members in the order
      they appear in the text, duplicates included. */
  datatype Json =
    | JNull
    | JBool(b: bool)
    | JNum(n: int)
    | JStr(s: string)
    | JArr(items: seq<Json>)
    | JObj(fields: seq<Field>)

  type Field = (string, Json)

  /** JavaScript's ToBoolean: `null`, `false`, `0` and `""` are falsy; every
      array and object, even an empty one, is truthy. */
  predicate Truthy(v: Json) {
    match v
    case JNull => false
    case JBool(b) => b
    case JNum(n) => n != 0
    case JStr(s) => s != ""
    case JArr(_) => true
    case JObj(_) => true
  }

  /** An optional JSON value that JavaScript's `if (x)` accepts. */
  predicate Given(o: Option<Json>) {
    o.Some? && Truthy(o.value)
  }

  predicate HasKey(fields: seq<Field>, key: string) {
    exists i :: 0 <= i < |fields| && fields[i].0 == key
  }

  predicate DistinctKeys(fields: seq<Field>) {
    forall i, j :: 0 <= i < j < |fields| ==> fields[i].0 != fields[j].0
  }

  /** The member `key` of an object; when a key repeats the last one wins,
      as with `JSON.parse`. */
  function Lookup(fields: seq<Field>, key: string): (r: Option<Json>)
    ensures r.None? <==> !HasKey(fields, key)
    ensures r.Some? ==> (key, r.value) in fields
    decreases |fields|
  {
    if |fields| == 0 then None
    else
      var init := fields[..|fields| - 1];
      assert fields == init + [fields[|fields| - 1]];
      if fields[|fields| - 1].0 == key then Some(fields[|fields| - 1].1)
      else Lookup(init, key)
  }

  /** In an object whose keys are distinct, each member is found by its key. */
  lemma {:induction false} LookupDistinct(fields: seq<Field>, i: nat)
    requires DistinctKeys(fields) && i < |fields|
    ensures Lookup(fields, fields[i].0) == Some(fields[i].1)
    decreases |fields|
  {
    if i < |fields| - 1 {
      var init := fields[..|fields| - 1];
      assert init[i] == fields[i];
      LookupDistinct(init, i);
    }
  }

  /** Reading a key of a concatenation looks in the later part first. */
  lemma {:induction false} LookupAppend(a: seq<Field>, b: seq<Field>, key: string)
    ensures Lookup(a + b, key) == if HasKey(b, key) then Lookup(b, key) else Lookup(a, key)
    decreases |b|
  {
    if |b| == 0 {
      assert a + b == a;
    } else {
      var ab := a + b;
      assert ab[..|ab| - 1] == a + b[..|b| - 1];
      assert ab[|ab| - 1] == b[|b| - 1];
      if b[|b| - 1].0 != key {
        LookupAppend(a, b[..|b| - 1], key);
        assert HasKey(b, key) <==> HasKey(b[..|b| - 1], key) by {
          if HasKey(b, key) {
            var i :| 0 <= i < |b| && b[i].0 == key;
            assert b[..|b| - 1][i].0 == key;
          }
          if HasKey(b[..|b| - 1], key) {
            var i :| 0 <= i < |b| - 1 && b[..|b| - 1][i].0 == key;
            assert b[i].0 == key;
          }
        }
      }
    }
  }

  /** Property read `v.key` on a value that is not `null`: only objects own
      members; arrays, strings, numbers and booleans give `undefined` for
      the member names read here. */
  function Property(v: Json, key: string): (r: Option<Json>)
    requires !v.JNull?
    ensures r.Some? ==> v.JObj? && HasKey(v.fields, key)
    ensures v.JObj? && HasKey(v.fields, key) ==> r.Some?
    ensures r.Some? ==> v.JObj? && (key, r.value) in v.fields
  {
    if v.JObj? then Lookup(v.fields, key) else None
  }

  /** `strs[0] + sep + strs[1] + ... `, as `Array.prototype.join` glues its parts. */
  function Join(strs: seq<string>, sep: string): string
    decreases |strs|
  {
    if |strs| == 0 then ""
    else if |strs| == 1 then strs[0]
    else strs[0] + sep + Join(strs[1..], sep)
  }

  /** JavaScript's `String(v)`: arrays join their elements with commas,
      writing `null` elements as the empty string; objects become
      "[object Object]". */
  function ToJsString(v: Json): (r: string)
    ensures v.JStr? ==> r == v.s
    decreases v
  {
    match v
    case JNull => "null"
    case JBool(b) => if b then "true" else "false"
    case JNum(n) => Decimal.IntToString(n)
    case JStr(s) => s
    case JArr(items) =>
      Join(seq(|items|, i requires 0 <= i < |items| => if items[i].JNull? then "" else ToJsString(items[i])), ",")
    case JObj(_) => "[object Object]"
  }
}
