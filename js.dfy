/** The slice of JavaScript's value model that the dashboard's logic depends on:
    loosely typed values with JavaScript truthiness, plain objects keyed by
    field name, multipart payload entries, and the few string operations the
    components use (case folding, `includes`, `trim`, digit tests). */
module Js {

  datatype Option<+T> = None | Some(value: T)

  /** A browser `File`: its name, its MIME type string and its size in bytes. */
  datatype File = File(name: string, mime: string, size: int)

  /** A JavaScript value. Objects keep their keys in insertion order, which is
      the order `Object.keys` and `Object.entries` report for the non-numeric
      keys the dashboard uses; JavaScript lists integer-like keys first, in
      ascending order, and the model does not reorder them. */
  datatype Value =
    | Undefined
    | Null
    | Bool(b: bool)
    | Num(n: real)
    | Str(s: string)
    | FileRef(file: File)
    | Arr(items: seq<Value>)
    | Object(entries: seq<(string, Value)>)

  /** JavaScript truthiness (`!!v`). */
  predicate Truthy(v: Value) {
    match v
    case Undefined => false
    case Null => false
    case Bool(b) => b
    case Num(n) => n != 0.0
    case Str(s) => s != ""
    case _ => true
  }

  /** `v || d`. */
  function Or(v: Value, d: Value): (r: Value)
    ensures Truthy(v) ==> r == v
    ensures !Truthy(v) ==> r == d
  {
    if Truthy(v) then v else d
  }

  /** `typeof v === "object"` (true of null, arrays, files and plain objects). */
  predicate IsObjectType(v: Value) {
    v.Null? || v.FileRef? || v.Arr? || v.Object?
  }

  /** `value instanceof File`. */
  predicate IsFile(v: Value) {
    v.FileRef?
  }

  /** A component's state object, keyed by field name. */
  type Obj = map<string, Value>

  /** `o[k]`, which is `undefined` for a missing key. */
  function Get(o: Obj, k: string): Value {
    if k in o then o[k] else Undefined
  }

  /** `{ ...o, [k]: v }`. */
  function Set(o: Obj, k: string, v: Value): (r: Obj)
    ensures Get(r, k) == v
    ensures forall j :: j != k ==> Get(r, j) == Get(o, j)
  {
    o[k := v]
  }

  /** An object's own key/value pairs in order. */
  type Entries = seq<(string, Value)>

  /** `Object.entries(v)` (also what `{...v}` copies): an object's pairs, an
      array's or a string's pairs indexed "0", "1", …, and nothing for the
      other values. */
  function OwnEntries(v: Value): (e: Entries)
    ensures v.Object? ==> e == v.entries
    ensures v.Arr? ==> |e| == |v.items|
    ensures !v.Object? && !v.Arr? && !v.Str? ==> e == []
  {
    match v
    case Object(entries) => entries
    case Arr(items) => seq(|items|, i requires 0 <= i < |items| => (NatToString(i), items[i]))
    case Str(s) => seq(|s|, i requires 0 <= i < |s| => (NatToString(i), Str([s[i]])))
    case _ => []
  }

  /** `k in o ? o[k] : …`: the value stored under the first occurrence of `k`. */
  function Lookup(e: Entries, k: string): (r: Option<Value>)
    ensures r.None? <==> forall i :: 0 <= i < |e| ==> e[i].0 != k
    ensures r.Some? ==> (k, r.value) in e
  {
    if e == [] then None else if e[0].0 == k then Some(e[0].1) else Lookup(e[1..], k)
  }

  /** `{ ...o, [k]: v }` on ordered pairs: an existing key keeps its place and
      takes the new value, a new key goes last. */
  function SetEntry(e: Entries, k: string, v: Value): (r: Entries)
    ensures Lookup(r, k) == Some(v)
    ensures forall j :: j != k ==> Lookup(r, j) == Lookup(e, j)
    ensures Lookup(e, k).None? ==> r == e + [(k, v)]
  {
    if e == [] then [(k, v)]
    else if e[0].0 == k then [(k, v)] + e[1..]
    else [e[0]] + SetEntry(e[1..], k, v)
  }

  /** `v?.[k]` on a plain object: the stored value, `undefined` when the key
      is missing or `v` is not an object. */
  function Prop(v: Value, k: string): (r: Value)
    ensures !v.Object? ==> r == Undefined
  {
    if v.Object? then (var r := Lookup(v.entries, k); if r.Some? then r.value else Undefined) else Undefined
  }

  /** The elements of an array value, none for anything else. */
  function Items(v: Value): (r: seq<Value>)
    ensures v.Arr? ==> r == v.items
  {
    if v.Arr? then v.items else []
  }

  /** What a multipart payload entry carries: the value itself (a string or a
      file) or the JSON text of a value (`JSON.stringify(v)`). */
  datatype PartValue = Plain(v: Value) | JsonOf(j: Value)

  /** One `payload.append(key, value)`. */
  datatype Part = Part(key: string, value: PartValue)

  type Payload = seq<Part>

  /** The keys of a payload, in order. */
  function Keys(p: Payload): (ks: seq<string>)
    ensures |ks| == |p|
    ensures forall i :: 0 <= i < |p| ==> ks[i] == p[i].key
  {
    if p == [] then [] else [p[0].key] + Keys(p[1..])
  }

  /** What the receiver reads under `key`: the first entry with that key. */
  function PartFor(p: Payload, key: string): (r: Option<PartValue>)
    ensures r.None? <==> forall i :: 0 <= i < |p| ==> p[i].key != key
    ensures r.Some? ==> Part(key, r.value) in p
  {
    if p == [] then None else if p[0].key == key then Some(p[0].value) else PartFor(p[1..], key)
  }

  /** The entry at `i` is the one read under its key when no earlier entry
      has that key. */
  lemma {:induction false} PartForAt(p: Payload, i: nat)
    requires i < |p| && forall j :: 0 <= j < i ==> p[j].key != p[i].key
    ensures PartFor(p, p[i].key) == Some(p[i].value)
  {
    if i > 0 {
      assert p[0].key != p[i].key;
      forall j | 0 <= j < i - 1 ensures p[1..][j].key != p[1..][i - 1].key {
        assert p[1..][j] == p[j + 1];
      }
      PartForAt(p[1..], i - 1);
    }
  }

  /** Entries appended after the one read under `key` do not change what is read. */
  lemma {:induction false} PartForPrefix(q: Payload, rest: Payload, key: string)
    requires PartFor(q, key).Some?
    ensures PartFor(q + rest, key) == PartFor(q, key)
  {
    if q[0].key != key {
      assert (q + rest)[1..] == q[1..] + rest;
      PartForPrefix(q[1..], rest, key);
    }
  }

  /** Entries in front with other keys do not change what is read. */
  lemma {:induction false} PartForSkip(a: Payload, q: Payload, key: string)
    requires forall j :: 0 <= j < |a| ==> a[j].key != key
    ensures PartFor(a + q, key) == PartFor(q, key)
  {
    if a != [] {
      assert (a + q)[1..] == a[1..] + q;
      PartForSkip(a[1..], q, key);
    } else {
      assert a + q == q;
    }
  }

  // ---------------------------------------------------------------------------
  // Strings

  predicate IsDigit(c: char) {
    '0' <= c <= '9'
  }

  /** `c.toUpperCase()` on the ASCII letters. */
  function Upper(c: char): char {
    if 'a' <= c <= 'z' then (c as int - 'a' as int + 'A' as int) as char else c
  }

  /** `c.toLowerCase()` on the ASCII letters. */
  function Lower(c: char): char {
    if 'A' <= c <= 'Z' then (c as int - 'A' as int + 'a' as int) as char else c
  }

  function ToLower(s: string): (r: string)
    ensures |r| == |s|
    ensures forall i :: 0 <= i < |s| ==> r[i] == Lower(s[i])
  {
    if s == [] then [] else [Lower(s[0])] + ToLower(s[1..])
  }

  /** `s.startsWith(t)`. */
  predicate StartsWith(s: string, t: string) {
    |t| <= |s| && s[..|t|] == t
  }

  /** `s.includes(t)`. */
  predicate Includes(s: string, t: string)
    decreases |s|
  {
    StartsWith(s, t) || (s != [] && Includes(s[1..], t))
  }

  /** A string lacking one of the characters of `t` does not contain `t`. */
  lemma {:induction false} MissingCharExcludes(s: string, t: string, k: nat)
    requires k < |t| && forall i :: 0 <= i < |s| ==> s[i] != t[k]
    ensures !Includes(s, t)
    decreases |s|
  {
    if |t| <= |s| {
      assert s[..|t|][k] != t[k];
    }
    if s != [] {
      MissingCharExcludes(s[1..], t, k);
    }
  }

  /** The characters `String.prototype.trim` removes: ECMAScript's
      WhiteSpace (tab, vertical tab, form feed, the byte order mark and
      every space separator of Unicode's Zs category) and its
      LineTerminator (line feed, carriage return, U+2028, U+2029). */
  predicate IsSpace(c: char) {
    c == '\t' || c == '\U{000B}' || c == '\U{000C}' || c == ' ' || c == '\U{00A0}' || c == '\U{FEFF}' ||
    c == '\U{1680}' || ('\U{2000}' <= c <= '\U{200A}') || c == '\U{202F}' || c == '\U{205F}' || c == '\U{3000}' ||
    c == '\n' || c == '\r' || c == '\U{2028}' || c == '\U{2029}'
  }

  /** `s.trim() === ""`. */
  predicate IsBlank(s: string) {
    forall i :: 0 <= i < |s| ==> IsSpace(s[i])
  }

  /** `String(n)` for a natural number. */
  function NatToString(n: nat): (r: string)
    ensures |r| >= 1
    ensures forall i :: 0 <= i < |r| ==> IsDigit(r[i])
  {
    if n < 10 then [('0' as int + n) as char]
    else NatToString(n / 10) + [('0' as int + n % 10) as char]
  }

  /** `String(i)` for an integer. */
  function IntToString(i: int): string {
    if i < 0 then "-" + NatToString(-i) else NatToString(i)
  }
}
