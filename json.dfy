/**
 * JSON values as the bot sends them: `JSON.stringify`, JavaScript objects
 * as ordered key/value lists (property assignment and `delete`), and the
 * patch script `update` sends, which assigns every property but `@metadata`.
 */
module Json {
  import opened Wrappers
  import opened JsText
  import opened Utils

  datatype Json =
    | JNull
    | JBool(b: bool)
    | JNum(n: int)
    | JStr(s: string)
    | JArr(items: seq<Json>)
    | JObj(members: seq<(string, Json)>)

  /** The own properties of an object, in JavaScript's property order. */
  type Members = seq<(string, Json)>

  const METADATA: string := "@metadata"

  // ---------------------------------------------------------------------------
  // JSON.stringify

  function HexDigit(d: nat): (c: char)
    requires d < 16
    ensures ('0' <= c <= '9') || ('a' <= c <= 'f')
  {
    if d < 10 then (('0' as int) + d) as char else (('a' as int) + d - 10) as char
  }

  function HexValue(c: char): Option<nat> {
    if '0' <= c <= '9' then Some((c as int) - ('0' as int))
    else if 'a' <= c <= 'f' then Some((c as int) - ('a' as int) + 10)
    else if 'A' <= c <= 'F' then Some((c as int) - ('A' as int) + 10)
    else None
  }

  /** How `JSON.stringify` writes one character inside a string literal. */
  function EscapeChar(c: char): (t: string)
    ensures |t| >= 1
    ensures t[0] == '\\' || (t == [c] && c != '"' && c as int >= 0x20)
  {
    if c == '"' then "\\\""
    else if c == '\\' then "\\\\"
    else if c == '\n' then "\\n"
    else if c == '\r' then "\\r"
    else if c == '\t' then "\\t"
    else if c as int == 0x08 then "\\b"
    else if c as int == 0x0C then "\\f"
    else if c as int < 0x20 then "\\u00" + [HexDigit(c as int / 16), HexDigit(c as int % 16)]
    else [c]
  }

  function Escape(s: string): string
    decreases |s|
  {
    if s == [] then [] else EscapeChar(s[0]) + Escape(s[1..])
  }

  function Quote(s: string): string {
    "\"" + Escape(s) + "\""
  }

  function Stringify(j: Json): string
    decreases j
  {
    match j
    case JNull => "null"
    case JBool(b) => if b then "true" else "false"
    case JNum(n) => IntToString(n)
    case JStr(s) => Quote(s)
    case JArr(items) =>
      "[" + Join(seq(|items|, i requires 0 <= i < |items| => Stringify(items[i])), ',') + "]"
    case JObj(members) =>
      "{" + Join(seq(|members|, i requires 0 <= i < |members| =>
                   Quote(members[i].0) + ":" + Stringify(members[i].1)), ',') + "}"
  }

  /**
   * Reading the body of a JSON string literal back: the escapes JSON
   * defines; a raw `"` or control character is malformed.
   */
  function Unescape(t: string): (r: Option<string>)
    decreases |t|
  {
    if t == [] then Some([])
    else if t[0] == '\\' then
      if |t| < 2 then None
      else if t[1] == 'u' then
        if |t| < 6 then None
        else
          var h := [HexValue(t[2]), HexValue(t[3]), HexValue(t[4]), HexValue(t[5])];
          if h[0].None? || h[1].None? || h[2].None? || h[3].None? then None
          else
            var code := ((h[0].value * 16 + h[1].value) * 16 + h[2].value) * 16 + h[3].value;
            if 0xD800 <= code < 0xE000 then None
            else match Unescape(t[6..])
              case None => None
              case Some(rest) => Some([code as char] + rest)
      else
        var c := if t[1] == '"' then Some('"')
                 else if t[1] == '\\' then Some('\\')
                 else if t[1] == '/' then Some('/')
                 else if t[1] == 'n' then Some('\n')
                 else if t[1] == 'r' then Some('\r')
                 else if t[1] == 't' then Some('\t')
                 else if t[1] == 'b' then Some(8 as char)
                 else if t[1] == 'f' then Some(12 as char)
                 else None;
        if c.None? then None
        else match Unescape(t[2..])
          case None => None
          case Some(rest) => Some([c.value] + rest)
    else if t[0] == '"' || t[0] as int < 0x20 then None
    else match Unescape(t[1..])
      case None => None
      case Some(rest) => Some([t[0]] + rest)
  }

  lemma UnescapeChar(c: char, rest: string, r: string)
    requires Unescape(rest) == Some(r)
    ensures Unescape(EscapeChar(c) + rest) == Some([c] + r)
  {
    var t := EscapeChar(c) + rest;
    if c as int < 0x20 && c != '\n' && c != '\r' && c != '\t' && c as int != 0x08 && c as int != 0x0C {
      var hi, lo := c as int / 16, c as int % 16;
      assert t[..6] == ['\\', 'u', '0', '0', HexDigit(hi), HexDigit(lo)];
      assert HexValue(HexDigit(hi)) == Some(hi);
      assert HexValue(HexDigit(lo)) == Some(lo);
      assert t[6..] == rest;
    } else if |EscapeChar(c)| == 2 {
      assert t[2..] == rest;
    } else {
      assert t[1..] == rest;
    }
  }

  /** `JSON.stringify` of a string can be read back: the escaping loses nothing. */
  lemma {:induction false} UnescapeEscape(s: string)
    ensures Unescape(Escape(s)) == Some(s)
    decreases |s|
  {
    if s != [] {
      UnescapeEscape(s[1..]);
      UnescapeChar(s[0], Escape(s[1..]), s[1..]);
      assert [s[0]] + s[1..] == s;
    }
  }

  /** So two different strings never stringify to the same literal. */
  lemma QuoteInjective(s: string, t: string)
    requires Quote(s) == Quote(t)
    ensures s == t
  {
    assert Escape(s) == Quote(s)[1..|Quote(s)| - 1];
    assert Escape(t) == Quote(t)[1..|Quote(t)| - 1];
    UnescapeEscape(s);
    UnescapeEscape(t);
  }

  // ---------------------------------------------------------------------------
  // Objects

  function Keys(obj: Members): (ks: seq<string>)
    ensures |ks| == |obj| && forall i :: 0 <= i < |obj| ==> ks[i] == obj[i].0
  {
    seq(|obj|, i requires 0 <= i < |obj| => obj[i].0)
  }

  predicate DistinctKeys(obj: Members) {
    forall i, j :: 0 <= i < j < |obj| ==> obj[i].0 != obj[j].0
  }

  /** `obj[k]`, `None` standing for `undefined`. */
  function Lookup(obj: Members, k: string): (r: Option<Json>)
    ensures r.None? <==> k !in Keys(obj)
    ensures r.Some? ==> (k, r.value) in obj
    decreases |obj|
  {
    if obj == [] then None
    else if obj[0].0 == k then Some(obj[0].1)
    else
      assert Keys(obj)[1..] == Keys(obj[1..]);
      Lookup(obj[1..], k)
  }

  /** `obj[k] = v`: an existing property keeps its place, a new one goes last. */
  function Assign(obj: Members, k: string, v: Json): Members
    decreases |obj|
  {
    if obj == [] then [(k, v)]
    else if obj[0].0 == k then [(k, v)] + obj[1..]
    else [obj[0]] + Assign(obj[1..], k, v)
  }

  /** `delete obj[k]`. */
  function Remove(obj: Members, k: string): Members
    decreases |obj|
  {
    if obj == [] then []
    else if obj[0].0 == k then Remove(obj[1..], k)
    else [obj[0]] + Remove(obj[1..], k)
  }

  lemma {:induction false} LookupAssign(obj: Members, k: string, v: Json, q: string)
    ensures Lookup(Assign(obj, k, v), q) == if q == k then Some(v) else Lookup(obj, q)
    decreases |obj|
  {
    if obj != [] && obj[0].0 != k {
      LookupAssign(obj[1..], k, v, q);
    }
  }

  lemma {:induction false} KeysAssign(obj: Members, k: string, v: Json)
    ensures Keys(Assign(obj, k, v)) == if k in Keys(obj) then Keys(obj) else Keys(obj) + [k]
    decreases |obj|
  {
    if obj != [] {
      assert Keys(obj)[1..] == Keys(obj[1..]);
      if obj[0].0 != k {
        KeysAssign(obj[1..], k, v);
        assert Assign(obj, k, v)[1..] == Assign(obj[1..], k, v);
        assert Keys(Assign(obj, k, v))[1..] == Keys(Assign(obj[1..], k, v));
      } else {
        assert Keys(Assign(obj, k, v))[1..] == Keys(obj[1..]);
      }
    }
  }

  lemma {:induction false} LookupRemove(obj: Members, k: string, q: string)
    ensures Lookup(Remove(obj, k), q) == if q == k then None else Lookup(obj, q)
    decreases |obj|
  {
    if obj != [] {
      LookupRemove(obj[1..], k, q);
    }
  }

  lemma {:induction false} LookupAt(a: Members, p: (string, Json), b: Members)
    requires p.0 !in Keys(a)
    ensures Lookup(a + [p] + b, p.0) == Some(p.1)
    decreases |a|
  {
    if a != [] {
      assert (a + [p] + b)[1..] == a[1..] + [p] + b;
      assert Keys(a)[1..] == Keys(a[1..]);
      LookupAt(a[1..], p, b);
    }
  }

  lemma {:induction false} RemoveAbsent(obj: Members, k: string)
    requires k !in Keys(obj)
    ensures Remove(obj, k) == obj
    decreases |obj|
  {
    if obj != [] {
      assert Keys(obj)[1..] == Keys(obj[1..]);
      RemoveAbsent(obj[1..], k);
    }
  }

  /** A key absent from a non-empty object is neither its first key nor in its rest. */
  lemma NotInKeysTail(a: Members, k: string)
    requires a != [] && k !in Keys(a)
    ensures a[0].0 != k && k !in Keys(a[1..])
  {
    assert Keys(a)[0] == a[0].0;
    assert Keys(a)[1..] == Keys(a[1..]);
  }

  /** `Remove` keeps a first property with another key. */
  lemma RemoveHead(s: Members, k: string)
    requires s != [] && s[0].0 != k
    ensures Remove(s, k) == [s[0]] + Remove(s[1..], k)
  {
  }

  /** `delete` of a property that occurs once takes out just that property. */
  lemma {:induction false} RemoveAt(a: Members, p: (string, Json), b: Members)
    requires p.0 !in Keys(a) && p.0 !in Keys(b)
    ensures Remove(a + [p] + b, p.0) == a + b
    decreases |a|
  {
    if a == [] {
      assert ([p] + b)[1..] == b;
      RemoveAbsent(b, p.0);
    } else {
      var s := a + [p] + b;
      NotInKeysTail(a, p.0);
      assert s[0] == a[0];
      assert s[1..] == a[1..] + [p] + b;
      RemoveAt(a[1..], p, b);
      RemoveHead(s, p.0);
      assert [a[0]] + (a[1..] + b) == a + b;
    }
  }

  /** Assigning a property that occurs after `a` replaces its value where it stands. */
  lemma {:induction false} AssignAt(a: Members, p: (string, Json), b: Members, v: Json)
    requires p.0 !in Keys(a)
    ensures Assign(a + [p] + b, p.0, v) == a + [(p.0, v)] + b
    decreases |a|
  {
    if a == [] {
      assert ([p] + b)[1..] == b;
    } else {
      assert (a + [p] + b)[1..] == a[1..] + [p] + b;
      assert Keys(a)[1..] == Keys(a[1..]);
      AssignAt(a[1..], p, b, v);
    }
  }

  /** Assigning a new property appends it. */
  lemma {:induction false} AssignNew(a: Members, k: string, v: Json)
    requires k !in Keys(a)
    ensures Assign(a, k, v) == a + [(k, v)]
    decreases |a|
  {
    if a != [] {
      assert Keys(a)[1..] == Keys(a[1..]);
      AssignNew(a[1..], k, v);
    }
  }

  /** With distinct keys, assigning an existing property replaces its value in place. */
  lemma {:induction false} AssignExisting(obj: Members, i: nat, v: Json)
    requires DistinctKeys(obj) && i < |obj|
    ensures Assign(obj, obj[i].0, v) == obj[i := (obj[i].0, v)]
    decreases i
  {
    if i > 0 {
      assert DistinctKeys(obj[1..]);
      AssignExisting(obj[1..], i - 1, v);
      assert obj[1..][i - 1 := (obj[i].0, v)] == obj[i := (obj[i].0, v)][1..];
    }
  }

  // ---------------------------------------------------------------------------
  // The patch script of `update`

  /** The properties the script assigns: all but `@metadata`, in order. */
  function Assignments(obj: Members): (a: Members)
    ensures forall i :: 0 <= i < |a| ==> a[i].0 != METADATA && a[i] in obj
    ensures forall i :: 0 <= i < |obj| && obj[i].0 != METADATA ==> obj[i] in a
    decreases |obj|
  {
    if obj == [] then []
    else if obj[0].0 == METADATA then Assignments(obj[1..])
    else [obj[0]] + Assignments(obj[1..])
  }

  /** `this.k = JSON.stringify(v)`. */
  function Statement(k: string, v: Json): string {
    "this." + k + " = " + Stringify(v)
  }

  function Statements(a: Members): (st: seq<string>)
    ensures |st| == |a|
  {
    seq(|a|, i requires 0 <= i < |a| => Statement(a[i].0, a[i].1))
  }

  /** The script: the statements joined by `;`, with one more `;` at the end. */
  function PatchScript(obj: Members): (script: string)
    ensures |script| >= 1 && script[|script| - 1] == ';'
    ensures Assignments(obj) == [] <==> script == ";"
  {
    Join(Statements(Assignments(obj)), ';') + ";"
  }

  lemma {:induction false} JoinTerminated(parts: seq<string>, sep: char)
    requires |parts| >= 1
    ensures Join(parts, sep) + [sep]
         == Concat(seq(|parts|, i requires 0 <= i < |parts| => parts[i] + [sep]))
    decreases |parts|
  {
    var t := seq(|parts|, i requires 0 <= i < |parts| => parts[i] + [sep]);
    if |parts| > 1 {
      JoinTerminated(parts[1..], sep);
      assert t[1..] == seq(|parts[1..]|, i requires 0 <= i < |parts[1..]| => parts[1..][i] + [sep]);
    } else {
      assert t[1..] == [];
    }
  }

  /**
   * The script is one `this.k = JSON(v);` per property other than `@metadata`,
   * in property order; an object with nothing to assign gives `";"`.
   */
  lemma PatchScriptShape(obj: Members)
    ensures Assignments(obj) == [] ==> PatchScript(obj) == ";"
    ensures Assignments(obj) != [] ==>
              PatchScript(obj) == Concat(seq(|Assignments(obj)|, i requires 0 <= i < |Assignments(obj)| =>
                                            Statement(Assignments(obj)[i].0, Assignments(obj)[i].1) + ";"))
  {
    var st := Statements(Assignments(obj));
    if st != [] {
      JoinTerminated(st, ';');
      assert seq(|st|, i requires 0 <= i < |st| => st[i] + [';'])
          == seq(|Assignments(obj)|, i requires 0 <= i < |Assignments(obj)| =>
                   Statement(Assignments(obj)[i].0, Assignments(obj)[i].1) + ";");
    }
  }

  /** Running the script on a stored document: the assignments, one after another. */
  function ApplyAll(doc: Members, a: Members): Members
    decreases |a|
  {
    if a == [] then doc else ApplyAll(Assign(doc, a[0].0, a[0].1), a[1..])
  }

  /** The stored document after a patch by `data`, when both have the same properties in the same order. */
  function Overlay(doc: Members, data: Members, from: nat): (r: Members)
    requires |doc| == |data|
    ensures |r| == |doc|
  {
    seq(|doc|, i requires 0 <= i < |doc| =>
          if i >= from && data[i].0 != METADATA then data[i] else doc[i])
  }

  lemma {:induction false} PatchFrom(doc: Members, data: Members, n: nat)
    requires DistinctKeys(doc) && Keys(doc) == Keys(data) && n <= |data|
    ensures ApplyAll(doc, Assignments(data[n..])) == Overlay(doc, data, n)
    decreases |data| - n
  {
    if n == |data| {
      assert data[n..] == [];
      assert Overlay(doc, data, n) == doc;
    } else {
      assert data[n..][1..] == data[n + 1..];
      if data[n].0 == METADATA {
        PatchFrom(doc, data, n + 1);
        assert Overlay(doc, data, n + 1) == Overlay(doc, data, n);
      } else {
        var doc' := doc[n := data[n]];
        assert data[n].0 == doc[n].0 by { assert Keys(doc)[n] == Keys(data)[n]; }
        AssignExisting(doc, n, data[n].1);
        assert Keys(doc') == Keys(doc);
        assert DistinctKeys(doc');
        PatchFrom(doc', data, n + 1);
        assert Overlay(doc', data, n + 1) == Overlay(doc, data, n);
      }
    }
  }

  /**
   * Patching a stored document with an object of the same shape keeps the
   * stored `@metadata` and takes every other property from the object.
   */
  lemma PatchKeepsMetadata(doc: Members, data: Members)
    requires DistinctKeys(doc) && Keys(doc) == Keys(data)
    ensures ApplyAll(doc, Assignments(data)) == Overlay(doc, data, 0)
    ensures forall i :: 0 <= i < |doc| ==>
              ApplyAll(doc, Assignments(data))[i] == (if doc[i].0 == METADATA then doc[i] else data[i])
  {
    assert data[0..] == data;
    PatchFrom(doc, data, 0);
  }

  /**
   * For a document made of its metadata followed by fields with the same
   * names as the patching object's: the patch keeps the stored metadata and
   * takes all the object's fields.
   */
  lemma PatchFieldsAfterMetadata(stored: Json, meta: Json, old_fields: Members, fields: Members)
    requires Keys(old_fields) == Keys(fields)
    requires DistinctKeys(fields) && METADATA !in Keys(fields)
    ensures ApplyAll([(METADATA, stored)] + old_fields, Assignments([(METADATA, meta)] + fields))
         == [(METADATA, stored)] + fields
  {
    var t, d := [(METADATA, stored)] + old_fields, [(METADATA, meta)] + fields;
    KeysCons((METADATA, stored), old_fields, fields);
    KeysCons((METADATA, meta), fields, fields);
    DistinctCons((METADATA, stored), old_fields, fields);
    PatchKeepsMetadata(t, d);
    assert Overlay(t, d, 0) == [(METADATA, stored)] + fields;
  }

  lemma KeysCons(p: (string, Json), a: Members, b: Members)
    requires Keys(a) == Keys(b)
    ensures Keys([p] + a) == [p.0] + Keys(b)
  {
    var ka := Keys([p] + a);
    forall i | 0 <= i < |ka| ensures ka[i] == ([p.0] + Keys(b))[i] {
      if i > 0 { assert Keys(a)[i - 1] == a[i - 1].0; }
    }
  }

  lemma DistinctCons(p: (string, Json), a: Members, b: Members)
    requires Keys(a) == Keys(b) && DistinctKeys(b) && p.0 !in Keys(b)
    ensures DistinctKeys([p] + a)
  {
    var t := [p] + a;
    forall i, j | 0 <= i < j < |t| ensures t[i].0 != t[j].0 {
      assert t[j].0 == Keys(b)[j - 1];
      if i > 0 {
        assert t[i].0 == Keys(b)[i - 1];
        assert b[i - 1].0 != b[j - 1].0;
      }
    }
  }

  /** The `Id` of the patch command: `data["@metadata"]["@id"]`; `None` where that would throw or be undefined. */
  function PatchTarget(obj: Members): (r: Option<Json>)
    ensures r.Some? ==> Lookup(obj, METADATA).Some? && Lookup(obj, METADATA).value.JObj?
  {
    match Lookup(obj, METADATA)
    case Some(JObj(meta)) => Lookup(meta, "@id")
    case _ => None
  }
}
