/** Parsed JSON values as the explorer sees them after `JSON.parse` /
    `jsonc-parser`, with the three JavaScript notions the commands apply to
    them: truthiness (`!x`), `typeof x === "object"`, strict equality
    (`===`), and `JSON.stringify` (compact, or with an indentation gap).
    Numbers are integers in this model. An object's members are kept as
    written, duplicates included; the object JavaScript builds from them
    (`Properties`, `OwnKeysOrder`) is what `JSON.stringify` prints. */
module Json {
  import opened Wrappers
  import opened Strings
  import opened Sequences

  datatype Json =
    | JNull
    | JBool(b: bool)
    | JNum(n: int)
    | JStr(s: string)
    | JArr(items: seq<Json>)
    | JObj(members: seq<(string, Json)>)

  /** JavaScript truthiness of a value. */
  predicate Truthy(j: Json) {
    match j
    case JNull => false
    case JBool(b) => b
    case JNum(n) => n != 0
    case JStr(s) => s != ""
    case _ => true
  }

  /** `typeof j === "object"` (true for `null`, arrays and objects). */
  predicate IsObjectType(j: Json) {
    j.JNull? || j.JArr? || j.JObj?
  }

  /** `a === b` where `a` was freshly parsed: primitives compare by value,
      a parsed array or object is a new reference and equals nothing else. */
  predicate StrictEquals(a: Json, b: Json) {
    match (a, b)
    case (JNull, JNull) => true
    case (JBool(x), JBool(y)) => x == y
    case (JNum(x), JNum(y)) => x == y
    case (JStr(x), JStr(y)) => x == y
    case _ => false
  }

  function HexDigit(d: nat): char
    requires d < 16
  {
    if d < 10 then DigitChar(d) else (('a' as int) + d - 10) as char
  }

  /** The escape `JSON.stringify` writes for one character of a string. */
  function EscapeChar(c: char): string {
    if c == '"' then "\\\""
    else if c == '\\' then "\\\\"
    else if c as int == 8 then "\\b"
    else if c == '\t' then "\\t"
    else if c == '\n' then "\\n"
    else if c as int == 12 then "\\f"
    else if c == '\r' then "\\r"
    else if c as int < 32 then "\\u00" + [HexDigit(c as int / 16), HexDigit(c as int % 16)]
    else [c]
  }

  function Escape(s: string): string
    decreases |s|
  {
    if s == [] then "" else EscapeChar(s[0]) + Escape(s[1..])
  }

  /** A JSON string literal. */
  function Quote(s: string): string {
    "\"" + Escape(s) + "\""
  }

  // ---------------------------------------------------------------------
  // The object JavaScript builds from a member list
  // ---------------------------------------------------------------------

  /** Whether `key` is an array index, which a JavaScript object lists
      before its other keys, in ascending numeric order. */
  predicate IsArrayIndex(key: string) {
    IsCanonicalNat(key) && DigitsValue(key) < 0xFFFF_FFFF
  }

  function IndexValue(key: string): int {
    if IsCanonicalNat(key) then DigitsValue(key) else 0
  }

  /** The keys written among `ms`. */
  function KeysOf(ms: seq<(string, Json)>): set<string> {
    set m | m in ms :: m.0
  }

  /** No key occurs twice. */
  predicate DistinctKeys(ms: seq<(string, Json)>) {
    forall i, j :: 0 <= i < j < |ms| ==> ms[i].0 != ms[j].0
  }

  /** `obj[m.0] = m.1`: a key already present keeps its place and takes the
      new value, a new key is added last. */
  function Put(props: seq<(string, Json)>, m: (string, Json)): (r: seq<(string, Json)>)
    ensures m in r && forall x :: x in r ==> x in props || x == m
    decreases |props|
  {
    if props == [] then [m]
    else if props[0].0 == m.0 then [m] + props[1..]
    else [props[0]] + Put(props[1..], m)
  }

  /** The properties, in creation order, of the object `JSON.parse` builds
      from members written in this order. */
  function Properties(members: seq<(string, Json)>): (r: seq<(string, Json)>)
    ensures forall x :: x in r ==> x in members
    decreases |members|
  {
    if members == [] then []
    else
      var init := members[..|members| - 1];
      var r := Put(Properties(init), members[|members| - 1]);
      assert forall x :: x in init ==> x in members;
      r
  }

  predicate AtIndex(m: (string, Json)) {
    IsArrayIndex(m.0)
  }

  predicate NotAtIndex(m: (string, Json)) {
    !IsArrayIndex(m.0)
  }

  function ByIndex(a: (string, Json), b: (string, Json)): int {
    IndexValue(a.0) - IndexValue(b.0)
  }

  /** The properties at array indices, in ascending numeric order. */
  function IndexProperties(props: seq<(string, Json)>): (r: seq<(string, Json)>)
    ensures forall x :: x in r ==> x in props
  {
    var indices := Keep(props, AtIndex);
    var sorted := InsertionSort(indices, ByIndex);
    assert forall x :: x in sorted ==> x in indices by {
      forall x | x in sorted ensures x in indices {
        assert x in multiset(sorted);
      }
    }
    sorted
  }

  /** The members `JSON.stringify` prints, in JavaScript's key order: array
      indices ascending, then the other keys in creation order. */
  function OwnKeysOrder(members: seq<(string, Json)>): (r: seq<(string, Json)>)
    ensures forall x :: x in r ==> x in members
  {
    var props := Properties(members);
    IndexProperties(props) + Keep(props, NotAtIndex)
  }

  lemma {:induction false} PutKeys(props: seq<(string, Json)>, m: (string, Json))
    ensures KeysOf(Put(props, m)) == KeysOf(props) + {m.0}
    ensures forall x :: x in Put(props, m) && x.0 != m.0 ==> x in props
    ensures m in Put(props, m)
    decreases |props|
  {
    if props != [] {
      assert props == [props[0]] + props[1..];
      assert KeysOf(props) == {props[0].0} + KeysOf(props[1..]);
      if props[0].0 != m.0 {
        PutKeys(props[1..], m);
        assert Put(props, m) == [props[0]] + Put(props[1..], m);
        assert KeysOf(Put(props, m)) == {props[0].0} + KeysOf(Put(props[1..], m));
      } else {
        assert KeysOf(Put(props, m)) == {m.0} + KeysOf(props[1..]);
      }
    }
  }

  lemma {:induction false} PutDistinct(props: seq<(string, Json)>, m: (string, Json))
    requires DistinctKeys(props)
    ensures DistinctKeys(Put(props, m))
    decreases |props|
  {
    if props != [] {
      var tail := props[1..];
      if props[0].0 != m.0 {
        assert DistinctKeys(tail) by {
          forall i, j | 0 <= i < j < |tail| ensures tail[i].0 != tail[j].0 {
            assert tail[i] == props[i + 1] && tail[j] == props[j + 1];
          }
        }
        PutDistinct(tail, m);
        PutDistinctPast(props, m);
      } else {
        var r := Put(props, m);
        assert r == [m] + tail;
        forall i, j | 0 <= i < j < |r| ensures r[i].0 != r[j].0 {
          assert r[j] == props[j];
          if i > 0 {
            assert r[i] == props[i];
          }
        }
      }
    }
  }

  /** The step of `PutDistinct` past a first property of another key. */
  lemma PutDistinctPast(props: seq<(string, Json)>, m: (string, Json))
    requires props != [] && props[0].0 != m.0
    requires DistinctKeys(props) && DistinctKeys(Put(props[1..], m))
    ensures DistinctKeys(Put(props, m))
  {
    var tail := props[1..];
    PutKeys(tail, m);
    forall x | x in tail ensures x.0 != props[0].0 {
      var k :| 0 <= k < |tail| && tail[k] == x;
      assert props[k + 1] == x;
    }
    assert props[0].0 !in KeysOf(tail);
    DistinctCons(props[0], Put(tail, m));
  }

  /** A property whose key is new keeps the keys distinct. */
  lemma DistinctCons(x: (string, Json), s: seq<(string, Json)>)
    requires DistinctKeys(s) && x.0 !in KeysOf(s)
    ensures DistinctKeys([x] + s)
  {
    var r := [x] + s;
    forall i, j | 0 <= i < j < |r| ensures r[i].0 != r[j].0 {
      assert r[j] == s[j - 1];
      if i == 0 {
        assert r[j] in s;
      } else {
        assert r[i] == s[i - 1];
      }
    }
  }

  /** `JSON.parse` keeps one property per key written, holding the value
      written last for it, which is what reading the key gives. */
  lemma {:induction false} PropertiesSpec(members: seq<(string, Json)>)
    ensures DistinctKeys(Properties(members))
    ensures KeysOf(Properties(members)) == KeysOf(members)
    ensures forall x :: x in Properties(members) ==> Field(JObj(members), x.0) == Some(x.1)
    decreases |members|
  {
    if members != [] {
      var init := members[..|members| - 1];
      var m := members[|members| - 1];
      assert members == init + [m];
      PropertiesSpec(init);
      PutKeys(Properties(init), m);
      PutDistinct(Properties(init), m);
      assert KeysOf(members) == KeysOf(init) + {m.0};
      PutValues(init, m);
    }
  }

  /** The step of `PropertiesSpec`: after one more member, every property
      still holds the value reading its key gives. */
  lemma PutValues(init: seq<(string, Json)>, m: (string, Json))
    requires DistinctKeys(Put(Properties(init), m))
    requires forall x :: x in Properties(init) ==> Field(JObj(init), x.0) == Some(x.1)
    ensures forall x :: x in Properties(init + [m]) ==> Field(JObj(init + [m]), x.0) == Some(x.1)
  {
    var members := init + [m];
    assert members[..|members| - 1] == init;
    var r := Properties(members);
    assert r == Put(Properties(init), m);
    forall x | x in r ensures Field(JObj(members), x.0) == Some(x.1) {
      if x.0 != m.0 {
        assert x in Properties(init);
        assert Field(JObj(members), x.0) == Field(JObj(init), x.0);
      } else {
        assert x == m by {
          assert m in r;
          var i :| 0 <= i < |r| && r[i] == x;
          var j :| 0 <= j < |r| && r[j] == m;
          assert i == j;
        }
      }
    }
  }

  /** `JSON.stringify(j, null, gap)` at nesting `indent`: compact when `gap`
      is empty, otherwise one element or member per line. */
  function Stringify(j: Json, gap: string, indent: string): string
    decreases j, 1, 0
  {
    match j
    case JNull => "null"
    case JBool(b) => if b then "true" else "false"
    case JNum(n) => IntToString(n)
    case JStr(s) => Quote(s)
    case JArr(items) =>
      if items == [] then "[]"
      else if gap == "" then "[" + StringifyItems(items, gap, indent, ",") + "]"
      else
        var inner := indent + gap;
        "[\n" + inner + StringifyItems(items, gap, inner, ",\n" + inner) + "\n" + indent + "]"
    case JObj(members) =>
      var props := OwnKeysOrder(members);
      if props == [] then "{}"
      else if gap == "" then "{" + StringifyMembers(props, gap, indent, ",", j) + "}"
      else
        var inner := indent + gap;
        "{\n" + inner + StringifyMembers(props, gap, inner, ",\n" + inner, j) + "\n" + indent + "}"
  }

  function StringifyItems(items: seq<Json>, gap: string, indent: string, sep: string): string
    decreases items, 1, 0
  {
    if items == [] then ""
    else if |items| == 1 then Stringify(items[0], gap, indent)
    else Stringify(items[0], gap, indent) + sep + StringifyItems(items[1..], gap, indent, sep)
  }

  /** The members of the object `parent`, printed in the given order. */
  function StringifyMembers(members: seq<(string, Json)>, gap: string, indent: string, sep: string, parent: Json): string
    requires parent.JObj? && forall m :: m in members ==> m in parent.members
    decreases parent, 0, |members|
  {
    if members == [] then ""
    else
      var m := members[0];
      assert m in parent.members && m.1 < m;
      var colon := if gap == "" then ":" else ": ";
      var first := Quote(m.0) + colon + Stringify(m.1, gap, indent);
      if |members| == 1 then first
      else first + sep + StringifyMembers(members[1..], gap, indent, sep, parent)
  }

  /** `JSON.stringify(j)`. */
  function Compact(j: Json): string {
    Stringify(j, "", "")
  }

  /** `JSON.stringify(j, null, 2)`. */
  function Pretty(j: Json): string {
    Stringify(j, "  ", "")
  }

  /** A key written twice is printed once, with the value written last. */
  lemma DuplicateKeyPrintedOnce(first: (string, Json), last: (string, Json))
    requires first == ("a", JNum(1)) && last == ("a", JNum(2))
    ensures Compact(JObj([first, last])) == Compact(JObj([last])) == "{" + "\"a\":2" + "}"
  {
    RewrittenProperty(first, last);
    assert !IsArrayIndex(last.0);
    SinglePlainProperty([first, last], last);
    SinglePlainProperty([last], last);
    SinglePropertyPrinted([first, last], last);
    SinglePropertyPrinted([last], last);
    QuotePlain("a");
    assert Compact(JNum(2)) == "2";
  }

  /** Writing a key a second time leaves one property, holding the value
      written last. */
  lemma RewrittenProperty(first: (string, Json), last: (string, Json))
    requires first.0 == last.0
    ensures Properties([first, last]) == [last] && Properties([last]) == [last]
  {
    assert [first, last][..1] == [first] && [first][..0] == [] && [last][..0] == [];
    assert Properties([first]) == [first];
  }

  /** An object printing one property prints that property's key and its
      value. */
  lemma SinglePropertyPrinted(members: seq<(string, Json)>, m: (string, Json))
    requires OwnKeysOrder(members) == [m]
    ensures Compact(JObj(members)) == "{" + (Quote(m.0) + ":" + Compact(m.1)) + "}"
  {
    assert m in members;
    assert Compact(JObj(members)) == "{" + StringifyMembers([m], "", "", ",", JObj(members)) + "}";
    assert StringifyMembers([m], "", "", ",", JObj(members)) == Quote(m.0) + ":" + Compact(m.1);
  }

  /** Members that make one property, at a key that is not an array
      index, print that property alone. */
  lemma SinglePlainProperty(members: seq<(string, Json)>, m: (string, Json))
    requires Properties(members) == [m] && !IsArrayIndex(m.0)
    ensures OwnKeysOrder(members) == [m]
  {
    assert m in Keep([m], NotAtIndex);
  }

  /** An array-index key is printed before the other keys, whatever the
      order they were written in. */
  lemma IndexKeyPrintedFirst(one: (string, Json), b: (string, Json))
    requires one == ("1", JNum(2)) && b == ("b", JNum(1))
    ensures Compact(JObj([b, one])) == Compact(JObj([one, b])) == "{" + "\"1\":2,\"b\":1" + "}"
  {
    IndexKeyOrderedFirst(one, b);
    MembersIgnoreParent([one, b], "", "", ",", JObj([one, b]), JObj([b, one]));
    TwoPlainMembers(one, b);
  }

  lemma IndexKeyOrderedFirst(one: (string, Json), b: (string, Json))
    requires one.0 == "1" && b.0 == "b"
    ensures OwnKeysOrder([b, one]) == [one, b] == OwnKeysOrder([one, b])
  {
    assert DigitsValue("1") == 1 by {
      assert "1"[..0] == "";
    }
    assert IsArrayIndex(one.0) && !IsArrayIndex(b.0);
    PropertiesOfTwo(b, one);
    PropertiesOfTwo(one, b);
    IndexBeforePlain([b, one], one, b);
    IndexBeforePlain([one, b], one, b);
  }

  /** Of two properties, the one at an array index is printed first. */
  lemma IndexBeforePlain(members: seq<(string, Json)>, index: (string, Json), plain: (string, Json))
    requires Properties(members) == [index, plain] || Properties(members) == [plain, index]
    requires IsArrayIndex(index.0) && !IsArrayIndex(plain.0)
    ensures OwnKeysOrder(members) == [index, plain]
  {
    var props := Properties(members);
    var x, y := props[0], props[1];
    assert props == [x] + [y] && [x] == [] + [x];
    KeepAppend([], x, AtIndex);
    KeepAppend([x], y, AtIndex);
    KeepAppend([], x, NotAtIndex);
    KeepAppend([x], y, NotAtIndex);
    OneIndexProperty(props, index);
  }

  lemma OneIndexProperty(props: seq<(string, Json)>, index: (string, Json))
    requires Keep(props, AtIndex) == [index]
    ensures IndexProperties(props) == [index]
  {
    assert InsertionSort([index], ByIndex) == [index] by {
      assert [index][..0] == [];
    }
  }

  lemma PropertiesOfTwo(x: (string, Json), y: (string, Json))
    requires x.0 != y.0
    ensures Properties([x, y]) == [x, y]
  {
    assert [x, y][..1] == [x] && [x][..0] == [];
    assert Properties([x]) == [x];
    assert Put([x], y) == [x, y] by {
      assert [x][1..] == [];
    }
  }

  lemma TwoPlainMembers(one: (string, Json), b: (string, Json))
    requires one == ("1", JNum(2)) && b == ("b", JNum(1))
    ensures StringifyMembers([one, b], "", "", ",", JObj([one, b])) == "\"1\":2,\"b\":1"
  {
    QuotePlain("1");
    QuotePlain("b");
    assert Stringify(JNum(2), "", "") == "2" && Stringify(JNum(1), "", "") == "1";
    var p := JObj([one, b]);
    assert StringifyMembers([b], "", "", ",", p) == "\"b\":1";
    assert [one, b][1..] == [b];
    assert StringifyMembers([one, b], "", "", ",", p) == "\"1\":2" + "," + StringifyMembers([b], "", "", ",", p);
  }

  /** A string without quotes, backslashes or control characters is
      quoted as it stands. */
  lemma {:induction false} QuotePlain(s: string)
    requires forall i :: 0 <= i < |s| ==> s[i] as int >= 32 && s[i] != '"' && s[i] != '\\'
    ensures Quote(s) == "\"" + s + "\""
  {
    EscapePlain(s);
  }

  lemma {:induction false} EscapePlain(s: string)
    requires forall i :: 0 <= i < |s| ==> s[i] as int >= 32 && s[i] != '"' && s[i] != '\\'
    ensures Escape(s) == s
    decreases |s|
  {
    if s != [] {
      EscapePlain(s[1..]);
      assert s == [s[0]] + s[1..];
    }
  }

  /** The printed members do not depend on which object holds them. */
  lemma {:induction false} MembersIgnoreParent(members: seq<(string, Json)>, gap: string, indent: string, sep: string, p: Json, q: Json)
    requires p.JObj? && forall m :: m in members ==> m in p.members
    requires q.JObj? && forall m :: m in members ==> m in q.members
    ensures StringifyMembers(members, gap, indent, sep, p) == StringifyMembers(members, gap, indent, sep, q)
    decreases |members|
  {
    if |members| > 1 {
      MembersIgnoreParent(members[1..], gap, indent, sep, p, q);
    }
  }

  // ---------------------------------------------------------------------
  // Property access and byte length
  // ---------------------------------------------------------------------

  /** The engine's message when a property is read from `null`. */
  function NullPropertyMessage(key: string): string {
    "Cannot read properties of null (reading '" + key + "')"
  }

  /** `j.key` of a parsed value that is not `null`: the last member with
      that key of an object, `undefined` otherwise. */
  function Field(j: Json, key: string): Option<Json>
    decreases if j.JObj? then |j.members| else 0
  {
    if j.JObj? && j.members != [] then
      var last := j.members[|j.members| - 1];
      if last.0 == key then Some(last.1) else Field(JObj(j.members[..|j.members| - 1]), key)
    else None
  }

  lemma FieldAppend(a: seq<(string, Json)>, b: seq<(string, Json)>, key: string)
    requires forall m :: m in b ==> m.0 != key
    ensures Field(JObj(a + b), key) == Field(JObj(a), key)
    decreases |b|
  {
    if b != [] {
      assert (a + b)[..|a + b| - 1] == a + b[..|b| - 1];
      FieldAppend(a, b[..|b| - 1], key);
    } else {
      assert a + b == a;
    }
  }

  lemma FieldLast(a: seq<(string, Json)>, key: string, v: Json)
    ensures Field(JObj(a + [(key, v)]), key) == Some(v)
  {
    assert (a + [(key, v)])[|a|] == (key, v);
  }

  /** The number of bytes of `s` in UTF-8. */
  function Utf8Length(s: string): nat
    decreases |s|
  {
    if s == [] then 0
    else
      var c := s[0] as int;
      (if c < 0x80 then 1 else if c < 0x800 then 2 else if c < 0x10000 then 3 else 4) + Utf8Length(s[1..])
  }

  lemma {:induction false} AsciiUtf8Length(s: string)
    requires forall i :: 0 <= i < |s| ==> s[i] as int < 0x80
    ensures Utf8Length(s) == |s|
    decreases |s|
  {
    if s != [] {
      AsciiUtf8Length(s[1..]);
    }
  }
}
