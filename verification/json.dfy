/**
 * Decoded JSON values as the report scripts see them after `json.load`: Python's None, bool,
 * int, float, str, list and dict, together with the few built-in operations the scripts apply
 * to them (truthiness, `dict.get`, iteration, `str()`, `repr()`, `int()`, `float()` and
 * `json.dumps(..., ensure_ascii=False)`).
 *
 * An object keeps its members in the order of the text. Python builds a dict from them, so a
 * repeated key keeps the position of its first occurrence and the value of its last one;
 * `LastIndex`, `Lookup` and `Keys` below follow that rule.
 *
 * A float carries its value and the text `repr()` gives for it; how the two are related
 * (shortest round-trip printing) is not modelled.
 */
module JsonValue {
  import opened PyText
  import PyNum

  datatype Json =
    | JNone
    | JBool(b: bool)
    | JInt(i: int)
    | JFloat(f: real, repr: string)
    | JStr(s: string)
    | JList(items: seq<Json>)
    | JDict(fields: seq<(string, Json)>)

  /** Python truthiness: None, False, 0, 0.0, "", [] and {} are false. */
  predicate Truthy(v: Json) {
    match v
    case JNone => false
    case JBool(b) => b
    case JInt(i) => i != 0
    case JFloat(f, _) => f != 0.0
    case JStr(s) => s != []
    case JList(items) => items != []
    case JDict(fields) => fields != []
  }

  /** Index of the member that gives key `k` its value (the last one with that key). */
  function LastIndex(fs: seq<(string, Json)>, k: string): (r: Option<nat>)
    ensures r.Some? ==> r.value < |fs| && fs[r.value].0 == k
    ensures r.Some? ==> forall j :: r.value < j < |fs| ==> fs[j].0 != k
    ensures r.None? ==> forall j :: 0 <= j < |fs| ==> fs[j].0 != k
  {
    if fs == [] then None
    else if fs[|fs| - 1].0 == k then Some(|fs| - 1)
    else LastIndex(fs[..|fs| - 1], k)
  }

  /** `d[k]` when present. */
  function Lookup(fs: seq<(string, Json)>, k: string): Option<Json>
  {
    match LastIndex(fs, k)
    case None => None
    case Some(i) => Some(fs[i].1)
  }

  /** `d.get(k, dflt)` */
  function GetOr(fs: seq<(string, Json)>, k: string, dflt: Json): Json
  {
    match Lookup(fs, k)
    case None => dflt
    case Some(v) => v
  }

  /** `d.get(k)` */
  function Get(fs: seq<(string, Json)>, k: string): Json
  {
    GetOr(fs, k, JNone)
  }

  /** The keys of the dict, each once, in the order of their first occurrence. */
  function Keys(fs: seq<(string, Json)>): (ks: seq<string>)
    ensures forall i, j :: 0 <= i < j < |ks| ==> ks[i] != ks[j]
    ensures forall k :: k in ks <==> exists i :: 0 <= i < |fs| && fs[i].0 == k
  {
    if fs == [] then []
    else
      var ks := Keys(fs[..|fs| - 1]);
      assert forall i :: 0 <= i < |fs| - 1 ==> fs[..|fs| - 1][i] == fs[i];
      if fs[|fs| - 1].0 in ks then ks else ks + [fs[|fs| - 1].0]
  }

  /** `d.items()`: each key once, in the order of its first occurrence, with its value. */
  function Items(fs: seq<(string, Json)>): (its: seq<(string, Json)>)
    ensures |its| == |Keys(fs)|
    ensures forall i :: 0 <= i < |its| ==> its[i] == (Keys(fs)[i], Get(fs, Keys(fs)[i])) && Lookup(fs, its[i].0).Some?
  {
    var ks := Keys(fs);
    forall i | 0 <= i < |ks| ensures Lookup(fs, ks[i]).Some? {
      assert ks[i] in ks;
      var j :| 0 <= j < |fs| && fs[j].0 == ks[i];
    }
    seq(|ks|, i requires 0 <= i < |ks| => (ks[i], Get(fs, ks[i])))
  }

  /** What `for x in v` visits: list items, the characters of a string, the keys of a dict;
      `None` when Python raises TypeError because the value is not iterable. */
  function Iter(v: Json): (r: Option<seq<Json>>)
    ensures r.Some? <==> (v.JList? || v.JStr? || v.JDict?)
    ensures v.JList? ==> r == Some(v.items)
    ensures v.JStr? ==> r.Some? && |r.value| == |v.s| && forall i :: 0 <= i < |v.s| ==> r.value[i] == JStr([v.s[i]])
    ensures v.JDict? ==> r.Some? && |r.value| == |Keys(v.fields)|
    ensures v.JDict? ==> forall i :: 0 <= i < |Keys(v.fields)| ==> r.value[i] == JStr(Keys(v.fields)[i])
  {
    match v
    case JList(items) => Some(items)
    case JStr(s) => Some(seq(|s|, i requires 0 <= i < |s| => JStr([s[i]])))
    case JDict(fields) => var ks := Keys(fields); Some(seq(|ks|, i requires 0 <= i < |ks| => JStr(ks[i])))
    case _ => None
  }

  // ---------------------------------------------------------------------
  // str() and repr()
  // ---------------------------------------------------------------------

  function HexDigit(n: nat): char
    requires n < 16
  {
    "0123456789abcdef"[n]
  }

  /** Characters that `repr()` writes as a `\xNN` escape: the C0 and C1 controls, DEL, the
      no-break space and the soft hyphen (the non-printable characters of Latin-1). */
  predicate ReprHex(c: char) {
    c < ' ' || ('\U{7F}' <= c <= '\U{A0}') || c == '\U{AD}'
  }

  function ReprChar(c: char, quote: char): string
  {
    if c == '\\' then "\\\\"
    else if c == quote then ['\\', quote]
    else if c == '\n' then "\\n"
    else if c == '\r' then "\\r"
    else if c == '\t' then "\\t"
    else if ReprHex(c) then ['\\', 'x', HexDigit(c as int / 16), HexDigit(c as int % 16)]
    else [c]
  }

  function ReprChars(s: string, quote: char): string
  {
    if s == [] then "" else ReprChar(s[0], quote) + ReprChars(s[1..], quote)
  }

  /** `repr(s)` for a string: single quotes unless the text has a single quote and no double one;
      read back as a Python literal, the text between the quotes is `s` again. */
  function ReprStr(s: string): (r: string)
    ensures |r| >= 2 && (r[0] == '\'' || r[0] == '"') && r[|r| - 1] == r[0]
    ensures r[0] == (if '\'' in s && '"' !in s then '"' else '\'')
    ensures Unrepr(r[1..|r| - 1], r[0]) == Some(s)
  {
    var quote := if '\'' in s && '"' !in s then '"' else '\'';
    var body := ReprChars(s, quote);
    ReprCharsRoundTrip(s, quote);
    var r := [quote] + body + [quote];
    assert r[1..|r| - 1] == body;
    r
  }

  // ---------------------------------------------------------------------
  // Reading a string literal back
  // ---------------------------------------------------------------------

  predicate IsHexDigit(c: char) { '0' <= c <= '9' || 'a' <= c <= 'f' }

  function HexValue(c: char): (n: nat)
    requires IsHexDigit(c)
    ensures n < 16
  {
    if c <= '9' then c as int - '0' as int else c as int - 'a' as int + 10
  }

  lemma HexDigitValue(n: nat)
    requires n < 16
    ensures IsHexDigit(HexDigit(n)) && HexValue(HexDigit(n)) == n
  {
    var digits := "0123456789abcdef";
    assert forall k :: 0 <= k < 10 ==> digits[k] as int == '0' as int + k;
    assert forall k :: 10 <= k < 16 ==> digits[k] as int == 'a' as int + k - 10;
  }

  /** The character that the escape sequence at the start of `t` stands for, and its length;
      `None` when `t` starts with an escape Python would not read back this way. */
  function UnescapeOne(t: string, quote: char): (r: Option<(char, nat)>)
    requires t != []
    ensures r.Some? ==> 1 <= r.value.1 <= |t|
  {
    if t[0] != '\\' then Some((t[0], 1))
    else if |t| >= 2 && (t[1] == '\\' || t[1] == quote) then Some((t[1], 2))
    else if |t| >= 2 && t[1] == 'n' then Some(('\n', 2))
    else if |t| >= 2 && t[1] == 'r' then Some(('\r', 2))
    else if |t| >= 2 && t[1] == 't' then Some(('\t', 2))
    else if |t| >= 4 && t[1] == 'x' && IsHexDigit(t[2]) && IsHexDigit(t[3]) then
      Some(((HexValue(t[2]) * 16 + HexValue(t[3])) as char, 4))
    else None
  }

  /** The text a Python string literal's body stands for, between quotes `quote`. */
  function Unrepr(t: string, quote: char): Option<string>
    decreases |t|
  {
    if t == [] then Some([])
    else
      match UnescapeOne(t, quote)
      case None => None
      case Some((c, n)) => (
        match Unrepr(t[n..], quote)
        case None => None
        case Some(rest) => Some([c] + rest))
  }

  /** One written character reads back as itself, whatever follows it. */
  lemma UnreprChar(c: char, quote: char, rest: string)
    requires quote == '\'' || quote == '"'
    ensures UnescapeOne(ReprChar(c, quote) + rest, quote) == Some((c, |ReprChar(c, quote)|))
  {
    var t := ReprChar(c, quote) + rest;
    if ReprHex(c) && c != '\n' && c != '\r' && c != '\t' && c != quote {
      var hi, lo := c as int / 16, c as int % 16;
      HexDigitValue(hi);
      HexDigitValue(lo);
      assert t[2] == HexDigit(hi) && t[3] == HexDigit(lo);
      assert hi * 16 + lo == c as int;
    }
  }

  /** `repr`'s escapes read back as the text they were written from. */
  lemma {:induction false} ReprCharsRoundTrip(s: string, quote: char)
    requires quote == '\'' || quote == '"'
    ensures Unrepr(ReprChars(s, quote), quote) == Some(s)
  {
    if s != [] {
      var head := ReprChar(s[0], quote);
      var rest := ReprChars(s[1..], quote);
      ReprCharsRoundTrip(s[1..], quote);
      UnreprChar(s[0], quote, rest);
      var t := head + rest;
      assert t[|head|..] == rest;
      assert [s[0]] + s[1..] == s;
    }
  }

  /** `repr(v)`; containers show the `repr` of their elements. */
  function Repr(v: Json): string
    decreases v, 1
  {
    match v
    case JNone => "None"
    case JBool(b) => if b then "True" else "False"
    case JInt(i) => IntToText(i)
    case JFloat(_, r) => r
    case JStr(s) => ReprStr(s)
    case JList(items) =>
      "[" + Join(seq(|items|, i requires 0 <= i < |items| => Repr(items[i])), ", ") + "]"
    case JDict(fields) =>
      var ks := Keys(fields);
      "{" + Join(seq(|ks|, j requires 0 <= j < |ks| => ReprStr(ks[j]) + ": " + ReprMember(v, ks[j])), ", ") + "}"
  }

  /** `repr` of the value a dict holds for one of its keys. */
  function ReprMember(v: Json, k: string): string
    requires v.JDict? && k in Keys(v.fields)
    decreases v, 0
  {
    var i := LastIndex(v.fields, k).value;
    Repr(v.fields[i].1)
  }

  /** `str(v)`: the text itself for a string, `repr(v)` otherwise. */
  function PyStr(v: Json): string
  {
    if v.JStr? then v.s else Repr(v)
  }

  // ---------------------------------------------------------------------
  // json.dumps(v, ensure_ascii=False)
  // ---------------------------------------------------------------------

  function DumpChar(c: char): string
  {
    if c == '"' then "\\\""
    else if c == '\\' then "\\\\"
    else if c == '\n' then "\\n"
    else if c == '\r' then "\\r"
    else if c == '\t' then "\\t"
    else if c == '\U{08}' then "\\b"
    else if c == '\U{0C}' then "\\f"
    else if c < ' ' then ['\\', 'u', '0', '0', HexDigit(c as int / 16), HexDigit(c as int % 16)]
    else [c]
  }

  function DumpChars(s: string): string
  {
    if s == [] then "" else DumpChar(s[0]) + DumpChars(s[1..])
  }

  function DumpStr(s: string): string
  {
    "\"" + DumpChars(s) + "\""
  }

  /** `json.dumps(v, ensure_ascii=False)` with the default separators. */
  function Dumps(v: Json): string
    decreases v, 1
  {
    match v
    case JNone => "null"
    case JBool(b) => if b then "true" else "false"
    case JInt(i) => IntToText(i)
    case JFloat(_, r) => r
    case JStr(s) => DumpStr(s)
    case JList(items) =>
      "[" + Join(seq(|items|, i requires 0 <= i < |items| => Dumps(items[i])), ", ") + "]"
    case JDict(fields) =>
      var ks := Keys(fields);
      "{" + Join(seq(|ks|, j requires 0 <= j < |ks| => DumpStr(ks[j]) + ": " + DumpMember(v, ks[j])), ", ") + "}"
  }

  function DumpMember(v: Json, k: string): string
    requires v.JDict? && k in Keys(v.fields)
    decreases v, 0
  {
    var i := LastIndex(v.fields, k).value;
    Dumps(v.fields[i].1)
  }

  // ---------------------------------------------------------------------
  // int() and float()
  // ---------------------------------------------------------------------

  /** `int(v)`; `None` stands for the ValueError or TypeError Python raises. */
  function IntOf(v: Json): Option<int>
  {
    match v
    case JNone => None
    case JBool(b) => Some(if b then 1 else 0)
    case JInt(i) => Some(i)
    case JFloat(f, _) => Some(PyNum.Trunc(f))
    case JStr(s) => ParseInt(s)
    case _ => None
  }

  /** `float(v)`; `None` stands for the ValueError or TypeError Python raises. */
  function FloatOf(v: Json): Option<real>
  {
    match v
    case JNone => None
    case JBool(b) => Some(if b then 1.0 else 0.0)
    case JInt(i) => Some(i as real)
    case JFloat(f, _) => Some(f)
    case JStr(s) => PyNum.ParseDecimal(s)
    case _ => None
  }
}
