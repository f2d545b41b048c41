/**
 * `genera_reporte_replace_ip.py`: an HTML page over the per-host summaries of the playbook that
 * replaces an IP address by a host name in configuration files. The page shows the global
 * OK / FAIL / SKIPPED totals, then one card per host with its totals and, per file, the matching
 * lines before and after the replacement.
 *
 * The page is modelled as the sequence of fragments the script appends to its `html` list, each
 * fragment carrying the (escaped) values it shows; the fixed markup and the style sheet around
 * those values are not modelled.
 */
module ReplaceIp {
  import opened PyText
  import opened JsonValue
  import opened Report
  import PyNum

  // ---------------------------------------------------------------------
  // to_int
  // ---------------------------------------------------------------------

  /** `to_int(v, default)`: bool as 0/1, int unchanged, float truncated, text read as an integer
      or else as a decimal that is truncated; None, blank text and anything else give the default.
      (`int()` and `float()` strip the text themselves, so the stripped text and the original
      read the same.) */
  function ToInt(v: Json, dflt: int): (r: int)
    ensures v.JNone? || v.JList? || v.JDict? ==> r == dflt
    ensures v.JBool? ==> r == (if v.b then 1 else 0)
    ensures v.JInt? ==> r == v.i
    ensures v.JFloat? ==> (0.0 <= v.f ==> 0 <= r && r as real <= v.f < r as real + 1.0)
    ensures v.JFloat? ==> (v.f <= 0.0 ==> r <= 0 && r as real - 1.0 < v.f <= r as real)
    ensures v.JStr? && Strip(v.s) == [] ==> r == dflt
    ensures v.JStr? && Strip(v.s) != [] && ParseInt(v.s).Some? ==> r == ParseInt(v.s).value
    ensures v.JStr? && Strip(v.s) != [] && ParseInt(v.s).None? && PyNum.ParseDecimal(v.s).Some? ==>
      r == PyNum.Trunc(PyNum.ParseDecimal(v.s).value)
    ensures v.JStr? && ParseInt(v.s).None? && PyNum.ParseDecimal(v.s).None? ==> r == dflt
  {
    match v
    case JNone => dflt
    case JBool(b) => if b then 1 else 0
    case JInt(i) => i
    case JFloat(f, _) => PyNum.TruncBounds(f); PyNum.Trunc(f)
    case JStr(s) =>
      if Strip(s) == [] then dflt
      else (
        match ParseInt(s)
        case Some(n) => n
        case None => (
          match PyNum.ParseDecimal(s)
          case Some(f) => PyNum.Trunc(f)
          case None => dflt))
    case _ => dflt
  }

  /** The text of an integer reads back as that integer, whatever the default. */
  lemma ToIntTextRoundTrip(i: int, dflt: int)
    ensures ToInt(JStr(IntToText(i)), dflt) == i
  {
    IntTextRoundTrip(i);
  }

  /** A decimal number of `d+` digits in its fraction value is truncated to its whole part. */
  lemma {:induction false} DigitsBelow(ds: string)
    requires AllDigits(ds)
    ensures DigitsValue(ds) < PyNum.Pow10(|ds|)
  {
    if ds != [] {
      DigitsBelow(ds[..|ds| - 1]);
    }
  }

  /** Digits, a point and digits: nothing for `strip` to remove. */
  lemma DecimalTextStripped(whole: string, frac: string)
    requires IsDigitText(whole) && IsDigitText(frac)
    ensures Strip(whole + "." + frac) == whole + "." + frac
  {
    var s := whole + "." + frac;
    assert s[0] == whole[0] && s[|s| - 1] == frac[|frac| - 1];
    NotSpace(whole[0]);
    NotSpace(frac[|frac| - 1]);
    StripUnchanged(s);
  }

  /** Digits, a point and digits are not an integer. */
  lemma DecimalTextNotInt(whole: string, frac: string)
    requires IsDigitText(whole) && IsDigitText(frac)
    ensures ParseInt(whole + "." + frac).None?
  {
    var s := whole + "." + frac;
    DecimalTextStripped(whole, frac);
    assert s[|whole|] == '.';
    assert !IsDigitText(s) by { assert !IsDigit(s[|whole|]); }
    assert !IsDigitText(s[1..]) by {
      if |whole| == 1 { assert s[1..][0] == '.'; } else { assert !IsDigit(s[1..][|whole| - 1]); }
    }
  }

  /** Digits, a point and digits are the decimal they spell. */
  lemma DecimalTextParses(whole: string, frac: string)
    requires IsDigitText(whole) && IsDigitText(frac)
    ensures PyNum.ParseDecimal(whole + "." + frac) == Some(PyNum.DecimalValue(whole, frac))
  {
    var s := whole + "." + frac;
    DecimalTextStripped(whole, frac);
    DecimalTextShape(whole, frac);
    FindChar(s, '.', |whole|);
    PyNum.ParseDecimalPlain(s, |whole|);
  }

  /** Where the parts of digits, a point and digits sit in the text. */
  lemma DecimalTextShape(whole: string, frac: string)
    requires IsDigitText(whole) && IsDigitText(frac)
    ensures var s := whole + "." + frac;
      s[..|whole|] == whole && s[|whole| + 1..] == frac && s[|whole|] == '.' &&
      s[0] != '+' && s[0] != '-' && '.' !in s[..|whole|]
  {
    var s := whole + "." + frac;
    assert s[..|whole|] == whole && s[|whole| + 1..] == frac;
    assert s[0] != '+' && s[0] != '-' by { assert s[0] == whole[0] && IsDigit(whole[0]); }
    assert '.' !in whole by {
      forall k | 0 <= k < |whole| ensures whole[k] != '.' {
        assert IsDigit(whole[k]);
      }
    }
  }

  /** "12.75" reads as 12: decimal text is truncated. */
  lemma ToIntDecimalText(whole: string, frac: string, dflt: int)
    requires IsDigitText(whole) && IsDigitText(frac)
    ensures ToInt(JStr(whole + "." + frac), dflt) == DigitsValue(whole)
  {
    DecimalTextToInt(whole, frac, dflt);
    DecimalTrunc(whole, frac);
  }

  lemma DecimalTextToInt(whole: string, frac: string, dflt: int)
    requires IsDigitText(whole) && IsDigitText(frac)
    ensures ToInt(JStr(whole + "." + frac), dflt) == PyNum.Trunc(PyNum.DecimalValue(whole, frac))
  {
    DecimalTextFacts(whole, frac);
    ToIntOfDecimal(whole + "." + frac, PyNum.DecimalValue(whole, frac), dflt);
  }

  lemma DecimalTextFacts(whole: string, frac: string)
    requires IsDigitText(whole) && IsDigitText(frac)
    ensures Strip(whole + "." + frac) != [] && ParseInt(whole + "." + frac).None?
    ensures PyNum.ParseDecimal(whole + "." + frac) == Some(PyNum.DecimalValue(whole, frac))
  {
    DecimalTextStripped(whole, frac);
    DecimalTextNotInt(whole, frac);
    DecimalTextParses(whole, frac);
  }

  lemma DecimalTrunc(whole: string, frac: string)
    requires AllDigits(whole) && AllDigits(frac)
    ensures PyNum.Trunc(PyNum.DecimalValue(whole, frac)) == DigitsValue(whole)
  {
    DigitsBelow(frac);
    FractionBelowOne(DigitsValue(frac), PyNum.Pow10(|frac|));
    TruncWhole(DigitsValue(whole), DigitsValue(frac) as real / PyNum.Pow10(|frac|) as real);
  }

  lemma FractionBelowOne(n: nat, p: nat)
    requires n < p
    ensures 0.0 <= n as real / p as real < 1.0
  {
    var q := n as real / p as real;
    assert q * p as real == n as real;
  }

  lemma TruncWhole(w: nat, part: real)
    requires 0.0 <= part < 1.0
    ensures PyNum.Trunc(w as real + part) == w
  {
  }

  lemma ToIntOfDecimal(s: string, v: real, dflt: int)
    requires Strip(s) != [] && ParseInt(s).None? && PyNum.ParseDecimal(s) == Some(v)
    ensures ToInt(JStr(s), dflt) == PyNum.Trunc(v)
  {
  }

  // ---------------------------------------------------------------------
  // Escaping and badges
  // ---------------------------------------------------------------------

  /** `html.escape` with `quote=True`: `&`, `<`, `>`, `"` and `'` become character references. */
  function EscapeChar(c: char): string
  {
    if c == '&' then "&amp;"
    else if c == '<' then "&lt;"
    else if c == '>' then "&gt;"
    else if c == '"' then "&quot;"
    else if c == '\'' then "&#x27;"
    else [c]
  }

  /** A character that cannot open or close markup or a quoted attribute. */
  predicate Inert(c: char) {
    c != '<' && c != '>' && c != '"' && c != '\''
  }

  function Escape(s: string): (r: string)
    ensures forall i :: 0 <= i < |r| ==> Inert(r[i])
    ensures (forall i :: 0 <= i < |s| ==> Inert(s[i]) && s[i] != '&') ==> r == s
  {
    if s == [] then []
    else
      var rest := Escape(s[1..]);
      var head := EscapeChar(s[0]);
      assert forall i :: 0 <= i < |head + rest| ==> (head + rest)[i] == if i < |head| then head[i] else rest[i - |head|];
      head + rest
  }

  /** The inverse of `Escape` (what `html.unescape` does with these five references). */
  function Unescape(s: string): string
    decreases |s|
  {
    if s == [] then []
    else if s[0] != '&' then [s[0]] + Unescape(s[1..])
    else if StartsWith(s, "&amp;") then "&" + Unescape(s[5..])
    else if StartsWith(s, "&lt;") then "<" + Unescape(s[4..])
    else if StartsWith(s, "&gt;") then ">" + Unescape(s[4..])
    else if StartsWith(s, "&quot;") then "\"" + Unescape(s[6..])
    else if StartsWith(s, "&#x27;") then "'" + Unescape(s[6..])
    else [s[0]] + Unescape(s[1..])
  }

  /** A reference followed by any text reads back as its character. */
  lemma UnescapeReference(e: string, c: char, t: string)
    requires e == EscapeChar(c) && e != [c]
    ensures Unescape(e + t) == [c] + Unescape(t)
  {
    var s := e + t;
    assert s[..|e|] == e && s[|e|..] == t;
    assert s[0] == '&';
    if c == '<' {
      assert s[1] == 'l';
      assert !StartsWith(s, "&amp;") by { assert s[1] != "&amp;"[1]; }
    } else if c == '>' {
      assert s[1] == 'g';
      assert !StartsWith(s, "&amp;") by { assert s[1] != "&amp;"[1]; }
      assert !StartsWith(s, "&lt;") by { assert s[1] != "&lt;"[1]; }
    } else if c == '"' {
      assert s[1] == 'q';
      assert !StartsWith(s, "&amp;") by { assert s[1] != "&amp;"[1]; }
      assert !StartsWith(s, "&lt;") by { assert s[1] != "&lt;"[1]; }
      assert !StartsWith(s, "&gt;") by { assert s[1] != "&gt;"[1]; }
    } else if c == '\'' {
      assert s[1] == '#';
      assert !StartsWith(s, "&amp;") by { assert s[1] != "&amp;"[1]; }
      assert !StartsWith(s, "&lt;") by { assert s[1] != "&lt;"[1]; }
      assert !StartsWith(s, "&gt;") by { assert s[1] != "&gt;"[1]; }
      assert !StartsWith(s, "&quot;") by { assert s[1] != "&quot;"[1]; }
    }
  }

  lemma UnescapeFirst(c: char, t: string)
    ensures Unescape(EscapeChar(c) + t) == [c] + Unescape(t)
  {
    var e := EscapeChar(c);
    if e == [c] {
      var s := e + t;
      assert s[0] == c && s[1..] == t;
    } else {
      UnescapeReference(e, c, t);
    }
  }

  /** Escaping loses nothing: the text can be read back. */
  lemma {:induction false} EscapeRoundTrip(s: string)
    ensures Unescape(Escape(s)) == s
  {
    if s != [] {
      EscapeRoundTrip(s[1..]);
      UnescapeFirst(s[0], Escape(s[1..]));
      assert [s[0]] + s[1..] == s;
    }
  }

  /** The CSS class of a status badge. */
  function BadgeClass(status: string): (cls: string)
    ensures cls == "ok" <==> status == "OK"
    ensures cls == "fail" <==> status == "FAIL"
    ensures cls == "skip" <==> status != "OK" && status != "FAIL"
  {
    if status == "OK" then "ok" else if status == "FAIL" then "fail" else "skip"
  }

  /** `status_badge(status)` */
  function StatusBadge(status: string): string
  {
    "<span class='badge " + BadgeClass(status) + "'>" + Escape(status) + "</span>"
  }

  /** The text a value holds; `escape` on anything else raises AttributeError. */
  function Text(v: Json): (r: Outcome<string>)
    ensures r.Done? <==> v.JStr?
    ensures r.Done? ==> r.value == v.s
  {
    if v.JStr? then Done(v.s) else Crash("AttributeError")
  }

  /** The badge of a file's status: a list or a dict cannot be looked up in the class table
      (TypeError); any other value that is not text cannot be escaped. */
  function Badge(status: Json): (r: Outcome<string>)
    ensures r.Done? <==> status.JStr?
  {
    if status.JList? || status.JDict? then Crash("TypeError")
    else
      var s :- Text(status);
      Done(StatusBadge(s))
  }

  // ---------------------------------------------------------------------
  // Matching lines
  // ---------------------------------------------------------------------

  /** `parse_line(s)`: the integer before the first ":" and the text after it, or no number and
      the whole line; trailing newlines are removed in every case. */
  function ParseLine(s: string): (r: (Option<int>, string))
    ensures r.1 == [] || r.1[|r.1| - 1] != '\n'
    ensures r.0.Some? ==> ':' in s
    ensures r.0.None? ==> r.1 == RStripChar(s, '\n')
  {
    match Find(s, ":")
    case None => (None, RStripChar(s, '\n'))
    case Some(i) =>
      match ParseInt(s[..i])
      case Some(n) => (Some(n), RStripChar(s[i + 1..], '\n'))
      case None => (None, RStripChar(s, '\n'))
  }

  lemma IntTextHasNoColon(n: int)
    ensures ':' !in IntToText(n)
  {
    var t := IntToText(n);
    forall k | 0 <= k < |t| ensures t[k] != ':' {
      if n < 0 {
        var d := NatToText(-n);
        assert t == "-" + d;
        if k > 0 { assert t[k] == d[k - 1] && IsDigit(d[k - 1]); }
      } else {
        assert IsDigit(t[k]);
      }
    }
  }

  /** A numbered line splits back into its number and its text, which may hold more colons. */
  lemma ParseLineNumbered(n: int, text: string)
    ensures ParseLine(IntToText(n) + ":" + text) == (Some(n), RStripChar(text, '\n'))
  {
    var d := IntToText(n);
    var s := d + ":" + text;
    assert s[..|d|] == d && s[|d|] == ':' && s[|d| + 1..] == text;
    IntTextHasNoColon(n);
    FindChar(s, ':', |d|);
    IntTextRoundTrip(n);
  }

  /** The line-number cell: "-" when the line has no number. */
  function LineCell(n: Option<int>): string
  {
    match n
    case None => "-"
    case Some(i) => IntToText(i)
  }

  /** One table row of `render_lines`. */
  function LineRow(line: string): string
  {
    var p := ParseLine(line);
    "<tr><td class='ln'>" + Escape(LineCell(p.0)) + "</td><td class='code'>" + Escape(p.1) + "</td></tr>"
  }

  /** The row of one item of the list: `":" in ln` needs text (TypeError), and a list or a dict
      has no `split`/`rstrip` (AttributeError). */
  function LineRowOf(ln: Json): (r: Outcome<string>)
    ensures r.Done? <==> ln.JStr?
  {
    if ln.JStr? then Done(LineRow(ln.s))
    else Crash(if ln.JList? || ln.JDict? then "AttributeError" else "TypeError")
  }

  const NoMatches: string := "<div class='muted'>&lt;sin coincidencias&gt;</div>"

  function Table(rows: seq<string>): string
  {
    "<table class='tbl'>" + Join(rows, "") + "</table>"
  }

  /** `render_lines(lines)`: the placeholder for a false value, else one row per item. */
  function RenderedLines(lines: Json): (r: Outcome<string>)
    ensures !Truthy(lines) ==> r == Done(NoMatches)
    ensures Truthy(lines) && Iter(lines).None? ==> r == Crash("TypeError")
  {
    if !Truthy(lines) then Done(NoMatches)
    else
      match Iter(lines)
      case None => Crash("TypeError")
      case Some(items) =>
        var rows :- MapAll(items, LineRowOf);
        Done(Table(rows))
  }

  /** A non-empty list of lines gives one row per line, in order. */
  lemma RenderedTextLines(lines: seq<string>)
    requires lines != []
    ensures RenderedLines(JList(seq(|lines|, k requires 0 <= k < |lines| => JStr(lines[k])))) ==
      Done(Table(seq(|lines|, k requires 0 <= k < |lines| => LineRow(lines[k]))))
  {
    var items := seq(|lines|, k requires 0 <= k < |lines| => JStr(lines[k]));
    var rows := seq(|lines|, k requires 0 <= k < |lines| => LineRow(lines[k]));
    forall k | 0 <= k < |items| ensures LineRowOf(items[k]) == Done(rows[k]) {
      assert items[k] == JStr(lines[k]);
    }
    MapAllDone(items, LineRowOf, rows);
    RenderedList(items, rows);
  }

  /** A non-empty list whose every item gives a row renders as the table of those rows. */
  lemma RenderedList(items: seq<Json>, rows: seq<string>)
    requires items != [] && MapAll(items, LineRowOf) == Done(rows)
    ensures RenderedLines(JList(items)) == Done(Table(rows))
  {
    assert Truthy(JList(items));
    assert Iter(JList(items)) == Some(items);
  }

  /** `render_lines(lines)`, with its loop over the items. */
  method RenderLines(lines: Json) returns (out: Outcome<string>)
    ensures out == RenderedLines(lines)
  {
    if !Truthy(lines) {
      return Done(NoMatches);
    }
    var it := Iter(lines);
    if it.None? {
      return Crash("TypeError");
    }
    var rows := MapAllLoop(it.value, LineRowOf);
    if !rows.Done? {
      return rows.PropagateFailure();
    }
    return Done(Table(rows.value));
  }

  // ---------------------------------------------------------------------
  // Totals
  // ---------------------------------------------------------------------

  /** The members of a host's `totals` as the host card reads them (`h.get("totals", {}) or {}`):
      a false value is an empty dict; a host that is not a dict, or totals that are true but not
      a dict, have no `get` (AttributeError). */
  function Totals(h: Json): (r: Outcome<seq<(string, Json)>>)
    ensures r.Done? <==> h.JDict? && (!Truthy(GetOr(h.fields, "totals", JDict([]))) || GetOr(h.fields, "totals", JDict([])).JDict?)
  {
    if !h.JDict? then Crash("AttributeError")
    else
      var t := GetOr(h.fields, "totals", JDict([]));
      if !Truthy(t) then Done([])
      else if t.JDict? then Done(t.fields)
      else Crash("AttributeError")
  }

  /** The same read without `or {}`, as the global sums at lines 84-86 write it. */
  function TotalsAsWritten(h: Json): (r: Outcome<seq<(string, Json)>>)
    ensures r.Done? <==> h.JDict? && GetOr(h.fields, "totals", JDict([])).JDict?
  {
    if !h.JDict? then Crash("AttributeError")
    else
      var t := GetOr(h.fields, "totals", JDict([]));
      if t.JDict? then Done(t.fields) else Crash("AttributeError")
  }

  /** `to_int(totals.get(key, 0))`: a missing count is 0. */
  function Count(totals: seq<(string, Json)>, key: string): (n: int)
    ensures Lookup(totals, key).None? ==> n == 0
  {
    ToInt(GetOr(totals, key, JInt(0)), 0)
  }

  /** `to_int(h.get("totals", {}).get(key, 0))` as a host card reads it. */
  function HostCount(h: Json, key: string): (r: Outcome<int>)
    ensures r.Done? <==> Totals(h).Done?
    ensures r.Done? ==> r.value == Count(Totals(h).value, key)
  {
    var t :- Totals(h);
    Done(Count(t, key))
  }

  function HostCountAsWritten(h: Json, key: string): (r: Outcome<int>)
    ensures r.Done? <==> TotalsAsWritten(h).Done?
  {
    var t :- TotalsAsWritten(h);
    Done(Count(t, key))
  }

  /** The global count of `key`: the sum of what every host card shows. */
  function SumTotal(data: seq<Json>, key: string): (r: Outcome<int>)
  {
    Sum(data, h => HostCount(h, key))
  }

  /** The global count as lines 84-86 compute it. */
  function SumTotalAsWritten(data: seq<Json>, key: string): (r: Outcome<int>)
    ensures r.Done? <==> forall k :: 0 <= k < |data| ==> TotalsAsWritten(data[k]).Done?
  {
    Sum(data, h => HostCountAsWritten(h, key))
  }

  /** The global count is the sum of the per-host counts: adding a host adds its card's count. */
  lemma SumTotalAddsHost(data: seq<Json>, h: Json, key: string)
    requires SumTotal(data, key).Done? && Totals(h).Done?
    ensures SumTotal(data + [h], key) == Done(SumTotal(data, key).value + Count(Totals(h).value, key))
  {
    var f := h => HostCount(h, key);
    assert [h][..0] == [];
    assert Sum([h], f) == Done(Count(Totals(h).value, key));
    SumAppend(data, [h], f);
  }

  /** The page is the same where every host's totals are a dict or absent. */
  lemma AsWrittenAgrees(data: seq<Json>, key: string)
    requires forall k :: 0 <= k < |data| ==> TotalsAsWritten(data[k]).Done?
    ensures SumTotalAsWritten(data, key) == SumTotal(data, key)
  {
    SumAgree(data, h => HostCountAsWritten(h, key), h => HostCount(h, key));
  }

  /** A host whose totals are null: the card reads zero counts, the global sum raises. */
  lemma NullTotalsCrash()
    ensures SumTotalAsWritten([JDict([("totals", JNone)])], "ok") == Crash("AttributeError")
    ensures SumTotal([JDict([("totals", JNone)])], "ok") == Done(0)
  {
    var h := JDict([("totals", JNone)]);
    assert GetOr(h.fields, "totals", JDict([])) == JNone;
    assert [h][..0] == [];
    assert Count([], "ok") == 0;
  }

  // ---------------------------------------------------------------------
  // The page
  // ---------------------------------------------------------------------

  /** The fragments the script appends to `html`, with the values they show. */
  datatype Part =
    | Head(generated: string)
    | Summary(ok: int, fail: int, skipped: int)
    | CardOpen
    | HostTitle(host: string)
    | HostMeta(root: string, oldIp: string, newHost: string, date: string,
               scanned: int, before: int, ok: int, fail: int, skipped: int)
    | FileTitle(path: string, badge: string)
    | GridOpen
    | BeforeBox(lines: string)
    | AfterBox(ipLines: string, newHost: string, hostLines: string)
    | GridClose
    | CardClose
    | PageEnd

  /** `value or default` */
  function OrElse(v: Json, dflt: Json): (r: Json)
    ensures Truthy(v) ==> r == v
    ensures !Truthy(v) ==> r == dflt
  {
    if Truthy(v) then v else dflt
  }

  /** One box of a file block: `render_lines(item.get(key, []) or [])`. */
  function Box(f: seq<(string, Json)>, key: string): Outcome<string>
  {
    RenderedLines(OrElse(GetOr(f, key, JList([])), JList([])))
  }

  /** The file's path and status can be shown: both are text. */
  predicate FileHeadReadable(f: seq<(string, Json)>) {
    GetOr(f, "file", JStr("")).JStr? && GetOr(f, "status", JStr("SKIPPED")).JStr?
  }

  /** The block of one file: its title with the badge, then the grid with the lines before and
      after the replacement. The reads fail in the script's order: the path, the status, then
      the three boxes. */
  function FileParts(item: Json, newHost: string): (r: Outcome<seq<Part>>)
    ensures !item.JDict? ==> r == Crash("AttributeError")
    ensures item.JDict? && !GetOr(item.fields, "file", JStr("")).JStr? ==> r == Crash("AttributeError")
    ensures item.JDict? && GetOr(item.fields, "file", JStr("")).JStr? && !GetOr(item.fields, "status", JStr("SKIPPED")).JStr? ==>
      r == Badge(GetOr(item.fields, "status", JStr("SKIPPED"))).PropagateFailure()
    ensures item.JDict? && FileHeadReadable(item.fields) && !Box(item.fields, "before_lines").Done? ==>
      r == Box(item.fields, "before_lines").PropagateFailure()
    ensures (item.JDict? && FileHeadReadable(item.fields) && Box(item.fields, "before_lines").Done? &&
             !Box(item.fields, "after_ip_lines").Done?) ==>
      r == Box(item.fields, "after_ip_lines").PropagateFailure()
    ensures (item.JDict? && FileHeadReadable(item.fields) && Box(item.fields, "before_lines").Done? &&
             Box(item.fields, "after_ip_lines").Done? && !Box(item.fields, "after_host_lines").Done?) ==>
      r == Box(item.fields, "after_host_lines").PropagateFailure()
    ensures r.Done? <==> (item.JDict? && FileHeadReadable(item.fields) && Box(item.fields, "before_lines").Done? &&
                          Box(item.fields, "after_ip_lines").Done? && Box(item.fields, "after_host_lines").Done?)
    ensures r.Done? ==> var f := item.fields;
      r.value == [FileTitle(Escape(GetOr(f, "file", JStr("")).s), StatusBadge(GetOr(f, "status", JStr("SKIPPED")).s)),
                  GridOpen, BeforeBox(Box(f, "before_lines").value),
                  AfterBox(Box(f, "after_ip_lines").value, newHost, Box(f, "after_host_lines").value), GridClose]
  {
    if !item.JDict? then Crash("AttributeError")
    else
      var f := item.fields;
      var path :- Text(GetOr(f, "file", JStr("")));
      var badge :- Badge(GetOr(f, "status", JStr("SKIPPED")));
      var before :- Box(f, "before_lines");
      var afterIp :- Box(f, "after_ip_lines");
      var afterHost :- Box(f, "after_host_lines");
      Done([FileTitle(Escape(path), badge), GridOpen, BeforeBox(before), AfterBox(afterIp, newHost, afterHost), GridClose])
  }

  /** The block of each file of a host whose new name shows as `newHost`. */
  function FilePartsFor(newHost: string): Json -> Outcome<seq<Part>>
  {
    item => FileParts(item, newHost)
  }

  /** The host's name, path, old IP, new name and date can be shown: all are text. */
  predicate HostTextsReadable(fs: seq<(string, Json)>) {
    GetOr(fs, "host", JStr("unknown")).JStr? && GetOr(fs, "scan_root", JStr("")).JStr? &&
    GetOr(fs, "old_ip", JStr("")).JStr? && GetOr(fs, "new_host", JStr("")).JStr? &&
    GetOr(fs, "generated_at", JStr("")).JStr?
  }

  /** The blocks of the host's files, once its totals and texts have been read. */
  function HostBody(h: Json): Outcome<seq<Part>>
    requires h.JDict? && HostTextsReadable(h.fields) && FileList(h.fields).Done?
  {
    Gather(FileList(h.fields).value, FilePartsFor(Escape(GetOr(h.fields, "new_host", JStr("")).s)))
  }

  /** The card of one host: its name, its path, the change, the date and its five counts, then
      the block of every file it lists. The reads fail in the script's order: the totals, the
      texts, the file list, then the first file whose block fails. */
  function HostParts(h: Json): (r: Outcome<seq<Part>>)
    ensures !Totals(h).Done? ==> r == Totals(h).PropagateFailure()
    ensures Totals(h).Done? && !HostTextsReadable(h.fields) ==> r == Crash("AttributeError")
    ensures Totals(h).Done? && HostTextsReadable(h.fields) && !FileList(h.fields).Done? ==>
      r == FileList(h.fields).PropagateFailure()
    ensures Totals(h).Done? && HostTextsReadable(h.fields) && FileList(h.fields).Done? && !HostBody(h).Done? ==>
      r == HostBody(h).PropagateFailure()
    ensures r.Done? <==> Totals(h).Done? && HostTextsReadable(h.fields) && FileList(h.fields).Done? && HostBody(h).Done?
    ensures r.Done? ==> r.value == HostHead(h.fields, Totals(h).value) + HostBody(h).value + [CardClose]
  {
    var totals :- Totals(h);
    if !HostTextsReadable(h.fields) then Crash("AttributeError")
    else
      var files :- FileList(h.fields);
      var body :- HostBody(h);
      Done(HostHead(h.fields, totals) + body + [CardClose])
  }

  /** The opening of a card: the escaped host name, then its path, the change, the date and the
      five counts. */
  function HostHead(fs: seq<(string, Json)>, t: seq<(string, Json)>): (r: seq<Part>)
    requires HostTextsReadable(fs)
    ensures |r| == 3 && r[0] == CardOpen && r[1] == HostTitle(Escape(GetOr(fs, "host", JStr("unknown")).s))
    ensures r[2].HostMeta? && r[2].root == Escape(GetOr(fs, "scan_root", JStr("")).s)
    ensures r[2].oldIp == Escape(GetOr(fs, "old_ip", JStr("")).s) && r[2].newHost == Escape(GetOr(fs, "new_host", JStr("")).s)
    ensures r[2].date == Escape(GetOr(fs, "generated_at", JStr("")).s)
    ensures r[2].ok == Count(t, "ok") && r[2].fail == Count(t, "fail") && r[2].skipped == Count(t, "skipped")
    ensures r[2].scanned == Count(t, "files_scanned") && r[2].before == Count(t, "files_with_ip_before")
  {
    [CardOpen, HostTitle(Escape(GetOr(fs, "host", JStr("unknown")).s)),
     HostMeta(Escape(GetOr(fs, "scan_root", JStr("")).s), Escape(GetOr(fs, "old_ip", JStr("")).s),
              Escape(GetOr(fs, "new_host", JStr("")).s), Escape(GetOr(fs, "generated_at", JStr("")).s),
              Count(t, "files_scanned"), Count(t, "files_with_ip_before"),
              Count(t, "ok"), Count(t, "fail"), Count(t, "skipped"))]
  }

  /** `h.get("files", []) or []`, iterated: a true value that cannot be iterated raises TypeError. */
  function FileList(fs: seq<(string, Json)>): (r: Outcome<seq<Json>>)
    ensures !Truthy(GetOr(fs, "files", JList([]))) ==> r == Done([])
  {
    match Iter(OrElse(GetOr(fs, "files", JList([])), JList([])))
    case None => Crash("TypeError")
    case Some(items) => Done(items)
  }

  /** The card of one host, with the loop over its files. */
  method WriteHost(h: Json) returns (out: Outcome<seq<Part>>)
    ensures out == HostParts(h)
  {
    var totals := Totals(h);
    if !totals.Done? {
      return totals.PropagateFailure();
    }
    var fs := h.fields;
    var host := Text(GetOr(fs, "host", JStr("unknown")));
    var root := Text(GetOr(fs, "scan_root", JStr("")));
    var oldIp := Text(GetOr(fs, "old_ip", JStr("")));
    var newHost := Text(GetOr(fs, "new_host", JStr("")));
    var date := Text(GetOr(fs, "generated_at", JStr("")));
    if !(host.Done? && root.Done? && oldIp.Done? && newHost.Done? && date.Done?) {
      return Crash("AttributeError");
    }
    var files := FileList(fs);
    if !files.Done? {
      return files.PropagateFailure();
    }
    var t := totals.value;
    var body := GatherLoop(files.value, FilePartsFor(Escape(newHost.value)));
    if !body.Done? {
      return body.PropagateFailure();
    }
    return Done([CardOpen, HostTitle(Escape(host.value)),
                 HostMeta(Escape(root.value), Escape(oldIp.value), Escape(newHost.value), Escape(date.value),
                          Count(t, "files_scanned"), Count(t, "files_with_ip_before"),
                          Count(t, "ok"), Count(t, "fail"), Count(t, "skipped"))]
                + body.value + [CardClose]);
  }

  /** A way of computing the global count of a key over the host records. */
  type Totaller = (seq<Json>, string) -> Outcome<int>

  /** The three global counts and every host card can be computed. */
  predicate Builds(data: seq<Json>, total: Totaller) {
    total(data, "ok").Done? && total(data, "fail").Done? && total(data, "skipped").Done? &&
    Gather(data, HostParts).Done?
  }

  /** The whole page for what the input path holds and the time of the run, with the global
      counts computed by `total`: a value that is not a list ends the run with SystemExit
      (status 1); otherwise the title, the summary of the three counts, one card per host and
      the end of the page, or the first exception on the way. */
  function PageWith(input: Input, now: string, total: Totaller): (r: Outcome<seq<Part>>)
    ensures input.Missing? ==> r == Crash("FileNotFoundError")
    ensures input.Malformed? ==> r == Crash("JSONDecodeError")
    ensures input.Decoded? && !input.doc.JList? ==> r == Exit(1)
    ensures r.Done? ==> input.Decoded? && input.doc.JList? && |r.value| >= 3
    ensures r.Done? ==>
      total(input.doc.items, "ok").Done? && total(input.doc.items, "fail").Done? &&
      total(input.doc.items, "skipped").Done? && Gather(input.doc.items, HostParts).Done? &&
      r.value == [Head(Escape(now)), Summary(total(input.doc.items, "ok").value,
        total(input.doc.items, "fail").value, total(input.doc.items, "skipped").value)]
        + Gather(input.doc.items, HostParts).value + [PageEnd]
    ensures input.Decoded? && input.doc.JList? && Builds(input.doc.items, total) ==> r.Done?
  {
    match input
    case Missing => Crash("FileNotFoundError")
    case Malformed => Crash("JSONDecodeError")
    case Decoded(doc) =>
      if !doc.JList? then Exit(1)
      else
        var ok :- total(doc.items, "ok");
        var fail :- total(doc.items, "fail");
        var skipped :- total(doc.items, "skipped");
        var cards :- Gather(doc.items, HostParts);
        Done([Head(Escape(now)), Summary(ok, fail, skipped)] + cards + [PageEnd])
  }

  /** The page as lines 77-184 build it: the global counts read the totals without `or {}`. */
  function Page(input: Input, now: string): (r: Outcome<seq<Part>>)
    ensures input.Decoded? && input.doc.JList? && !SumTotalAsWritten(input.doc.items, "ok").Done? ==>
      r == SumTotalAsWritten(input.doc.items, "ok").PropagateFailure()
  {
    PageWith(input, now, SumTotalAsWritten)
  }

  /** The page with the global counts read as the host cards read them. */
  function CorrectedPage(input: Input, now: string): Outcome<seq<Part>>
  {
    PageWith(input, now, SumTotal)
  }

  /** Where every host's totals are a dict or absent, the page as written is the corrected page. */
  lemma PageAgrees(input: Input, now: string)
    requires input.Decoded? && input.doc.JList?
    requires forall k :: 0 <= k < |input.doc.items| ==> TotalsAsWritten(input.doc.items[k]).Done?
    ensures Page(input, now) == CorrectedPage(input, now)
  {
    AsWrittenAgrees(input.doc.items, "ok");
    AsWrittenAgrees(input.doc.items, "fail");
    AsWrittenAgrees(input.doc.items, "skipped");
  }

  /** A single host whose totals are null: the page as written raises AttributeError, the
      corrected page is built. */
  lemma NullTotalsPage(now: string)
    ensures Page(Decoded(JList([JDict([("totals", JNone)])])), now) == Crash("AttributeError")
    ensures CorrectedPage(Decoded(JList([JDict([("totals", JNone)])])), now).Done?
  {
    NullTotalsPageCrash(now);
    NullTotalsPageBuilt(now);
  }

  lemma NullTotalsPageCrash(now: string)
    ensures Page(Decoded(JList([JDict([("totals", JNone)])])), now) == Crash("AttributeError")
  {
    NullTotalsCrash();
  }

  lemma NullTotalsPageBuilt(now: string)
    ensures CorrectedPage(Decoded(JList([JDict([("totals", JNone)])])), now).Done?
  {
    var h := JDict([("totals", JNone)]);
    NullHostCard(h);
    NullTotalsZero(h, "ok");
    NullTotalsZero(h, "fail");
    NullTotalsZero(h, "skipped");
    assert Builds([h], SumTotal);
    var input := Decoded(JList([h]));
    assert input.doc.items == [h];
    assert PageWith(input, now, SumTotal).Done?;
  }

  /** A host whose totals are null counts zero of every key in the corrected sums. */
  lemma NullTotalsZero(h: Json, key: string)
    requires h == JDict([("totals", JNone)])
    ensures SumTotal([h], key) == Done(0)
  {
    assert GetOr(h.fields, "totals", JDict([])) == JNone;
    assert Totals(h) == Done([]);
    assert Count([], key) == 0;
    var f := x => HostCount(x, key);
    assert f(h) == Done(0);
    assert [h][..0] == [];
    assert Sum([h], f) == Done(0);
  }

  /** The card of a host whose only field is a null `totals` is built. */
  lemma NullHostCard(h: Json)
    requires h == JDict([("totals", JNone)])
    ensures Gather([h], HostParts).Done?
  {
    assert GetOr(h.fields, "totals", JDict([])) == JNone;
    assert Lookup(h.fields, "files").None?;
    assert HostParts(h).Done?;
    assert [h][..0] == [];
  }

  /** `main()` with whether both required options were given (argparse exits with 2 when one
      is missing): the totals, then the loop over the hosts. */
  method ExportReplaceIp(argsOk: bool, input: Input, now: string) returns (out: Outcome<seq<Part>>)
    ensures !argsOk ==> out == Exit(2)
    ensures argsOk ==> out == Page(input, now)
  {
    if !argsOk {
      return Exit(2);
    }
    if input.Missing? {
      return Crash("FileNotFoundError");
    }
    if input.Malformed? {
      return Crash("JSONDecodeError");
    }
    var doc := input.doc;
    if !doc.JList? {
      return Exit(1);
    }
    var data := doc.items;
    var ok := SumTotalAsWritten(data, "ok");
    var fail := SumTotalAsWritten(data, "fail");
    var skipped := SumTotalAsWritten(data, "skipped");
    if !ok.Done? {
      return ok.PropagateFailure();
    }
    // A sum fails on the first host whose totals cannot be read, whatever the key, so once the
    // "ok" sum is read the other two are as well.
    if !fail.Done? || !skipped.Done? {
      assert false;
    }
    var cards := GatherLoop(data, HostParts);
    if !cards.Done? {
      return cards.PropagateFailure();
    }
    return Done([Head(Escape(now)), Summary(ok.value, fail.value, skipped.value)] + cards.value + [PageEnd]);
  }
}
