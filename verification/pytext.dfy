/**
 * The few pieces of Python's `str` behaviour that the report scripts rely on:
 * whitespace, strip/split/splitlines, substring tests, case mapping, and the
 * text <-> integer conversions of `str(int)` and `int(str)`.
 *
 * Characters are Unicode scalar values, as in Python 3. Where Python consults
 * the Unicode database (case mapping, `\d`, `isdigit`), the model covers
 * ASCII and Latin-1 and says so at each definition.
 */
module PyText {

  datatype Option<T> = None | Some(value: T)

  /** `str.isspace()` for one character (Python's whitespace set). */
  predicate IsSpace(c: char) {
    ('\t' <= c <= '\r') || ('\U{1C}' <= c <= '\U{1F}') || c == ' ' || c == '\U{85}' || c == '\U{A0}'
    || c == '\U{1680}' || ('\U{2000}' <= c <= '\U{200A}') || c == '\U{2028}' || c == '\U{2029}'
    || c == '\U{202F}' || c == '\U{205F}' || c == '\U{3000}'
  }

  /** An ASCII decimal digit (`\d` and `str.isdigit` restricted to ASCII). */
  predicate IsDigit(c: char) { '0' <= c <= '9' }

  predicate AllDigits(s: string) { forall i :: 0 <= i < |s| ==> IsDigit(s[i]) }

  /** `s.isdigit()`: non-empty and every character a digit. */
  predicate IsDigitText(s: string) { s != [] && AllDigits(s) }

  /** `s.lstrip()` */
  function LStrip(s: string): (r: string)
    ensures |r| <= |s| && r == s[|s| - |r|..]
    ensures r == [] || !IsSpace(r[0])
    ensures forall i :: 0 <= i < |s| - |r| ==> IsSpace(s[i])
  {
    if s != [] && IsSpace(s[0]) then LStrip(s[1..]) else s
  }

  /** `s.rstrip()` */
  function RStrip(s: string): (r: string)
    ensures |r| <= |s| && r == s[..|r|]
    ensures r == [] || !IsSpace(r[|r| - 1])
    ensures forall i :: |r| <= i < |s| ==> IsSpace(s[i])
  {
    if s != [] && IsSpace(s[|s| - 1]) then RStrip(s[..|s| - 1]) else s
  }

  /** `s.strip()`: no leading or trailing whitespace is left, and only whitespace was removed. */
  function Strip(s: string): (r: string)
    ensures |r| <= |s|
    ensures r == [] || (!IsSpace(r[0]) && !IsSpace(r[|r| - 1]))
  {
    RStrip(LStrip(s))
  }

  /** What `strip` keeps is a slice of the text, with only whitespace cut off around it. */
  lemma StripSlice(s: string)
    ensures StrippedAt(s, Strip(s), |s| - |LStrip(s)|)
  {
    var t := LStrip(s);
    var r := RStrip(t);
    assert Strip(s) == r;
    var i := |s| - |t|;
    assert t == s[i..];
    assert r == t[..|r|];
    SpaceShift(s, t, i, |r|);
    StrippedAtIntro(s, r, i);
  }

  /** `StrippedAt` from its parts, the slice written as a prefix of a suffix. */
  lemma StrippedAtIntro(s: string, r: string, i: int)
    requires 0 <= i <= i + |r| <= |s| && r == s[i..][..|r|]
    requires forall k :: 0 <= k < i ==> IsSpace(s[k])
    requires forall k :: i + |r| <= k < |s| ==> IsSpace(s[k])
    ensures StrippedAt(s, r, i)
  {
    assert s[i..][..|r|] == s[i..i + |r|];
  }

  /** Whitespace after position `n` of the suffix `s[i..]` is whitespace after `i + n` in `s`. */
  lemma SpaceShift(s: string, t: string, i: nat, n: nat)
    requires i <= |s| && t == s[i..]
    requires forall k :: n <= k < |t| ==> IsSpace(t[k])
    ensures forall k :: i + n <= k < |s| ==> IsSpace(s[k])
  {
    forall k | i + n <= k < |s| ensures IsSpace(s[k]) {
      assert s[k] == t[k - i];
    }
  }

  /** `r` is the slice of `s` from `i` on, with only whitespace around it in `s`. */
  predicate StrippedAt(s: string, r: string, i: int) {
    0 <= i <= i + |r| <= |s| && r == s[i..i + |r|] &&
    (forall k :: 0 <= k < i ==> IsSpace(s[k])) &&
    (forall k :: i + |r| <= k < |s| ==> IsSpace(s[k]))
  }

  /** `s.rstrip(ch)` for a single character. */
  function RStripChar(s: string, ch: char): (r: string)
    ensures |r| <= |s| && r == s[..|r|]
    ensures r == [] || r[|r| - 1] != ch
    ensures forall i :: |r| <= i < |s| ==> s[i] == ch
  {
    if s != [] && s[|s| - 1] == ch then RStripChar(s[..|s| - 1], ch) else s
  }

  predicate StartsWith(s: string, p: string) { |p| <= |s| && s[..|p|] == p }

  predicate EndsWith(s: string, p: string) { |p| <= |s| && s[|s| - |p|..] == p }

  /** The first index at which `t` occurs in `s` (`s.find(t)`), if any. */
  function Find(s: string, t: string): (r: Option<nat>)
    decreases |s|
    ensures r.Some? ==> r.value + |t| <= |s| && s[r.value..r.value + |t|] == t
    ensures r.Some? ==> forall i :: 0 <= i < r.value ==> !StartsWith(s[i..], t)
    ensures r.None? ==> forall i :: 0 <= i <= |s| ==> !StartsWith(s[i..], t)
  {
    if StartsWith(s, t) then Some(0)
    else if s == [] then None
    else
      assert forall i :: 1 <= i <= |s| ==> s[1..][i - 1..] == s[i..];
      match Find(s[1..], t)
      case None => None
      case Some(i) => Some(i + 1)
  }

  /** `t in s` (substring test). */
  predicate Contains(s: string, t: string) { Find(s, t).Some? }

  /** `sep.join(parts)` */
  function Join(parts: seq<string>, sep: string): string
  {
    if parts == [] then ""
    else if |parts| == 1 then parts[0]
    else parts[0] + sep + Join(parts[1..], sep)
  }

  lemma JoinCons(a: string, tail: seq<string>, sep: string)
    requires tail != []
    ensures Join([a] + tail, sep) == a + sep + Join(tail, sep)
  {
    assert ([a] + tail)[1..] == tail;
  }

  lemma {:induction false} JoinSnoc(parts: seq<string>, w: string, sep: string)
    requires parts != []
    ensures Join(parts + [w], sep) == Join(parts, sep) + sep + w
    decreases |parts|
  {
    if |parts| > 1 {
      assert (parts + [w])[1..] == parts[1..] + [w];
      JoinSnoc(parts[1..], w, sep);
    } else {
      assert (parts + [w])[1..] == [w];
    }
  }

  /** Joined non-empty texts begin with the first text's first character and end with the last
      text's last character. */
  lemma {:induction false} JoinEnds(parts: seq<string>, sep: string)
    requires parts != [] && forall k :: 0 <= k < |parts| ==> parts[k] != []
    ensures Join(parts, sep) != [] && Join(parts, sep)[0] == parts[0][0]
    ensures Join(parts, sep)[|Join(parts, sep)| - 1] == parts[|parts| - 1][|parts[|parts| - 1]| - 1]
    decreases |parts|
  {
    if |parts| > 1 {
      JoinEnds(parts[1..], sep);
    }
  }

  /** Three pieces joined with one separator. */
  lemma JoinThree(d1: string, d2: string, d3: string, sep: string)
    ensures Join([d1, d2, d3], sep) == d1 + sep + d2 + sep + d3
  {
    assert [d1] + [d2] == [d1, d2] && [d1, d2] + [d3] == [d1, d2, d3];
    JoinSnoc([d1], d2, sep);
    JoinSnoc([d1, d2], d3, sep);
  }

  /** `s.split(sep)` for a non-empty separator: split at every occurrence, left to right. */
  function SplitOn(s: string, sep: string): (parts: seq<string>)
    requires sep != []
    decreases |s|
    ensures |parts| >= 1
  {
    match Find(s, sep)
    case None => [s]
    case Some(i) => [s[..i]] + SplitOn(s[i + |sep|..], sep)
  }

  /** Joining the pieces of a split with the same separator gives back the original text. */
  lemma {:induction false} SplitOnJoin(s: string, sep: string)
    requires sep != []
    decreases |s|
    ensures Join(SplitOn(s, sep), sep) == s
  {
    match Find(s, sep)
    case None =>
    case Some(i) =>
      var rest := s[i + |sep|..];
      var tail := SplitOn(rest, sep);
      SplitOnJoin(rest, sep);
      JoinCons(s[..i], tail, sep);
      Reassemble(s, i, sep);
  }

  /** Cutting `s` around an occurrence of `sep` at `i` loses nothing. */
  lemma Reassemble(s: string, i: nat, sep: string)
    requires i + |sep| <= |s| && s[i..i + |sep|] == sep
    ensures s[..i] + sep + s[i + |sep|..] == s
  {
    assert s == s[..i] + s[i..i + |sep|] + s[i + |sep|..];
  }

  /** The first occurrence of a one-character separator is found where the text first has it. */
  lemma {:induction false} FindChar(s: string, c: char, i: nat)
    requires i < |s| && s[i] == c && c !in s[..i]
    ensures Find(s, [c]) == Some(i)
  {
    if i > 0 {
      assert s[0] != c by { assert s[..i][0] == s[0]; }
      assert s[1..][..i - 1] == s[..i][1..];
      FindChar(s[1..], c, i - 1);
    }
  }

  /** A one-character separator that is absent is not found. */
  lemma {:induction false} FindCharAbsent(s: string, c: char)
    requires c !in s
    ensures Find(s, [c]) == None
  {
    if s != [] {
      assert s[..1] == [s[0]];
      FindCharAbsent(s[1..], c);
    }
  }

  /** Splitting at a one-character separator undoes joining pieces that do not contain it. */
  lemma {:induction false} JoinSplitOn(parts: seq<string>, c: char)
    requires parts != []
    requires forall k :: 0 <= k < |parts| ==> c !in parts[k]
    decreases |parts|
    ensures SplitOn(Join(parts, [c]), [c]) == parts
  {
    if |parts| == 1 {
      FindCharAbsent(parts[0], c);
    } else {
      var tail := Join(parts[1..], [c]);
      SplitOnFirst(parts[0], c, tail);
      JoinSplitOn(parts[1..], c);
      assert parts == [parts[0]] + parts[1..];
    }
  }

  /** Splitting stops first at the separator after a piece that does not contain it. */
  lemma SplitOnFirst(head: string, c: char, rest: string)
    requires c !in head
    ensures SplitOn(head + [c] + rest, [c]) == [head] + SplitOn(rest, [c])
  {
    var s := head + [c] + rest;
    assert s[..|head|] == head;
    FindChar(s, c, |head|);
    assert s[|head| + 1..] == rest;
  }

  /** Characters at which `str.splitlines()` breaks a line. */
  predicate IsLineBreak(c: char) {
    c == '\n' || c == '\r' || c == '\U{0B}' || c == '\U{0C}' || c == '\U{1C}' || c == '\U{1D}'
    || c == '\U{1E}' || c == '\U{85}' || c == '\U{2028}' || c == '\U{2029}'
  }

  /** Index of the first line break in `s`, or `|s|`. */
  function LineEnd(s: string): (i: nat)
    ensures i <= |s| && (i < |s| ==> IsLineBreak(s[i]))
    ensures forall k :: 0 <= k < i ==> !IsLineBreak(s[k])
  {
    if s == [] || IsLineBreak(s[0]) then 0 else 1 + LineEnd(s[1..])
  }

  /** `s.splitlines()`: "\r\n" counts as one break and a final break adds no empty line. */
  function SplitLines(s: string): (lines: seq<string>)
    decreases |s|
    ensures forall k, j :: 0 <= k < |lines| && 0 <= j < |lines[k]| ==> !IsLineBreak(lines[k][j])
  {
    if s == [] then []
    else
      var i := LineEnd(s);
      if i == |s| then [s]
      else
        var skip := if s[i] == '\r' && i + 1 < |s| && s[i + 1] == '\n' then 2 else 1;
        [s[..i]] + SplitLines(s[i + skip..])
  }

  /** Length of the leading run of non-whitespace characters. */
  function WordEnd(s: string): (i: nat)
    ensures i <= |s| && (i < |s| ==> IsSpace(s[i]))
    ensures forall k :: 0 <= k < i ==> !IsSpace(s[k])
  {
    if s == [] || IsSpace(s[0]) then 0 else 1 + WordEnd(s[1..])
  }

  /** A non-empty run of non-whitespace characters. */
  predicate IsWord(w: string) { w != [] && forall j :: 0 <= j < |w| ==> !IsSpace(w[j]) }

  /** `s.split()`: the maximal runs of non-whitespace characters, in order. */
  function Words(s: string): (ws: seq<string>)
    decreases |s|
    ensures forall k :: 0 <= k < |ws| ==> IsWord(ws[k])
  {
    if s == [] then []
    else if IsSpace(s[0]) then Words(s[1..])
    else
      var i := WordEnd(s);
      [s[..i]] + Words(s[i..])
  }

  /** A run of whitespace, possibly empty. */
  predicate IsBlank(g: string) { forall j :: 0 <= j < |g| ==> IsSpace(g[j]) }

  /** The words laid out between the gaps: `gaps[0] + ws[0] + gaps[1] + … + ws[n-1] + gaps[n]`. */
  function Weave(gaps: seq<string>, ws: seq<string>): string
    requires |gaps| == |ws| + 1
    decreases |ws|
  {
    if ws == [] then gaps[0] else gaps[0] + ws[0] + Weave(gaps[1..], ws[1..])
  }

  /** The whitespace runs around the words of `s`: the leading one, one between each two words,
      and the trailing one. Only the first and the last may be empty. */
  function Gaps(s: string): (gaps: seq<string>)
    decreases |s|
    ensures |gaps| == |Words(s)| + 1
    ensures forall k :: 0 <= k < |gaps| ==> IsBlank(gaps[k])
    ensures forall k :: 0 < k < |gaps| - 1 ==> gaps[k] != []
    ensures s != [] && IsSpace(s[0]) ==> gaps[0] != []
  {
    if s == [] then [""]
    else if IsSpace(s[0]) then
      var g := Gaps(s[1..]);
      [[s[0]] + g[0]] + g[1..]
    else
      var i := WordEnd(s);
      [""] + Gaps(s[i..])
  }

  lemma WeaveLead(c: char, gaps: seq<string>, ws: seq<string>)
    requires |gaps| == |ws| + 1
    ensures Weave([[c] + gaps[0]] + gaps[1..], ws) == [c] + Weave(gaps, ws)
  {
    var g := [[c] + gaps[0]] + gaps[1..];
    assert g[1..] == gaps[1..];
  }

  lemma WeaveWord(w: string, gaps: seq<string>, ws: seq<string>)
    requires |gaps| == |ws| + 1
    ensures Weave([[]] + gaps, [w] + ws) == w + Weave(gaps, ws)
  {
    var g, v := [[]] + gaps, [w] + ws;
    assert g[0] == [] && v[0] == w;
    assert g[1..] == gaps && v[1..] == ws;
    assert [] + w == w;
  }

  /** A word in front of woven text that spells `rest` spells `w + rest`. */
  lemma WeaveWordJoin(w: string, rest: string, gaps: seq<string>, ws: seq<string>)
    requires |gaps| == |ws| + 1 && Weave(gaps, ws) == rest
    ensures Weave([[]] + gaps, [w] + ws) == w + rest
  {
    WeaveWord(w, gaps, ws);
  }

  /** Leading whitespace joins the first gap and leaves the words alone. */
  lemma GapsSpace(s: string)
    requires s != [] && IsSpace(s[0])
    ensures Words(s) == Words(s[1..])
    ensures Gaps(s) == [[s[0]] + Gaps(s[1..])[0]] + Gaps(s[1..])[1..]
  {
  }

  /** A leading word is the first word, after an empty first gap. */
  lemma GapsWord(s: string)
    requires s != [] && !IsSpace(s[0])
    ensures Words(s) == [s[..WordEnd(s)]] + Words(s[WordEnd(s)..])
    ensures Gaps(s) == [[]] + Gaps(s[WordEnd(s)..])
  {
  }

  /** The weave of text that starts with whitespace, from the weave of the text after it. */
  lemma WeaveSpaceStep(s: string)
    requires s != [] && IsSpace(s[0])
    requires Weave(Gaps(s[1..]), Words(s[1..])) == s[1..]
    ensures Weave(Gaps(s), Words(s)) == s
  {
    var rest := s[1..];
    GapsSpace(s);
    WeaveLead(s[0], Gaps(rest), Words(rest));
    assert [s[0]] + rest == s;
  }

  /** Cutting text at `i` and joining the halves gives it back. */
  lemma SplitJoin(s: string, i: nat)
    requires i <= |s|
    ensures s[..i] + s[i..] == s
  {
  }

  /** The weave of text that starts with a word, from the weave of the text after the word. */
  lemma WeaveWordStep(s: string)
    requires s != [] && !IsSpace(s[0])
    requires Weave(Gaps(s[WordEnd(s)..]), Words(s[WordEnd(s)..])) == s[WordEnd(s)..]
    ensures Weave(Gaps(s), Words(s)) == s
  {
    var i := WordEnd(s);
    var rest := s[i..];
    GapsWord(s);
    WeaveWordJoin(s[..i], rest, Gaps(rest), Words(rest));
    SplitJoin(s, i);
  }

  /** `s.split()` cuts `s` into its maximal runs of non-whitespace: the words and the whitespace
      between them, woven back together, give `s` again. */
  lemma {:induction false} WordsWeave(s: string)
    decreases |s|
    ensures Weave(Gaps(s), Words(s)) == s
  {
    if s == [] {
    } else if IsSpace(s[0]) {
      WordsWeave(s[1..]);
      WeaveSpaceStep(s);
    } else {
      WordsWeave(s[WordEnd(s)..]);
      WeaveWordStep(s);
    }
  }

  /** A word followed by whitespace (or nothing) ends where the whitespace starts. */
  lemma {:induction false} WordEndOf(w: string, rest: string)
    requires forall j :: 0 <= j < |w| ==> !IsSpace(w[j])
    requires rest == [] || IsSpace(rest[0])
    ensures WordEnd(w + rest) == |w|
  {
    if w != [] {
      assert (w + rest)[1..] == w[1..] + rest;
      WordEndOf(w[1..], rest);
    }
  }

  /** Text that starts with a word followed by whitespace splits into that word and the rest. */
  lemma WordsFirst(w: string, rest: string)
    requires IsWord(w) && (rest == [] || IsSpace(rest[0]))
    ensures Words(w + rest) == [w] + Words(rest)
  {
    WordEndOf(w, rest);
    var s := w + rest;
    assert s[..|w|] == w && s[|w|..] == rest;
  }

  /** `str.lower()` on one character: ASCII and Latin-1 capitals, and the Kelvin sign, the one
      other character whose lower case is ASCII. Other characters are left as they are. */
  function LowerChar(c: char): char {
    if 'A' <= c <= 'Z' || ('\U{C0}' <= c <= '\U{DE}' && c != '\U{D7}') then (c as int + 32) as char
    else if c == '\U{212A}' then 'k'
    else c
  }

  /** `str.upper()` on one character, as text (`ß` becomes "SS"): ASCII and Latin-1 letters, plus
      every other character whose upper case is pure ASCII (dotless i, long s, the Latin
      ligatures). Other characters are left as they are. */
  function UpperOf(c: char): string {
    if 'a' <= c <= 'z' || ('\U{E0}' <= c <= '\U{FE}' && c != '\U{F7}') then [(c as int - 32) as char]
    else if c == '\U{DF}' then "SS"
    else if c == '\U{FF}' then "\U{178}"
    else if c == '\U{B5}' then "\U{39C}"
    else if c == '\U{131}' then "I"
    else if c == '\U{17F}' then "S"
    else if c == '\U{FB00}' then "FF"
    else if c == '\U{FB01}' then "FI"
    else if c == '\U{FB02}' then "FL"
    else if c == '\U{FB03}' then "FFI"
    else if c == '\U{FB04}' then "FFL"
    else if c == '\U{FB05}' || c == '\U{FB06}' then "ST"
    else [c]
  }

  function Lower(s: string): (r: string)
    ensures |r| == |s| && forall i :: 0 <= i < |s| ==> r[i] == LowerChar(s[i])
  {
    if s == [] then [] else [LowerChar(s[0])] + Lower(s[1..])
  }

  function Upper(s: string): string
  {
    if s == [] then [] else UpperOf(s[0]) + Upper(s[1..])
  }

  // ---------------------------------------------------------------------
  // Integers as text
  // ---------------------------------------------------------------------

  function DigitChar(d: nat): char
    requires d < 10
  {
    ('0' as int + d) as char
  }

  function DigitValue(c: char): nat
    requires IsDigit(c)
  {
    c as int - '0' as int
  }

  /** The value of a string of decimal digits (leading zeros allowed). */
  function DigitsValue(ds: string): nat
    requires AllDigits(ds)
  {
    if ds == [] then 0 else 10 * DigitsValue(ds[..|ds| - 1]) + DigitValue(ds[|ds| - 1])
  }

  /** `str(n)` for a natural number. */
  function NatToText(n: nat): (r: string)
    ensures IsDigitText(r)
    ensures |r| > 1 ==> r[0] != '0'
  {
    if n < 10 then [DigitChar(n)] else NatToText(n / 10) + [DigitChar(n % 10)]
  }

  /** `str(i)` */
  function IntToText(i: int): (r: string)
    ensures r != []
  {
    if i < 0 then "-" + NatToText(-i) else NatToText(i)
  }

  lemma {:induction false} NatToTextValue(n: nat)
    ensures DigitsValue(NatToText(n)) == n
  {
    if n >= 10 {
      NatToTextValue(n / 10);
      var r := NatToText(n);
      assert r[..|r| - 1] == NatToText(n / 10);
    }
  }

  /** `int(t)` on text that has already been stripped: an optional sign and at least one digit. */
  function ParseSignedDigits(t: string): (r: Option<int>)
    ensures r.Some? <==> (IsDigitText(t) || (t != [] && (t[0] == '+' || t[0] == '-') && IsDigitText(t[1..])))
  {
    if IsDigitText(t) then Some(DigitsValue(t))
    else if t != [] && t[0] == '+' && IsDigitText(t[1..]) then Some(DigitsValue(t[1..]))
    else if t != [] && t[0] == '-' && IsDigitText(t[1..]) then Some(-(DigitsValue(t[1..]) as int))
    else None
  }

  /** `int(s)` for a string: surrounding whitespace is ignored; `None` stands for ValueError. */
  function ParseInt(s: string): Option<int>
  {
    ParseSignedDigits(Strip(s))
  }

  /** Digits and the minus sign are not whitespace. */
  lemma NotSpace(c: char)
    requires IsDigit(c) || c == '-'
    ensures !IsSpace(c)
  {
  }

  /** Text with no whitespace at either end is left alone by `strip()`. */
  lemma StripUnchanged(t: string)
    requires t != [] && !IsSpace(t[0]) && !IsSpace(t[|t| - 1])
    ensures Strip(t) == t
  {
    assert LStrip(t) == t;
  }

  /** `strip()` twice is `strip()` once. */
  lemma StripIdempotent(s: string)
    ensures Strip(Strip(s)) == Strip(s)
  {
    if Strip(s) != [] {
      StripUnchanged(Strip(s));
    }
  }

  lemma NatTextParses(n: nat)
    ensures ParseSignedDigits(NatToText(n)) == Some(n)
  {
    NatToTextValue(n);
  }

  lemma NegTextParses(n: nat)
    requires n > 0
    ensures ParseSignedDigits("-" + NatToText(n)) == Some(-(n as int))
  {
    var d := NatToText(n);
    var t := "-" + d;
    assert t[1..] == d;
    assert !IsDigitText(t) by { assert !IsDigit(t[0]); }
    NatTextParses(n);
  }

  /** `int(str(i)) == i` */
  lemma IntTextRoundTrip(i: int)
    ensures ParseInt(IntToText(i)) == Some(i)
  {
    if i < 0 {
      var d := NatToText(-i);
      var t := "-" + d;
      assert t == IntToText(i);
      assert t[|t| - 1] == d[|d| - 1];
      NotSpace(t[0]);
      NotSpace(d[|d| - 1]);
      StripUnchanged(t);
      NegTextParses(-i);
    } else {
      var d := NatToText(i);
      NotSpace(d[0]);
      NotSpace(d[|d| - 1]);
      StripUnchanged(d);
      NatTextParses(i);
    }
  }
}
