/**
 * Validaciones_Generales/exportar_openssl_excel.py: OpenSSL version strings, their normalisation
 * to a comparable dotted number, the CVE ranges and the "minimum safe version" table, and the
 * per-host loop that counts and lists the hosts.
 */
module OpensslReport {
  import opened PyText
  import opened JsonValue
  import opened Pep440
  import opened Report
  import StableSort

  // ---------------------------------------------------------------------
  // The pattern  OpenSSL\s+(\d+\.\d+\.\d+)([a-z]*)  under re.IGNORECASE
  // ---------------------------------------------------------------------

  /** `c` matches the lower-case pattern letter `x` when case is ignored (the long s also
      matches `s`). */
  predicate FoldsTo(c: char, x: char) {
    LowerChar(c) == x || (x == 's' && c == '\U{17F}')
  }

  /** `[a-z]` when case is ignored: the ASCII letters and the Kelvin sign. */
  predicate IsSuffixLetter(c: char) {
    ('a' <= c <= 'z') || ('A' <= c <= 'Z') || c == '\U{212A}'
  }

  /** End of the longest run of characters satisfying `p` that starts at `i`. */
  function Run(s: string, i: nat, p: char -> bool): (j: nat)
    requires i <= |s|
    ensures i <= j <= |s|
    ensures forall k :: i <= k < j ==> p(s[k])
    ensures j < |s| ==> !p(s[j])
    decreases |s| - i
  {
    if i < |s| && p(s[i]) then Run(s, i + 1, p) else i
  }

  predicate IsSuffixWord(t: string) { forall k :: 0 <= k < |t| ==> IsSuffixLetter(t[k]) }

  /** What one match captures: the dotted base and the raw letter suffix. */
  datatype Hit = Hit(base: string, suffix: string)

  /** The seven letters of "OpenSSL", in any case, start at `p`. */
  predicate OpensslAt(s: string, p: nat)
    requires p + 7 <= |s|
  {
    forall k :: 0 <= k < 7 ==> FoldsTo(s[p + k], "openssl"[k])
  }

  /** `\d+\.` read from `i`: the position after the dot, if it is there. */
  function DigitsDot(s: string, i: nat): (j: Option<nat>)
    requires i <= |s|
    ensures j.Some? ==> i < j.value <= |s| && s[j.value - 1] == '.'
    ensures j.Some? ==> forall k :: i <= k < j.value - 1 ==> IsDigit(s[k])
  {
    var c := Run(s, i, IsDigit);
    if c == i || c == |s| || s[c] != '.' then None else Some(c + 1)
  }

  /** End of `\d+\.\d+\.\d+` read from `b`, if it is there. */
  function DottedEnd(s: string, b: nat): (e: Option<nat>)
    requires b <= |s|
    ensures e.Some? ==> b < e.value <= |s| && forall k :: b <= k < e.value ==> IsDigit(s[k]) || s[k] == '.'
  {
    match DigitsDot(s, b)
    case None => None
    case Some(c) =>
      match DigitsDot(s, c)
      case None => None
      case Some(d) =>
        var e := Run(s, d, IsDigit);
        if e == d then None else Some(e)
  }

  /** The match of the pattern that starts at position `p`, if any. The quantifiers are greedy
      and nothing after them can make them give characters back, so each run is maximal. */
  function MatchAt(s: string, p: nat): (m: Option<Hit>)
    requires p <= |s|
    ensures m.Some? ==> IsBase(m.value.base) && IsSuffixWord(m.value.suffix)
  {
    if p + 7 > |s| || !OpensslAt(s, p) then None
    else
      var b := Run(s, p + 7, IsSpace);
      if b == p + 7 then None
      else
        match DottedEnd(s, b)
        case None => None
        case Some(e) =>
          BaseShape(s, b);
          Some(Hit(s[b..e], s[e..Run(s, e, IsSuffixLetter)]))
  }

  /** Three dotted numbers, as the first group captures them. */
  predicate IsBase(t: string) {
    t != [] && IsDigit(t[0]) && IsDigit(t[|t| - 1]) &&
    ParseDotted(t).Some? && |ParseDotted(t).value| == 3
  }

  lemma BaseShape(s: string, b: nat)
    requires b <= |s| && DottedEnd(s, b).Some?
    ensures IsBase(s[b..DottedEnd(s, b).value])
  {
    var c := DigitsDot(s, b).value;
    var d := DigitsDot(s, c).value;
    var e := DottedEnd(s, b).value;
    var parts := [s[b..c - 1], s[c..d - 1], s[d..e]];
    DotAfter(s, b, c);
    DotAfter(s, c, d);
    ConcatAt(s, b, c, e);
    ConcatAt(s, c, d, e);
    JoinCons(parts[1], [parts[2]], ".");
    assert s[c..e] == Join([parts[1], parts[2]], ".");
    assert parts == [parts[0]] + [parts[1], parts[2]];
    JoinCons(parts[0], [parts[1], parts[2]], ".");
    assert Join(parts, ".") == s[b..e];
    ParseDottedJoin(parts);
  }

  /** A slice that ends with a point is the text before the point and the point. */
  lemma DotAfter(s: string, i: nat, j: nat)
    requires i < j <= |s| && s[j - 1] == '.'
    ensures s[i..j] == s[i..j - 1] + "."
  {
    ConcatAt(s, i, j - 1, j);
    assert s[j - 1..j] == ".";
  }

  /** The first position in [p, n] that satisfies `found`. */
  function FirstPos(n: nat, p: nat, found: nat -> bool): (q: Option<nat>)
    requires p <= n
    ensures q.Some? ==> p <= q.value <= n && found(q.value)
    ensures q.None? <==> forall k :: p <= k <= n ==> !found(k)
    decreases n - p
  {
    if found(p) then Some(p)
    else if p == n then None
    else FirstPos(n, p + 1, found)
  }

  /** Two tests that agree on [p, n] find the same first position. */
  lemma {:induction false} FirstPosAgree(n: nat, p: nat, f: nat -> bool, g: nat -> bool)
    requires p <= n
    requires forall k :: p <= k <= n ==> f(k) == g(k)
    ensures FirstPos(n, p, f) == FirstPos(n, p, g)
    decreases n - p
  {
    if !f(p) && p < n {
      FirstPosAgree(n, p + 1, f, g);
    }
  }

  /** Where in `s` a match starts. */
  function Starts(s: string): nat -> bool
  {
    (k: nat) => k <= |s| && MatchAt(s, k).Some?
  }

  /** `re.search`: the match at the leftmost position where one starts; `None` when no position
      starts one. */
  function Search(s: string): (m: Option<Hit>)
    ensures m.None? <==> forall q :: 0 <= q <= |s| ==> MatchAt(s, q).None?
    ensures m.Some? ==> m.value.base != [] && IsSuffixWord(m.value.suffix)
  {
    assert forall k :: 0 <= k <= |s| ==> Starts(s)(k) == MatchAt(s, k).Some?;
    match FirstPos(|s|, 0, Starts(s))
    case None => None
    case Some(q) => MatchAt(s, q)
  }

  // ---------------------------------------------------------------------
  // Case does not matter
  // ---------------------------------------------------------------------

  /** `t` is `s` with some letters lower-cased: each character of `t` is the one of `s` or its
      lower case. */
  predicate SameShape(s: string, t: string) {
    |s| == |t| && forall k :: 0 <= k < |s| ==> t[k] == s[k] || t[k] == LowerChar(s[k])
  }

  /** Lower-casing keeps every class the pattern tests. */
  lemma LowerCharClasses(c: char)
    ensures IsSpace(LowerChar(c)) == IsSpace(c) && IsDigit(LowerChar(c)) == IsDigit(c)
    ensures IsSuffixLetter(LowerChar(c)) == IsSuffixLetter(c) && (LowerChar(c) == '.') == (c == '.')
    ensures LowerChar(LowerChar(c)) == LowerChar(c)
    ensures forall x :: FoldsTo(LowerChar(c), x) == FoldsTo(c, x)
  {
  }

  lemma {:induction false} RunAgree(s: string, t: string, i: nat, p: char -> bool)
    requires i <= |s| == |t|
    requires forall k :: i <= k < |s| ==> p(s[k]) == p(t[k])
    ensures Run(s, i, p) == Run(t, i, p)
    decreases |s| - i
  {
    if i < |s| && p(s[i]) {
      RunAgree(s, t, i + 1, p);
    }
  }

  lemma SpacesAgree(s: string, t: string)
    requires SameShape(s, t)
    ensures forall k :: 0 <= k < |s| ==> IsSpace(s[k]) == IsSpace(t[k])
  {
    forall k | 0 <= k < |s| ensures IsSpace(s[k]) == IsSpace(t[k]) {
      LowerCharClasses(s[k]);
    }
  }

  lemma SpaceRunAgree(s: string, t: string, i: nat)
    requires SameShape(s, t) && i <= |s|
    ensures Run(s, i, IsSpace) == Run(t, i, IsSpace)
  {
    SpacesAgree(s, t);
    RunAgree(s, t, i, IsSpace);
  }

  lemma LettersAgree(s: string, t: string)
    requires SameShape(s, t)
    ensures forall k :: 0 <= k < |s| ==> IsSuffixLetter(s[k]) == IsSuffixLetter(t[k])
  {
    forall k | 0 <= k < |s| ensures IsSuffixLetter(s[k]) == IsSuffixLetter(t[k]) {
      LowerCharClasses(s[k]);
    }
  }

  /** Digits and dots are where both texts hold the same digit or dot. */
  lemma DigitsAgree(s: string, t: string)
    requires SameShape(s, t)
    ensures forall k :: 0 <= k < |s| ==> IsDigit(s[k]) == IsDigit(t[k]) && (s[k] == '.') == (t[k] == '.')
    ensures forall k :: 0 <= k < |s| && (IsDigit(s[k]) || s[k] == '.') ==> s[k] == t[k]
  {
    forall k | 0 <= k < |s| ensures IsDigit(s[k]) == IsDigit(t[k]) && (s[k] == '.') == (t[k] == '.') {
      LowerCharClasses(s[k]);
    }
  }

  lemma OpensslAtAgree(s: string, t: string, p: nat)
    requires SameShape(s, t) && p + 7 <= |s|
    ensures OpensslAt(s, p) == OpensslAt(t, p)
  {
    forall k | 0 <= k < 7 ensures FoldsTo(s[p + k], "openssl"[k]) == FoldsTo(t[p + k], "openssl"[k]) {
      LowerCharClasses(s[p + k]);
    }
  }

  lemma DigitsDotAgree(s: string, t: string, i: nat)
    requires SameShape(s, t) && i <= |s|
    ensures DigitsDot(s, i) == DigitsDot(t, i)
  {
    DigitsAgree(s, t);
    RunAgree(s, t, i, IsDigit);
  }

  lemma {:induction false} DottedEndAgree(s: string, t: string, b: nat)
    requires SameShape(s, t) && b <= |s|
    ensures DottedEnd(s, b) == DottedEnd(t, b)
  {
    DigitsDotAgree(s, t, b);
    if DigitsDot(s, b).Some? {
      var c := DigitsDot(s, b).value;
      DigitsDotAgree(s, t, c);
      if DigitsDot(s, c).Some? {
        DigitsAgree(s, t);
        RunAgree(s, t, DigitsDot(s, c).value, IsDigit);
      }
    }
  }

  /** Past the base, both texts read the same base and suffixes of the same shape. */
  lemma {:induction false} CapturesAgree(s: string, t: string, b: nat, e: nat)
    requires SameShape(s, t) && b <= e <= |s|
    requires forall k :: b <= k < e ==> IsDigit(s[k]) || s[k] == '.'
    ensures s[b..e] == t[b..e]
    ensures Run(s, e, IsSuffixLetter) == Run(t, e, IsSuffixLetter)
    ensures SameShape(s[e..Run(s, e, IsSuffixLetter)], t[e..Run(t, e, IsSuffixLetter)])
  {
    DigitsAgree(s, t);
    LettersAgree(s, t);
    RunAgree(s, t, e, IsSuffixLetter);
  }

  /** Texts of the same shape have matches at the same positions, with the same base and
      suffixes of the same shape. */
  lemma MatchAtAgree(s: string, t: string, p: nat)
    requires SameShape(s, t) && p <= |s|
    ensures MatchAt(s, p).Some? == MatchAt(t, p).Some?
    ensures MatchAt(s, p).Some? ==>
      MatchAt(s, p).value.base == MatchAt(t, p).value.base &&
      SameShape(MatchAt(s, p).value.suffix, MatchAt(t, p).value.suffix)
  {
    if p + 7 <= |s| {
      MatchFoundAgree(s, t, p);
      if MatchAt(s, p).Some? {
        CapturedAgree(s, t, p);
      }
    }
  }

  lemma MatchFoundAgree(s: string, t: string, p: nat)
    requires SameShape(s, t) && p + 7 <= |s|
    ensures MatchAt(s, p).Some? == MatchAt(t, p).Some?
  {
    OpensslAtAgree(s, t, p);
    SpaceRunAgree(s, t, p + 7);
    DottedEndAgree(s, t, Run(s, p + 7, IsSpace));
  }

  lemma CapturedAgree(s: string, t: string, p: nat)
    requires SameShape(s, t) && p + 7 <= |s| && MatchAt(s, p).Some?
    ensures MatchAt(t, p).Some?
    ensures MatchAt(s, p).value.base == MatchAt(t, p).value.base
    ensures SameShape(MatchAt(s, p).value.suffix, MatchAt(t, p).value.suffix)
  {
    OpensslAtAgree(s, t, p);
    SpaceRunAgree(s, t, p + 7);
    var b := Run(s, p + 7, IsSpace);
    DottedEndAgree(s, t, b);
    var e := DottedEnd(s, b).value;
    CapturesAgree(s, t, b, e);
    var f := Run(s, e, IsSuffixLetter);
    assert MatchAt(s, p).value.suffix == s[e..f];
    assert MatchAt(t, p).value.suffix == t[e..f];
  }

  /** Suffixes of the same shape lower-case to the same word. */
  lemma AlikeSuffixes(u: string, v: string)
    requires SameShape(u, v)
    ensures Lower(u) == Lower(v)
  {
    forall k | 0 <= k < |u| ensures Lower(u)[k] == Lower(v)[k] {
      LowerCharClasses(u[k]);
    }
  }

  /** The normalised version does not depend on the case of the text. */
  lemma NormalizeIgnoresCase(s: string, t: string)
    requires Lower(s) == Lower(t)
    ensures Normalize(s) == Normalize(t)
  {
    NormalizeAgree(s, Lower(s));
    NormalizeAgree(t, Lower(t));
  }

  lemma {:induction false} NormalizeAgree(s: string, t: string)
    requires SameShape(s, t)
    ensures Normalize(s) == Normalize(t)
  {
    forall k | 0 <= k <= |s| ensures Starts(s)(k) == Starts(t)(k) {
      MatchAtAgree(s, t, k);
    }
    FirstPosAgree(|s|, 0, Starts(s), Starts(t));
    match FirstPos(|s|, 0, Starts(s))
    case None =>
    case Some(q) =>
      MatchAtAgree(s, t, q);
      AlikeSuffixes(MatchAt(s, q).value.suffix, MatchAt(t, q).value.suffix);
  }

  // ---------------------------------------------------------------------
  // Letter suffixes in bijective base 26
  // ---------------------------------------------------------------------

  predicate IsLowerWord(t: string) { forall k :: 0 <= k < |t| ==> 'a' <= t[k] <= 'z' }

  function Letter(c: char): nat
    requires 'a' <= c <= 'z'
  {
    c as int - 'a' as int + 1
  }

  /** The suffix read as a number in bijective base 26: a = 1, …, z = 26, aa = 27, … */
  function SuffixValue(t: string): nat
    requires IsLowerWord(t)
  {
    if t == [] then 0 else 26 * SuffixValue(t[..|t| - 1]) + Letter(t[|t| - 1])
  }

  function Pow26(n: nat): (r: nat)
    ensures r >= 1
  {
    if n == 0 then 1 else 26 * Pow26(n - 1)
  }

  /** Adding a letter in front adds its value times the weight of its position. */
  lemma {:induction false} SuffixValueFront(c: char, t: string)
    requires 'a' <= c <= 'z' && IsLowerWord(t)
    ensures IsLowerWord([c] + t)
    ensures SuffixValue([c] + t) == Letter(c) * Pow26(|t|) + SuffixValue(t)
  {
    var w := [c] + t;
    if t == [] {
      assert w[..0] == [];
    } else {
      var init := t[..|t| - 1];
      var x := t[|t| - 1];
      assert w[..|w| - 1] == [c] + init;
      SuffixValueFront(c, init);
      assert w[|w| - 1] == x;
      Shift(Letter(c), Pow26(|init|), SuffixValue(init), Letter(x));
    }
  }

  lemma Shift(l: nat, p: nat, v: nat, x: nat)
    ensures 26 * (l * p + v) + x == l * (26 * p) + (26 * v + x)
  {
  }

  /** The loop of the source (lines 62-64): the letters are read from the last one, each
      weighted by the power of 26 of its position. */
  method SuffixNumber(suffix: string) returns (value: nat)
    requires IsLowerWord(suffix)
    ensures value == SuffixValue(suffix)
  {
    value := 0;
    var i := 0;
    var weight := 1;
    while i < |suffix|
      invariant i <= |suffix|
      invariant weight == Pow26(i)
      invariant value == SuffixValue(suffix[|suffix| - i..])
    {
      var ch := suffix[|suffix| - 1 - i];
      SuffixValueFront(ch, suffix[|suffix| - i..]);
      assert [ch] + suffix[|suffix| - i..] == suffix[|suffix| - 1 - i..];
      value := value + Letter(ch) * weight;
      weight := weight * 26;
      i := i + 1;
    }
  }

  /** The value of the k-letter word "aa…a": every k-letter suffix lies in
      [Ones(k), 26 * Ones(k)], so the ranges of different lengths do not overlap. */
  function Ones(k: nat): nat
  {
    if k == 0 then 0 else 26 * Ones(k - 1) + 1
  }

  lemma {:induction false} SuffixValueBounds(t: string)
    requires IsLowerWord(t)
    ensures Ones(|t|) <= SuffixValue(t) <= 26 * Ones(|t|)
  {
    if t != [] {
      SuffixValueBounds(t[..|t| - 1]);
    }
  }

  /** A shorter suffix is always the smaller number. */
  lemma {:induction false} SuffixLengthOrder(t: string, u: string)
    requires IsLowerWord(t) && IsLowerWord(u) && |t| < |u|
    ensures SuffixValue(t) < SuffixValue(u)
  {
    SuffixValueBounds(t);
    SuffixValueBounds(u);
    OnesGrow(|t|, |u|);
  }

  lemma {:induction false} OnesGrow(i: nat, j: nat)
    requires i < j
    ensures 26 * Ones(i) < Ones(j)
  {
    if j > i + 1 {
      OnesGrow(i, j - 1);
    }
  }

  /** Different suffixes give different numbers. */
  lemma SuffixValueInjective(t: string, u: string)
    requires IsLowerWord(t) && IsLowerWord(u) && SuffixValue(t) == SuffixValue(u)
    ensures t == u
  {
    if |t| < |u| {
      SuffixLengthOrder(t, u);
    } else if |u| < |t| {
      SuffixLengthOrder(u, t);
    } else {
      SameLengthInjective(t, u);
    }
  }

  lemma {:induction false} SameLengthInjective(t: string, u: string)
    requires IsLowerWord(t) && IsLowerWord(u) && |t| == |u| && SuffixValue(t) == SuffixValue(u)
    ensures t == u
  {
    if t != [] {
      var ti, ui := t[..|t| - 1], u[..|u| - 1];
      var x, y := Letter(t[|t| - 1]), Letter(u[|u| - 1]);
      var a, b := SuffixValue(ti), SuffixValue(ui);
      LastDigit(a, x, b, y);
      SameLengthInjective(ti, ui);
      assert t[|t| - 1] == u[|u| - 1];
      assert forall k :: 0 <= k < |t| - 1 ==> t[k] == ti[k] && u[k] == ui[k];
    }
  }

  /** Base-26 digits from 1 to 26 are unique. */
  lemma LastDigit(a: nat, x: nat, b: nat, y: nat)
    requires 1 <= x <= 26 && 1 <= y <= 26 && 26 * a + x == 26 * b + y
    ensures a == b && x == y
  {
  }

  // ---------------------------------------------------------------------
  // openssl_version_to_number
  // ---------------------------------------------------------------------

  lemma LowerSuffix(t: string)
    requires IsSuffixWord(t)
    ensures IsLowerWord(Lower(t))
  {
    forall k | 0 <= k < |t| ensures 'a' <= Lower(t)[k] <= 'z' {
      assert Lower(t)[k] == LowerChar(t[k]);
    }
  }

  /** The normalised version: the base, then the suffix value as a fourth component when there is
      a suffix; `None` when the text has no match. */
  function Normalize(verStr: string): (r: Option<string>)
  {
    match Search(verStr)
    case None => None
    case Some(h) =>
      var suffix := Lower(h.suffix);
      LowerSuffix(h.suffix);
      if suffix == [] then Some(h.base) else Some(h.base + "." + NatToText(SuffixValue(suffix)))
  }

  /** The number the normalised text stands for: the three base numbers, then the suffix value
      when there is a suffix. */
  function NumberOf(verStr: string): (r: Option<Release>)
    ensures r.Some? ==> 3 <= |r.value| <= 4
  {
    match Search(verStr)
    case None => None
    case Some(h) =>
      var suffix := Lower(h.suffix);
      LowerSuffix(h.suffix);
      var base := ParseDotted(h.base).value;
      Some(if suffix == [] then base else base + [SuffixValue(suffix)])
  }

  /** `version.parse` reads the normalised text as the number it stands for. */
  lemma NormalizeParses(verStr: string)
    requires Normalize(verStr).Some?
    ensures NumberOf(verStr).Some? && ParseRelease(Normalize(verStr).value) == NumberOf(verStr)
  {
    var h := Search(verStr).value;
    var t := Normalize(verStr).value;
    var suffix := Lower(h.suffix);
    LowerSuffix(h.suffix);
    if suffix == [] {
      ParseReleaseDigits(h.base);
    } else {
      var w := NatToText(SuffixValue(suffix));
      ParseDottedSnoc(h.base, w);
      NatToTextValue(SuffixValue(suffix));
      assert t == h.base + "." + w;
      ParseReleaseDigits(t);
    }
  }

  /** `openssl_version_to_number`, with the suffix loop run as the source runs it. */
  method VersionToNumber(verStr: string) returns (r: Option<string>)
    ensures r == Normalize(verStr)
  {
    var m := Search(verStr);
    if m.None? {
      return None;
    }
    var base := m.value.base;
    var suffix := Lower(m.value.suffix);
    LowerSuffix(m.value.suffix);
    if suffix != [] {
      var value := SuffixNumber(suffix);
      return Some(base + "." + NatToText(value));
    } else {
      return Some(base);
    }
  }

  // ---------------------------------------------------------------------
  // The version texts of the tables
  // ---------------------------------------------------------------------

  /** A run stops exactly where the text stops satisfying `p`. */
  lemma {:induction false} RunExact(s: string, i: nat, j: nat, p: char -> bool)
    requires i <= j <= |s|
    requires forall k :: i <= k < j ==> p(s[k])
    requires j == |s| || !p(s[j])
    ensures Run(s, i, p) == j
    decreases j - i
  {
    if i < j {
      RunExact(s, i + 1, j, p);
    }
  }

  /** Three runs of digits separated by single dots, followed by no further digit. */
  lemma DottedEndExact(s: string, b: nat, c: nat, d: nat, e: nat)
    requires b < c - 1 && c < d - 1 && d < e <= |s|
    requires forall k :: b <= k < c - 1 ==> IsDigit(s[k])
    requires forall k :: c <= k < d - 1 ==> IsDigit(s[k])
    requires forall k :: d <= k < e ==> IsDigit(s[k])
    requires s[c - 1] == '.' && s[d - 1] == '.'
    requires e == |s| || !IsDigit(s[e])
    ensures DottedEnd(s, b) == Some(e)
  {
    RunExact(s, b, c - 1, IsDigit);
    RunExact(s, c, d - 1, IsDigit);
    RunExact(s, d, e, IsDigit);
  }

  /** The pattern found at the front of `s`, with one space before the base. */
  lemma MatchAtFront(s: string, e: nat)
    requires 8 < e <= |s| && OpensslAt(s, 0) && s[7] == ' ' && IsDigit(s[8])
    requires DottedEnd(s, 8) == Some(e)
    requires forall k :: e <= k < |s| ==> IsSuffixLetter(s[k])
    ensures MatchAt(s, 0) == Some(Hit(s[8..e], s[e..]))
  {
    NotSpace(s[8]);
    RunExact(s, 7, 8, IsSpace);
    RunExact(s, e, |s|, IsSuffixLetter);
    assert !(0 + 7 > |s| || !OpensslAt(s, 0));
    assert Run(s, 0 + 7, IsSpace) == 8;
    assert s[e..Run(s, e, IsSuffixLetter)] == s[e..];
  }

  /** A match at the front is the one `re.search` returns. */
  lemma SearchFront(s: string)
    requires MatchAt(s, 0).Some?
    ensures Search(s) == MatchAt(s, 0)
  {
    assert Starts(s)(0);
    assert FirstPos(|s|, 0, Starts(s)) == Some(0);
  }

  /** The version text "d1.d2.d3suf", built from its pieces. */
  function Written(d1: string, d2: string, d3: string, suf: string): string
  {
    d1 + ("." + (d2 + ("." + (d3 + suf))))
  }

  /** "OpenSSL ", three dotted numbers and a lower-case suffix: the match starts at the front
      and captures the numbers and the suffix as written. */
  lemma CanonicalMatch(d1: string, d2: string, d3: string, suf: string)
    requires IsDigitText(d1) && IsDigitText(d2) && IsDigitText(d3) && IsLowerWord(suf)
    ensures Search("OpenSSL " + Written(d1, d2, d3, suf)) == Some(Hit(d1 + "." + d2 + "." + d3, suf))
  {
    var s := "OpenSSL " + Written(d1, d2, d3, suf);
    OpensslFront(Written(d1, d2, d3, suf));
    WrittenPieces(s, d1, d2, d3, suf);
    SearchLaidOut(s, d1, d2, d3, suf);
  }

  lemma SearchLaidOut(s: string, d1: string, d2: string, d3: string, suf: string)
    requires IsDigitText(d1) && IsDigitText(d2) && IsDigitText(d3) && IsLowerWord(suf)
    requires |s| == 10 + |d1| + |d2| + |d3| + |suf| && OpensslAt(s, 0) && s[7] == ' '
    requires s[8..8 + |d1|] == d1 && s[8 + |d1|] == '.'
    requires s[9 + |d1|..9 + |d1| + |d2|] == d2 && s[9 + |d1| + |d2|] == '.'
    requires s[10 + |d1| + |d2|..10 + |d1| + |d2| + |d3|] == d3
    requires s[10 + |d1| + |d2| + |d3|..] == suf
    requires s[8..10 + |d1| + |d2| + |d3|] == d1 + "." + d2 + "." + d3
    ensures Search(s) == Some(Hit(d1 + "." + d2 + "." + d3, suf))
  {
    var e := 10 + |d1| + |d2| + |d3|;
    CanonicalLayout(s, d1, d2, d3, suf);
    assert IsDigit(s[8]) by { assert s[8] == d1[0]; }
    SearchAtFront(s, e);
  }

  /** A version right after "OpenSSL " is the one `re.search` finds. */
  lemma SearchAtFront(s: string, e: nat)
    requires 8 < e <= |s| && OpensslAt(s, 0) && s[7] == ' ' && IsDigit(s[8])
    requires DottedEnd(s, 8) == Some(e)
    requires forall k :: e <= k < |s| ==> IsSuffixLetter(s[k])
    ensures Search(s) == Some(Hit(s[8..e], s[e..]))
  {
    MatchAtFront(s, e);
    SearchFront(s);
  }

  lemma CanonicalLayout(s: string, d1: string, d2: string, d3: string, suf: string)
    requires IsDigitText(d1) && IsDigitText(d2) && IsDigitText(d3) && IsLowerWord(suf)
    requires |s| == 10 + |d1| + |d2| + |d3| + |suf|
    requires s[8..8 + |d1|] == d1 && s[8 + |d1|] == '.'
    requires s[9 + |d1|..9 + |d1| + |d2|] == d2 && s[9 + |d1| + |d2|] == '.'
    requires s[10 + |d1| + |d2|..10 + |d1| + |d2| + |d3|] == d3
    requires s[10 + |d1| + |d2| + |d3|..] == suf
    ensures DottedEnd(s, 8) == Some(10 + |d1| + |d2| + |d3|)
    ensures forall k :: 10 + |d1| + |d2| + |d3| <= k < |s| ==> IsSuffixLetter(s[k])
  {
    var c := 9 + |d1|;
    var d := c + |d2| + 1;
    var e := d + |d3|;
    DigitsAt(s, 8, c - 1, d1);
    DigitsAt(s, c, d - 1, d2);
    DigitsAt(s, d, e, d3);
    DottedEndExact(s, 8, c, d, e);
    forall k | e <= k < |s| ensures IsSuffixLetter(s[k]) {
      assert s[k] == suf[k - e];
    }
  }

  lemma DigitsAt(s: string, i: nat, j: nat, t: string)
    requires i <= j <= |s| && s[i..j] == t && IsDigitText(t)
    ensures forall k :: i <= k < j ==> IsDigit(s[k])
  {
    forall k | i <= k < j ensures IsDigit(s[k]) {
      assert s[k] == t[k - i];
    }
  }

  lemma OpensslFront(w: string)
    ensures OpensslAt("OpenSSL " + w, 0) && ("OpenSSL " + w)[7] == ' '
  {
    var s := "OpenSSL " + w;
    forall k | 0 <= k < 7 ensures FoldsTo(s[k], "openssl"[k]) {
      assert s[k] == "OpenSSL"[k];
    }
  }

  lemma WrittenPieces(s: string, d1: string, d2: string, d3: string, suf: string)
    requires s == "OpenSSL " + Written(d1, d2, d3, suf)
    ensures |s| == 10 + |d1| + |d2| + |d3| + |suf|
    ensures s[8..8 + |d1|] == d1 && s[8 + |d1|] == '.'
    ensures s[9 + |d1|..9 + |d1| + |d2|] == d2 && s[9 + |d1| + |d2|] == '.'
    ensures s[10 + |d1| + |d2|..10 + |d1| + |d2| + |d3|] == d3
    ensures s[10 + |d1| + |d2| + |d3|..] == suf
    ensures s[8..10 + |d1| + |d2| + |d3|] == d1 + "." + d2 + "." + d3
  {
    var r1 := Written(d1, d2, d3, suf);
    var r2 := d2 + ("." + (d3 + suf));
    var r3 := d3 + suf;
    assert s[8..] == r1 && r1[|d1| + 1..] == r2 && r2[|d2| + 1..] == r3;
    DottedPieces(s, d1, d2, d3);
  }

  /** Three numbers and the dots between them, read back as one slice. */
  lemma DottedPieces(s: string, d1: string, d2: string, d3: string)
    requires 10 + |d1| + |d2| + |d3| <= |s|
    requires s[8..8 + |d1|] == d1 && s[8 + |d1|] == '.'
    requires s[9 + |d1|..9 + |d1| + |d2|] == d2 && s[9 + |d1| + |d2|] == '.'
    requires s[10 + |d1| + |d2|..10 + |d1| + |d2| + |d3|] == d3
    ensures s[8..10 + |d1| + |d2| + |d3|] == d1 + "." + d2 + "." + d3
  {
    ConcatAt(s, 8, 8 + |d1|, 9 + |d1|);
    ConcatAt(s, 8, 9 + |d1|, 9 + |d1| + |d2|);
    ConcatAt(s, 8, 9 + |d1| + |d2|, 10 + |d1| + |d2|);
    ConcatAt(s, 8, 10 + |d1| + |d2|, 10 + |d1| + |d2| + |d3|);
  }

  /** A slice is the slices on either side of any point inside it, joined. */
  lemma ConcatAt(s: string, i: nat, j: nat, k: nat)
    requires i <= j <= k <= |s|
    ensures s[i..k] == s[i..j] + s[j..k]
  {
  }

  /** `version.parse(openssl_version_to_number(f"OpenSSL {x}"))` for a table entry; `None`
      stands for the TypeError `version.parse(None)` raises when the text has no match. */
  function Bound(x: string): Option<Release>
  {
    match Normalize("OpenSSL " + x)
    case None => None
    case Some(t) => ParseRelease(t)
  }

  lemma LowerWordUnchanged(t: string)
    requires IsLowerWord(t)
    ensures Lower(t) == t
  {
  }

  /** A table entry written as three numbers and a lower-case suffix stands for those numbers,
      then the suffix value when there is a suffix. */
  lemma BoundWritten(d1: string, d2: string, d3: string, suf: string)
    requires IsDigitText(d1) && IsDigitText(d2) && IsDigitText(d3) && IsLowerWord(suf)
    ensures Bound(Written(d1, d2, d3, suf)) == Some(if suf == [] then [DigitsValue(d1), DigitsValue(d2), DigitsValue(d3)]
      else [DigitsValue(d1), DigitsValue(d2), DigitsValue(d3), SuffixValue(suf)])
  {
    NumberOfWritten(d1, d2, d3, suf);
    BoundIsNumber(Written(d1, d2, d3, suf));
  }

  lemma NumberOfWritten(d1: string, d2: string, d3: string, suf: string)
    requires IsDigitText(d1) && IsDigitText(d2) && IsDigitText(d3) && IsLowerWord(suf)
    ensures Normalize("OpenSSL " + Written(d1, d2, d3, suf)).Some?
    ensures NumberOf("OpenSSL " + Written(d1, d2, d3, suf)) == Some(if suf == [] then [DigitsValue(d1), DigitsValue(d2), DigitsValue(d3)]
      else [DigitsValue(d1), DigitsValue(d2), DigitsValue(d3), SuffixValue(suf)])
  {
    var h := Hit(d1 + "." + d2 + "." + d3, suf);
    var vs := [DigitsValue(d1), DigitsValue(d2), DigitsValue(d3)];
    CanonicalMatch(d1, d2, d3, suf);
    BaseValues(d1, d2, d3);
    NumberOfHit("OpenSSL " + Written(d1, d2, d3, suf), h);
    if suf != [] {
      Snoc3(DigitsValue(d1), DigitsValue(d2), DigitsValue(d3), SuffixValue(suf));
    }
  }

  lemma Snoc3(a: nat, b: nat, c: nat, x: nat)
    ensures [a, b, c] + [x] == [a, b, c, x]
  {
  }

  lemma BoundIsNumber(x: string)
    requires Normalize("OpenSSL " + x).Some?
    ensures Bound(x) == NumberOf("OpenSSL " + x)
  {
    NormalizeParses("OpenSSL " + x);
  }

  lemma BaseValues(d1: string, d2: string, d3: string)
    requires IsDigitText(d1) && IsDigitText(d2) && IsDigitText(d3)
    ensures ParseDotted(d1 + "." + d2 + "." + d3) == Some([DigitsValue(d1), DigitsValue(d2), DigitsValue(d3)])
  {
    var parts := [d1, d2, d3];
    assert forall k :: 0 <= k < |parts| ==> IsDigitText(parts[k]);
    ParseDottedJoin(parts);
    var vs := Values(parts);
    assert vs == [DigitsValue(d1), DigitsValue(d2), DigitsValue(d3)];
    JoinThree(d1, d2, d3, ".");
  }

  /** The number a match with a lower-case suffix stands for. */
  lemma NumberOfHit(s: string, h: Hit)
    requires Search(s) == Some(h) && IsLowerWord(h.suffix)
    ensures Normalize(s).Some?
    ensures NumberOf(s) == Some(if h.suffix == [] then ParseDotted(h.base).value
      else ParseDotted(h.base).value + [SuffixValue(h.suffix)])
  {
    NumberOfSearch(s);
    LowerWordUnchanged(h.suffix);
  }

  lemma NumberOfSearch(s: string)
    requires Search(s).Some?
    ensures Normalize(s).Some?
    ensures IsLowerWord(Lower(Search(s).value.suffix))
    ensures NumberOf(s) == Some(if Lower(Search(s).value.suffix) == [] then ParseDotted(Search(s).value.base).value
      else ParseDotted(Search(s).value.base).value + [SuffixValue(Lower(Search(s).value.suffix))])
  {
    LowerSuffix(Search(s).value.suffix);
  }

  /** A table text written as three numbers and a lower-case suffix, with the number it stands
      for spelled out. */
  lemma BoundIs(x: string, d1: string, d2: string, d3: string, suf: string, r: Release)
    requires IsDigitText(d1) && IsDigitText(d2) && IsDigitText(d3) && IsLowerWord(suf)
    requires x == Written(d1, d2, d3, suf)
    requires r == if suf == [] then [DigitsValue(d1), DigitsValue(d2), DigitsValue(d3)]
      else [DigitsValue(d1), DigitsValue(d2), DigitsValue(d3), SuffixValue(suf)]
    ensures Bound(x) == Some(r)
  {
    BoundWritten(d1, d2, d3, suf);
  }



  // ---------------------------------------------------------------------
  // version_in_range
  // ---------------------------------------------------------------------

  /** `start <= current < end`, with both ends read as table texts; false when any of the
      three does not parse (the exception is caught). */
  predicate VersionInRange(current: string, start: string, end: string)
  {
    match (ParseRelease(current), Bound(start), Bound(end))
    case (Some(c), Some(lo), Some(hi)) => LessEq(lo, c) && Less(c, hi)
    case _ => false
  }

  /** The range is half-open: it holds exactly the releases from its start up to, not including,
      its end, compared as `packaging` compares them, by tuple order of the releases without
      their trailing zeros. */
  lemma InRangeHalfOpen(current: string, start: string, end: string, c: Release, lo: Release, hi: Release)
    requires ParseRelease(current) == Some(c) && Bound(start) == Some(lo) && Bound(end) == Some(hi)
    ensures VersionInRange(current, start, end) <==>
      TupleCmp(TrimZeros(lo), TrimZeros(c)) <= 0 && TupleCmp(TrimZeros(c), TrimZeros(hi)) < 0
  {
    CmpIsTupleOrder(lo, c);
    CmpIsTupleOrder(c, hi);
  }

  /** The start itself is in a non-empty range, the end itself is not. */
  lemma RangeEnds(start: string, end: string, lo: Release, hi: Release)
    requires Bound(start) == Some(lo) && Bound(end) == Some(hi) && lo != [] && hi != [] && Less(lo, hi)
    ensures VersionInRange(DottedText(lo), start, end)
    ensures !VersionInRange(DottedText(hi), start, end)
  {
    ReleaseTextParses(lo);
    ReleaseTextParses(hi);
    CmpFlip(lo, lo);
    CmpFlip(hi, hi);
  }

  /** Whatever fails to parse makes the answer false. */
  lemma RangeParseFailure(current: string, start: string, end: string)
    requires ParseRelease(current).None? || Bound(start).None? || Bound(end).None?
    ensures !VersionInRange(current, start, end)
  {
  }

  // ---------------------------------------------------------------------
  // The tables
  // ---------------------------------------------------------------------

  /** CVE_RANGES, in the order of the source: each CVE with its affected ranges. */
  const CveRanges: seq<(string, seq<(string, string)>)> := [
    ("CVE-2022-1292", [("1.0.2", "1.0.2ze"), ("1.1.1", "1.1.1o"), ("3.0.0", "3.0.3")]),
    ("CVE-2022-2068", [("1.0.2", "1.0.2zf"), ("1.1.1", "1.1.1p"), ("3.0.0", "3.0.4")]),
    ("CVE-2022-4304", [("1.0.2", "1.0.2zg"), ("1.1.1", "1.1.1t"), ("3.0.0", "3.0.8")]),
    ("CVE-2023-0215", [("1.0.2", "1.0.2zg"), ("1.1.1", "1.1.1t"), ("3.0.0", "3.0.8")]),
    ("CVE-2023-0286", [("1.0.2", "1.0.2zg"), ("1.1.1", "1.1.1t"), ("3.0.0", "3.0.8")]),
    ("CVE-2023-0464", [("1.0.2", "1.0.2zh"), ("1.1.1", "1.1.1u"), ("3.0.0", "3.0.9"), ("3.1.0", "3.1.1")]),
    ("CVE-2023-0465", [("1.0.2", "1.0.2zh"), ("1.1.1", "1.1.1u"), ("3.0.0", "3.0.9"), ("3.1.0", "3.1.1")]),
    ("CVE-2023-0466", [("1.0.2", "1.0.2zh"), ("1.1.1", "1.1.1u"), ("3.0.0", "3.0.9"), ("3.1.0", "3.1.1")]),
    ("CVE-2023-3446", [("1.0.2", "1.0.2zi"), ("1.1.1", "1.1.1v"), ("3.0.0", "3.0.10"), ("3.1.0", "3.1.2")]),
    ("CVE-2023-3817", [("1.0.2", "1.0.2zi"), ("1.1.1", "1.1.1v"), ("3.0.0", "3.0.10"), ("3.1.0", "3.1.2")])
  ]

  /** CVE_SEVERITY */
  const CveSeverity: seq<(string, string)> := [
    ("CVE-2022-1292", "Medium"), ("CVE-2022-2068", "High"), ("CVE-2022-4304", "High"),
    ("CVE-2023-0215", "High"), ("CVE-2023-0286", "Medium"), ("CVE-2023-0464", "High"),
    ("CVE-2023-0465", "High"), ("CVE-2023-0466", "High"), ("CVE-2023-3446", "High"),
    ("CVE-2023-3817", "High")
  ]

  /** MIN_SEGURO: the first safe version of each branch, keyed by three- and two-part prefixes. */
  const MinSeguro: seq<(string, string)> := [
    ("1.0.2", "1.0.2zi"), ("1.1.1", "1.1.1v"), ("3.0.0", "3.0.10"), ("3.0", "3.0.10"),
    ("3.1.0", "3.1.2"), ("3.1", "3.1.2")
  ]

  /** `d.get(k)` on a dict literal written as a list of pairs with distinct keys. */
  function Assoc(table: seq<(string, string)>, k: string): (r: Option<string>)
    ensures r.None? <==> forall i :: 0 <= i < |table| ==> table[i].0 != k
    ensures r.Some? ==> exists i :: 0 <= i < |table| && table[i] == (k, r.value)
  {
    if table == [] then None
    else if table[0].0 == k then Some(table[0].1)
    else
      var r := Assoc(table[1..], k);
      assert forall i :: 1 <= i < |table| ==> table[i] == table[1..][i - 1];
      r
  }

  /** The CVE names of the table, each once. */
  lemma CveNamesDistinct()
    ensures forall a, b :: 0 <= a < b < |CveRanges| ==> CveRanges[a].0 != CveRanges[b].0
  {
  }

  /** How the end of the first range of the table reads: "ze" is 26 * 26 + 5 = 681. */
  lemma FirstEndBound()
    ensures Bound("1.0.2ze") == Some([1, 0, 2, 681])
  {
    BoundIs("1.0.2ze", "1", "0", "2", "ze", [1, 0, 2, 681]);
  }

  /** A two-digit last number reads as one number: "3.0.10" is above "3.0.9". */
  lemma TwoDigitBound()
    ensures Bound("3.0.10") == Some([3, 0, 10])
    ensures Bound("3.0.9") == Some([3, 0, 9])
    ensures Less([3, 0, 9], [3, 0, 10])
  {
    TenBound();
    NineBound();
    NineBelowTen();
  }

  lemma NineBelowTen()
    ensures Less([3, 0, 9], [3, 0, 10])
  {
    var a: Release := [3, 0, 9];
    var b: Release := [3, 0, 10];
    assert a[1..] == [0, 9] && b[1..] == [0, 10];
    assert a[1..][1..] == [9] && b[1..][1..] == [10];
    assert Cmp([9], [10]) == -1;
  }

  lemma TenBound()
    ensures Bound("3.0.10") == Some([3, 0, 10])
  {
    BoundIs("3.0.10", "3", "0", "10", "", [3, 0, 10]);
  }

  lemma NineBound()
    ensures Bound("3.0.9") == Some([3, 0, 9])
  {
    BoundIs("3.0.9", "3", "0", "9", "", [3, 0, 9]);
  }

  // ---------------------------------------------------------------------
  // evaluar_vulnerabilidad
  // ---------------------------------------------------------------------

  /** A table of CVEs, each with the half-open version ranges it affects. */
  type CveTable = seq<(string, seq<(string, string)>)>

  /** A test whether a version lies in the range from a start to an end; the script's own is
      `VersionInRange`. The evaluation below is stated for any test, so that its proofs do not
      depend on how the bounds are parsed. */
  type RangeTest = (string, string, string) -> bool

  /** Some range of the list holds `current`. */
  predicate AnyRange(inRange: RangeTest, current: string, ranges: seq<(string, string)>)
  {
    exists j :: 0 <= j < |ranges| && inRange(current, ranges[j].0, ranges[j].1)
  }

  /** For each CVE of the table, whether one of its ranges holds `current`. */
  function Hits(inRange: RangeTest, current: string, table: CveTable): (hits: seq<bool>)
    ensures |hits| == |table|
    ensures forall i :: 0 <= i < |table| ==> (hits[i] <==> AnyRange(inRange, current, table[i].1))
  {
    seq(|table|, i requires 0 <= i < |table| => AnyRange(inRange, current, table[i].1))
  }

  /** Positions, among the first `k`, of the CVEs that are hit. */
  function Affected(hits: seq<bool>, k: nat): (ix: seq<nat>)
    requires k <= |hits|
    ensures forall a :: 0 <= a < |ix| ==> ix[a] < k
    ensures forall a, b :: 0 <= a < b < |ix| ==> ix[a] < ix[b]
    ensures forall i :: 0 <= i < k ==> (i in ix <==> hits[i])
  {
    if k == 0 then []
    else
      var before := Affected(hits, k - 1);
      if hits[k - 1] then before + [k - 1] else before
  }

  /** The CVE names at the given positions of the table. */
  function Names(table: CveTable, ix: seq<nat>): (names: seq<string>)
    requires forall a :: 0 <= a < |ix| ==> ix[a] < |table|
    ensures |names| == |ix| && forall a :: 0 <= a < |ix| ==> names[a] == table[ix[a]].0
  {
    seq(|ix|, a requires 0 <= a < |ix| => table[ix[a]].0)
  }

  /** What `evaluar_vulnerabilidad` returns: the status, the CVEs, the reason and the normalised
      version. */
  datatype Evaluation = Evaluation(estado: Status, cves: seq<string>, motivo: string, parsed: Option<string>)

  /** The three statuses a host can get. */
  datatype Status = Vulnerable | NotVulnerable | NotEvaluated

  /** How a status is written in the Estado column. */
  function StatusText(st: Status): (t: string)
    ensures st.Vulnerable? <==> t == "Vulnerable"
    ensures st.NotVulnerable? <==> t == "No vulnerable"
  {
    match st
    case Vulnerable => "Vulnerable"
    case NotVulnerable => "No vulnerable"
    case NotEvaluated => "No evaluado"
  }

  /** The names of the CVEs that are hit, in table order. */
  function Listed(table: CveTable, hits: seq<bool>): seq<string>
    requires |hits| == |table|
  {
    Names(table, Affected(hits, |table|))
  }

  /** A name is listed exactly when a CVE of that name is hit. */
  lemma ListedMembers(table: CveTable, hits: seq<bool>)
    requires |hits| == |table|
    ensures forall x :: x in Listed(table, hits) <==> exists i :: 0 <= i < |table| && table[i].0 == x && hits[i]
  {
    var ix := Affected(hits, |table|);
    var cves := Listed(table, hits);
    forall x ensures x in cves <==> exists i :: 0 <= i < |table| && table[i].0 == x && hits[i] {
      if x in cves {
        var a :| 0 <= a < |cves| && cves[a] == x;
        assert ix[a] in ix;
      }
      if exists i :: 0 <= i < |table| && table[i].0 == x && hits[i] {
        var i :| 0 <= i < |table| && table[i].0 == x && hits[i];
        assert i in ix;
        var a :| 0 <= a < |ix| && ix[a] == i;
        assert cves[a] == x;
      }
    }
  }

  /** The names are listed in table order and, when the table names each CVE once, each once. */
  lemma ListedOrdered(table: CveTable, hits: seq<bool>)
    requires |hits| == |table|
    ensures forall a, b :: 0 <= a < b < |Listed(table, hits)| ==>
      exists i, j :: 0 <= i < j < |table| && Listed(table, hits)[a] == table[i].0 && Listed(table, hits)[b] == table[j].0
    ensures (forall i, j :: 0 <= i < j < |table| ==> table[i].0 != table[j].0) ==>
      forall a, b :: 0 <= a < b < |Listed(table, hits)| ==> Listed(table, hits)[a] != Listed(table, hits)[b]
  {
    var ix := Affected(hits, |table|);
    var cves := Listed(table, hits);
    forall a, b | 0 <= a < b < |cves|
      ensures exists i, j :: 0 <= i < j < |table| && cves[a] == table[i].0 && cves[b] == table[j].0
    {
      assert ix[a] < ix[b] < |table|;
      assert cves[a] == table[ix[a]].0 && cves[b] == table[ix[b]].0;
    }
    if forall i, j :: 0 <= i < j < |table| ==> table[i].0 != table[j].0 {
      forall a, b | 0 <= a < b < |cves| ensures cves[a] != cves[b] {
        assert ix[a] < ix[b];
      }
    }
  }

  /** The evaluation of what the normaliser made of a version text, against a table. */
  function Classify(parsed: Option<string>, table: CveTable, inRange: RangeTest): Evaluation
  {
    match parsed
    case None => Evaluation(NotEvaluated, [], "Formato no reconocido", None)
    case Some(p) =>
      var cves := Listed(table, Hits(inRange, p, table));
      if cves != [] then Evaluation(Vulnerable, cves, "", Some(p))
      else Evaluation(NotVulnerable, [], "", Some(p))
  }

  /** The evaluation of a version text against the CVE table of the script. */
  function Evaluate(verStr: string): Evaluation
  {
    Classify(Normalize(verStr), CveRanges, VersionInRange)
  }

  /** A text without a match is not evaluated, with the reason given. */
  lemma EvaluateUnrecognised(verStr: string)
    requires forall q :: 0 <= q <= |verStr| ==> MatchAt(verStr, q).None?
    ensures Evaluate(verStr) == Evaluation(NotEvaluated, [], "Formato no reconocido", None)
  {
  }

  /** A recognised version is "Vulnerable" exactly when some CVE affects it, and the CVEs listed
      are exactly those, in table order. */
  lemma ClassifyRecognised(p: string, table: CveTable, inRange: RangeTest)
    ensures Classify(Some(p), table, inRange).parsed == Some(p) && Classify(Some(p), table, inRange).motivo == ""
    ensures Classify(Some(p), table, inRange).estado.Vulnerable? <==> Classify(Some(p), table, inRange).cves != []
    ensures !Classify(Some(p), table, inRange).estado.NotEvaluated?
    ensures forall x :: x in Classify(Some(p), table, inRange).cves <==>
      exists i :: 0 <= i < |table| && table[i].0 == x && AnyRange(inRange, p, table[i].1)
    ensures forall a, b :: 0 <= a < b < |Classify(Some(p), table, inRange).cves| ==>
      exists i, j :: 0 <= i < j < |table| &&
        Classify(Some(p), table, inRange).cves[a] == table[i].0 && Classify(Some(p), table, inRange).cves[b] == table[j].0
  {
    var hits := Hits(inRange, p, table);
    ListedMembers(table, hits);
    ListedOrdered(table, hits);
  }

  /** The script's table names each CVE once, so its reports list no CVE twice. */
  lemma EvaluateListsOnce(verStr: string)
    ensures forall a, b :: 0 <= a < b < |Evaluate(verStr).cves| ==> Evaluate(verStr).cves[a] != Evaluate(verStr).cves[b]
  {
    CveNamesDistinct();
    if Normalize(verStr).Some? {
      ListedOrdered(CveRanges, Hits(VersionInRange, Normalize(verStr).value, CveRanges));
    }
  }

  /** Looking at one more CVE adds its name when it is hit. */
  lemma NamesStep(table: CveTable, hits: seq<bool>, k: nat)
    requires k < |table| == |hits|
    ensures Names(table, Affected(hits, k + 1)) ==
      if hits[k] then Names(table, Affected(hits, k)) + [table[k].0] else Names(table, Affected(hits, k))
  {
    var before := Affected(hits, k);
    if hits[k] {
      assert Affected(hits, k + 1) == before + [k];
      assert forall a :: 0 <= a < |before| ==> (before + [k])[a] == before[a];
    }
  }

  /** The inner loop of the source: over the ranges of one CVE until the first one that holds the
      version. */
  method AnyRangeHolds(inRange: RangeTest, p: string, ranges: seq<(string, string)>) returns (hit: bool)
    ensures hit == AnyRange(inRange, p, ranges)
  {
    hit := false;
    var j := 0;
    while j < |ranges| && !hit
      invariant j <= |ranges|
      invariant hit <==> exists jj :: 0 <= jj < j && inRange(p, ranges[jj].0, ranges[jj].1)
    {
      hit := inRange(p, ranges[j].0, ranges[j].1);
      j := j + 1;
    }
  }

  /** The outer loop of the source: over the CVEs in table order. */
  method EvaluateAgainst(parsed: Option<string>, table: CveTable, inRange: RangeTest) returns (e: Evaluation)
    ensures e == Classify(parsed, table, inRange)
  {
    if parsed.None? {
      return Evaluation(NotEvaluated, [], "Formato no reconocido", None);
    }
    var p := parsed.value;
    ghost var hits := Hits(inRange, p, table);
    var cves: seq<string> := [];
    var k := 0;
    while k < |table|
      invariant k <= |table|
      invariant cves == Names(table, Affected(hits, k))
    {
      var hit := AnyRangeHolds(inRange, p, table[k].1);
      NamesStep(table, hits, k);
      if hit {
        cves := cves + [table[k].0];
      }
      k := k + 1;
    }
    if cves != [] {
      return Evaluation(Vulnerable, cves, "", Some(p));
    }
    return Evaluation(NotVulnerable, [], "", Some(p));
  }

  /** `evaluar_vulnerabilidad` itself, over the script's table. */
  method EvaluateVulnerability(verStr: string) returns (e: Evaluation)
    ensures e == Evaluate(verStr)
  {
    var parsed := VersionToNumber(verStr);
    e := EvaluateAgainst(parsed, CveRanges, VersionInRange);
  }

  // ---------------------------------------------------------------------
  // requiere_actualizacion
  // ---------------------------------------------------------------------

  /** The parts of `base_version`, each number written without leading zeros. */
  function Texts(r: Release): (parts: seq<string>)
    ensures |parts| == |r| && forall i :: 0 <= i < |r| ==> parts[i] == NatToText(r[i])
  {
    seq(|r|, i requires 0 <= i < |r| => NatToText(r[i]))
  }

  /** `".".join(base_parts[:i])`; a slice past the end takes every part. */
  function PrefixKey(r: Release, i: nat): string
  {
    var parts := Texts(r);
    Join(parts[..if i < |parts| then i else |parts|], ".")
  }

  /** The answer once a key of the table is found: the minimum safe version when the release is
      below it, "No" when it is not, "Desconocido" when the minimum cannot be read. */
  function Decide(r: Release, minimum: string, bound: string -> Option<Release>): string
  {
    match bound(minimum)
    case None => "Desconocido"
    case Some(b) => if Less(r, b) then minimum else "No"
  }

  /** The loop of the source from prefix length `i` down to 1. */
  function RequiereFrom(r: Release, i: nat, table: seq<(string, string)>, bound: string -> Option<Release>): string
  {
    if i == 0 then "Desconocido"
    else
      match Assoc(table, PrefixKey(r, i))
      case None => RequiereFrom(r, i - 1, table, bound)
      case Some(m) => Decide(r, m, bound)
  }

  /** What `requiere_actualizacion` answers for what the normaliser gave, with a table of minimum
      safe versions and a reader for them. */
  function RequiereWith(parsed: Option<string>, table: seq<(string, string)>, bound: string -> Option<Release>): string
  {
    match parsed
    case None => "Desconocido"
    case Some(t) =>
      if t == [] then "Desconocido"
      else
        match ParseRelease(t)
        case None => "Desconocido"
        case Some(r) => RequiereFrom(r, 3, table, bound)
  }

  /** `requiere_actualizacion` with the script's table. */
  function Requiere(parsed: Option<string>): string
  {
    RequiereWith(parsed, MinSeguro, Bound)
  }

  /** With no prefix of at most `n` parts among the keys of the table, the answer is "Desconocido". */
  lemma {:induction false} RequiereNoKey(r: Release, n: nat, table: seq<(string, string)>, bound: string -> Option<Release>)
    requires forall i :: 1 <= i <= n ==> Assoc(table, PrefixKey(r, i)).None?
    ensures RequiereFrom(r, n, table, bound) == "Desconocido"
  {
    if n > 0 {
      RequiereNoKey(r, n - 1, table, bound);
    }
  }

  /** Otherwise the longest such prefix decides the answer. */
  lemma {:induction false} RequiereLongestKey(r: Release, n: nat, i: nat, table: seq<(string, string)>, bound: string -> Option<Release>)
    requires 1 <= i <= n && Assoc(table, PrefixKey(r, i)).Some?
    requires forall j :: i < j <= n ==> Assoc(table, PrefixKey(r, j)).None?
    ensures RequiereFrom(r, n, table, bound) == Decide(r, Assoc(table, PrefixKey(r, i)).value, bound)
  {
    if n > i {
      RequiereLongestKey(r, n - 1, i, table, bound);
    }
  }

  /** The answer is always a minimum version of the table, "No" or "Desconocido". */
  lemma {:induction false} RequiereFromRange(r: Release, n: nat, table: seq<(string, string)>, bound: string -> Option<Release>)
    ensures RequiereFrom(r, n, table, bound) in {"No", "Desconocido"} ||
      exists i :: 0 <= i < |table| && RequiereFrom(r, n, table, bound) == table[i].1
  {
    if n > 0 {
      match Assoc(table, PrefixKey(r, n))
      case None => RequiereFromRange(r, n - 1, table, bound);
      case Some(m) =>
    }
  }

  /** `requiere_actualizacion`: "Desconocido" for a missing, empty or unreadable version,
      otherwise the answer of its loop. */
  method RequiereAgainst(parsed: Option<string>, table: seq<(string, string)>, bound: string -> Option<Release>)
    returns (answer: string)
    ensures answer == RequiereWith(parsed, table, bound)
  {
    if parsed.None? || parsed.value == [] {
      return "Desconocido";
    }
    var release := ParseRelease(parsed.value);
    if release.None? {
      return "Desconocido";
    }
    answer := RequiereLoop(release.value, table, bound);
  }

  /** The loop of `requiere_actualizacion`, from the first three parts down to the first one,
      stopping at the first prefix that is a key of the table. */
  method RequiereLoop(r: Release, table: seq<(string, string)>, bound: string -> Option<Release>)
    returns (answer: string)
    ensures answer == RequiereFrom(r, 3, table, bound)
  {
    var parts := Texts(r);
    var i := 3;
    while i > 0
      invariant i <= 3
      invariant RequiereFrom(r, 3, table, bound) == RequiereFrom(r, i, table, bound)
    {
      var refBase := Join(parts[..if i < |parts| then i else |parts|], ".");
      assert refBase == PrefixKey(r, i);
      var found := Assoc(table, refBase);
      if found.Some? {
        var minimum := bound(found.value);
        if minimum.None? {
          return "Desconocido";
        }
        if Less(r, minimum.value) {
          return found.value;
        }
        return "No";
      }
      i := i - 1;
    }
    return "Desconocido";
  }

  /** `requiere_actualizacion` itself, over the script's table. */
  method RequiereUpdate(parsed: Option<string>) returns (answer: string)
    ensures answer == Requiere(parsed)
  {
    answer := RequiereAgainst(parsed, MinSeguro, Bound);
  }

  // ---------------------------------------------------------------------
  // The report: one row per host
  // ---------------------------------------------------------------------

  /** `CVE_SEVERITY.get(cve, "Desconocida")` */
  function SeverityOf(cve: string): string
  {
    match Assoc(CveSeverity, cve)
    case None => "Desconocida"
    case Some(sev) => sev
  }

  /** Every CVE of the range table has a severity. */
  lemma SeverityKnown()
    ensures forall i :: 0 <= i < |CveRanges| ==> Assoc(CveSeverity, CveRanges[i].0).Some?
  {
  }

  /** `sorted(set(...))` of the severities of the listed CVEs. */
  function Severities(cves: seq<string>, severity: string -> string): (sevs: seq<string>)
    ensures StableSort.StrictlyIncreasing(sevs)
    ensures forall y :: y in sevs <==> exists i :: 0 <= i < |cves| && y == severity(cves[i])
  {
    var all := seq(|cves|, i requires 0 <= i < |cves| => severity(cves[i]));
    assert forall i :: 0 <= i < |cves| ==> all[i] == severity(cves[i]);
    StableSort.SortedSetIncreasing(all);
    StableSort.SortedSet(all)
  }

  /** The header row of the sheet. */
  const OpensslHeader: seq<string> := ["IP", "Versión OpenSSL", "Versión Normalizada", "Estado",
    "CVEs relacionados", "Severidad", "¿Requiere actualización?", "Motivo (si no evaluado)"]

  /** What the loop applies to each host. The script's are `Evaluate`, `Requiere` and `SeverityOf`
      (`ScriptEvaluators`); the loop is stated for any, so that its proof does not depend on how
      a version is evaluated. */
  datatype Evaluators = Evaluators(evaluate: string -> Evaluation, requiere: Option<string> -> string,
                                   severity: string -> string)

  function ScriptEvaluators(): Evaluators
  {
    Evaluators(Evaluate, Requiere, SeverityOf)
  }

  /** An item the loop gets through: a dict whose "version" is a text (anything else makes the
      regular expression search raise TypeError) and whose "ip" fits in a cell. */
  predicate HostReadable(item: Json)
  {
    item.JDict? && GetOr(item.fields, "version", JStr("desconocido")).JStr? &&
    CellValue(GetOr(item.fields, "ip", JStr("desconocido")))
  }

  function VersionText(item: Json): string
    requires HostReadable(item)
  {
    GetOr(item.fields, "version", JStr("desconocido")).s
  }

  /** The row written for a host, in the order of the header. */
  function HostRow(item: Json, ev: Evaluators): (row: seq<Json>)
    requires HostReadable(item)
    ensures |row| == |OpensslHeader|
  {
    var e := ev.evaluate(VersionText(item));
    [GetOr(item.fields, "ip", JStr("desconocido")), JStr(VersionText(item)),
     if e.parsed.Some? then JStr(e.parsed.value) else JNone, JStr(StatusText(e.estado)),
     JStr(Join(e.cves, ", ")), JStr(Join(Severities(e.cves, ev.severity), ", ")),
     JStr(ev.requiere(e.parsed)), JStr(e.motivo)]
  }

  /** The fill of the Estado cell: red for "Vulnerable", green for "No vulnerable", none otherwise. */
  function EstadoFill(estado: Status): Option<string>
  {
    match estado
    case Vulnerable => Some("FF9999")
    case NotVulnerable => Some("CCFFCC")
    case NotEvaluated => None
  }

  /** The three counters of the script: vulnerable, not vulnerable, not evaluated. */
  datatype Counts = Counts(vulnerables: nat, noVulnerables: nat, noEvaluados: nat)

  /** One more host moves the counter of its status. */
  function Count(c: Counts, e: Status): Counts
  {
    match e
    case Vulnerable => c.(vulnerables := c.vulnerables + 1)
    case NotVulnerable => c.(noVulnerables := c.noVulnerables + 1)
    case NotEvaluated => c.(noEvaluados := c.noEvaluados + 1)
  }

  /** The counters after a run of statuses. */
  function Tally(estados: seq<Status>): Counts
  {
    if estados == [] then Counts(0, 0, 0)
    else Count(Tally(estados[..|estados| - 1]), estados[|estados| - 1])
  }

  /** Every host is counted exactly once. */
  lemma {:induction false} TallyCountsAll(estados: seq<Status>)
    ensures Tally(estados).vulnerables + Tally(estados).noVulnerables + Tally(estados).noEvaluados == |estados|
  {
    if estados != [] {
      TallyCountsAll(estados[..|estados| - 1]);
    }
  }

  /** The counter of vulnerable hosts counts the red rows. */
  lemma {:induction false} TallyVulnerable(estados: seq<Status>)
    ensures Tally(estados).vulnerables == |set i | 0 <= i < |estados| && EstadoFill(estados[i]) == Some("FF9999")|
  {
    if estados != [] {
      var init := estados[..|estados| - 1];
      TallyVulnerable(init);
      var before := set i | 0 <= i < |init| && EstadoFill(init[i]) == Some("FF9999");
      var after := set i | 0 <= i < |estados| && EstadoFill(estados[i]) == Some("FF9999");
      if EstadoFill(estados[|estados| - 1]) == Some("FF9999") {
        assert after == before + {|estados| - 1};
      } else {
        assert after == before;
      }
    }
  }

  /** What the script leaves behind: the rows under the header, the fill of each Estado cell and
      the counters it prints. */
  datatype OpensslSheet = OpensslSheet(rows: seq<seq<Json>>, fills: seq<Option<string>>, counts: Counts, total: nat)

  /** Whether a decoded document gets through the loop. */
  predicate HostsReadable(doc: Json)
  {
    Iter(doc).Some? && forall k :: 0 <= k < |Iter(doc).value| ==> HostReadable(Iter(doc).value[k])
  }

  /** The rows of the hosts, in order. */
  function HostRows(items: seq<Json>, ev: Evaluators): (rows: seq<seq<Json>>)
    requires forall k :: 0 <= k < |items| ==> HostReadable(items[k])
    ensures |rows| == |items|
  {
    if items == [] then []
    else HostRows(items[..|items| - 1], ev) + [HostRow(items[|items| - 1], ev)]
  }

  /** The statuses of the hosts, in order. */
  function Estados(items: seq<Json>, ev: Evaluators): (estados: seq<Status>)
    requires forall k :: 0 <= k < |items| ==> HostReadable(items[k])
    ensures |estados| == |items|
  {
    if items == [] then []
    else Estados(items[..|items| - 1], ev) + [ev.evaluate(VersionText(items[|items| - 1])).estado]
  }

  /** Row `k` of the sheet is the row of host `k`. */
  lemma {:induction false} HostRowsAt(items: seq<Json>, ev: Evaluators)
    requires forall k :: 0 <= k < |items| ==> HostReadable(items[k])
    ensures forall k :: 0 <= k < |items| ==> HostRows(items, ev)[k] == HostRow(items[k], ev)
  {
    if items != [] {
      var init := items[..|items| - 1];
      assert forall k :: 0 <= k < |init| ==> init[k] == items[k];
      HostRowsAt(init, ev);
    }
  }

  /** Status `k` is the status of host `k`. */
  lemma {:induction false} EstadosAt(items: seq<Json>, ev: Evaluators)
    requires forall k :: 0 <= k < |items| ==> HostReadable(items[k])
    ensures forall k :: 0 <= k < |items| ==> Estados(items, ev)[k] == ev.evaluate(VersionText(items[k])).estado
  {
    if items != [] {
      var init := items[..|items| - 1];
      assert forall k :: 0 <= k < |init| ==> init[k] == items[k];
      EstadosAt(init, ev);
    }
  }

  /** The sheet the loop builds from readable hosts: their rows, the fill that goes with each
      status, the counters of the statuses and the number of hosts. */
  predicate SheetOf(sheet: OpensslSheet, items: seq<Json>, ev: Evaluators)
    requires forall k :: 0 <= k < |items| ==> HostReadable(items[k])
  {
    var estados := Estados(items, ev);
    sheet.rows == HostRows(items, ev) && sheet.total == |items| &&
    |sheet.fills| == |items| && (forall k :: 0 <= k < |items| ==> sheet.fills[k] == EstadoFill(estados[k])) &&
    sheet.counts == Tally(estados)
  }

  /** One more status moves one counter. */
  lemma TallyStep(estados: seq<Status>, e: Status)
    ensures Tally(estados + [e]) == Count(Tally(estados), e)
  {
    assert (estados + [e])[..|estados|] == estados;
  }

  /** One more host adds its row and its status. */
  lemma HostStep(items: seq<Json>, i: nat, ev: Evaluators)
    requires i < |items| && forall k :: 0 <= k <= i ==> HostReadable(items[k])
    ensures HostRows(items[..i + 1], ev) == HostRows(items[..i], ev) + [HostRow(items[i], ev)]
    ensures Estados(items[..i + 1], ev) == Estados(items[..i], ev) + [ev.evaluate(VersionText(items[i])).estado]
  {
    assert items[..i + 1][..i] == items[..i];
  }

  /** One more readable host adds its row, its fill and its count to the sheet of the hosts
      before it. */
  lemma SheetStep(sheet: OpensslSheet, items: seq<Json>, i: nat, ev: Evaluators)
    requires i < |items| && forall k :: 0 <= k <= i ==> HostReadable(items[k])
    requires SheetOf(sheet, items[..i], ev)
    ensures var e := ev.evaluate(VersionText(items[i])).estado;
      SheetOf(OpensslSheet(sheet.rows + [HostRow(items[i], ev)], sheet.fills + [EstadoFill(e)],
                           Count(sheet.counts, e), i + 1), items[..i + 1], ev)
  {
    var e := ev.evaluate(VersionText(items[i])).estado;
    HostStep(items, i, ev);
    TallyStep(Estados(items[..i], ev), e);
  }

  /** The body of the loop for one host: its row and status, or the exception that stops the run. */
  method ProcessHost(item: Json, ev: Evaluators) returns (out: Outcome<(seq<Json>, Status)>)
    ensures out.Done? <==> HostReadable(item)
    ensures out.Done? ==> out.value == (HostRow(item, ev), ev.evaluate(VersionText(item)).estado)
    ensures out.Exit? ==> false
  {
    if !item.JDict? {
      return Crash("AttributeError");
    }
    var ip := GetOr(item.fields, "ip", JStr("desconocido"));
    var versionStr := GetOr(item.fields, "version", JStr("desconocido"));
    if !versionStr.JStr? {
      return Crash("TypeError");
    }
    var e := ev.evaluate(versionStr.s);
    var requiereUpdate := ev.requiere(e.parsed);
    var severidades := Severities(e.cves, ev.severity);
    if !CellValue(ip) {
      return Crash("ValueError");
    }
    var row := [ip, versionStr, if e.parsed.Some? then JStr(e.parsed.value) else JNone, JStr(StatusText(e.estado)),
                JStr(Join(e.cves, ", ")), JStr(Join(severidades, ", ")), JStr(requiereUpdate), JStr(e.motivo)];
    return Done((row, e.estado));
  }

  /** The loop over the hosts, with its three counters. */
  method ExportHosts(items: seq<Json>, ev: Evaluators) returns (out: Outcome<OpensslSheet>)
    ensures out.Done? <==> forall k :: 0 <= k < |items| ==> HostReadable(items[k])
    ensures out.Exit? ==> false
    ensures out.Done? ==> SheetOf(out.value, items, ev)
  {
    var rows: seq<seq<Json>> := [];
    var fills: seq<Option<string>> := [];
    var vulnerables, noVulnerables, noEvaluados := 0, 0, 0;
    var i := 0;
    while i < |items|
      invariant i <= |items| && forall k :: 0 <= k < i ==> HostReadable(items[k])
      invariant SheetOf(OpensslSheet(rows, fills, Counts(vulnerables, noVulnerables, noEvaluados), i), items[..i], ev)
    {
      var line := ProcessHost(items[i], ev);
      if !line.Done? {
        return Crash(line.error);
      }
      var (row, estado) := line.value;
      ghost var before := Counts(vulnerables, noVulnerables, noEvaluados);
      SheetStep(OpensslSheet(rows, fills, before, i), items, i, ev);
      if estado == Vulnerable {
        vulnerables := vulnerables + 1;
      } else if estado == NotVulnerable {
        noVulnerables := noVulnerables + 1;
      } else {
        noEvaluados := noEvaluados + 1;
      }
      assert Counts(vulnerables, noVulnerables, noEvaluados) == Count(before, estado);
      rows := rows + [row];
      fills := fills + [EstadoFill(estado)];
      i := i + 1;
    }
    assert items[..i] == items;
    return Done(OpensslSheet(rows, fills, Counts(vulnerables, noVulnerables, noEvaluados), |items|));
  }

  /** The script run with `argc` command-line words (the program name included) and what it finds
      at `<dir>/openssl_consolidado.json`, evaluating each host with `ev`. */
  method ExportWith(argc: nat, input: Input, ev: Evaluators) returns (out: Outcome<OpensslSheet>)
    ensures argc != 2 ==> out == Exit(1)
    ensures argc == 2 && !input.Decoded? ==> out.Crash?
    ensures argc == 2 && input.Decoded? ==> (out.Done? <==> HostsReadable(input.doc))
    ensures out.Done? ==>
      argc == 2 && input.Decoded? && HostsReadable(input.doc) && SheetOf(out.value, Iter(input.doc).value, ev)
  {
    if argc != 2 {
      return Exit(1);
    }
    if input.Missing? {
      return Crash("FileNotFoundError");
    }
    if input.Malformed? {
      return Crash("JSONDecodeError");
    }
    var data := Iter(input.doc);
    if data.None? {
      return Crash("TypeError");
    }
    out := ExportHosts(data.value, ev);
  }

  /** The script itself. */
  method ExportOpenssl(argc: nat, input: Input) returns (out: Outcome<OpensslSheet>)
    ensures argc != 2 ==> out == Exit(1)
    ensures argc == 2 && !input.Decoded? ==> out.Crash?
    ensures argc == 2 && input.Decoded? ==> (out.Done? <==> HostsReadable(input.doc))
    ensures out.Done? ==> argc == 2 && input.Decoded? && HostsReadable(input.doc)
    ensures out.Done? ==> SheetOf(out.value, Iter(input.doc).value, ScriptEvaluators())
  {
    out := ExportWith(argc, input, ScriptEvaluators());
  }
}
