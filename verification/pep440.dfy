/**
 * Version numbers as `packaging.version` parses and orders them, restricted to final releases:
 * optional surrounding whitespace, an optional `v`, then decimal numbers separated by dots.
 * Two releases compare numerically component by component, the shorter one padded with zeros
 * (PEP 440, "Final releases"). Epochs, pre-, post-, dev- and local segments are outside the
 * model: such text does not parse here.
 */
module Pep440 {
  import opened PyText

  type Release = seq<nat>

  /** `"1.0.2"` gives `[1, 0, 2]`; anything but digits separated by single dots gives `None`. */
  function ParseDotted(t: string): (r: Option<Release>)
    ensures r.Some? ==> |r.value| == |SplitOn(t, ".")|
  {
    var parts := SplitOn(t, ".");
    if forall i :: 0 <= i < |parts| ==> IsDigitText(parts[i]) then Some(Values(parts)) else None
  }

  /** The numbers written by a list of digit texts. */
  function Values(parts: seq<string>): (r: Release)
    requires forall i :: 0 <= i < |parts| ==> IsDigitText(parts[i])
    ensures |r| == |parts|
    ensures forall i :: 0 <= i < |parts| ==> IsDigitText(parts[i]) && r[i] == DigitsValue(parts[i])
  {
    seq(|parts|, i requires 0 <= i < |parts| && IsDigitText(parts[i]) => DigitsValue(parts[i]))
  }

  /** `version.parse(s).release`, or `None` where the model has no parse. */
  function ParseRelease(s: string): Option<Release>
  {
    var t := Strip(s);
    var body := if t != [] && (t[0] == 'v' || t[0] == 'V') then t[1..] else t;
    ParseDotted(body)
  }

  /** The release written with dots (what `base_version` gives for an epoch-free final release). */
  function DottedText(r: Release): string
  {
    Join(seq(|r|, i requires 0 <= i < |r| => NatToText(r[i])), ".")
  }

  lemma DigitTextHasNoDot(t: string)
    requires IsDigitText(t)
    ensures '.' !in t
  {
    forall i | 0 <= i < |t| ensures t[i] != '.' {
      assert IsDigit(t[i]);
    }
  }

  /** Digit texts joined with dots parse to their values. */
  lemma {:induction false} ParseDottedJoin(parts: seq<string>)
    requires parts != [] && forall k :: 0 <= k < |parts| ==> IsDigitText(parts[k])
    ensures ParseDotted(Join(parts, ".")) == Some(Values(parts))
  {
    forall k | 0 <= k < |parts| ensures '.' !in parts[k] {
      DigitTextHasNoDot(parts[k]);
    }
    JoinSplitOn(parts, '.');
  }

  /** One more dotted number parses to one more component. */
  lemma ParseDottedSnoc(t: string, w: string)
    requires ParseDotted(t).Some? && IsDigitText(w)
    ensures ParseDotted(t + "." + w) == Some(ParseDotted(t).value + [DigitsValue(w)])
  {
    var parts := SplitOn(t, ".");
    SplitOnJoin(t, ".");
    JoinSnoc(parts, w, ".");
    ParseDottedJoin(parts + [w]);
    assert Values(parts + [w]) == Values(parts) + [DigitsValue(w)];
  }

  /** Text that begins and ends with a digit is parsed as it stands. */
  lemma ParseReleaseDigits(t: string)
    requires t != [] && IsDigit(t[0]) && IsDigit(t[|t| - 1])
    ensures ParseRelease(t) == ParseDotted(t)
  {
    NotSpace(t[0]);
    NotSpace(t[|t| - 1]);
    StripUnchanged(t);
  }

  /** Writing a release with dots and parsing it back gives the release. */
  lemma {:induction false} DottedTextParses(r: Release)
    requires r != []
    ensures ParseDotted(DottedText(r)) == Some(r)
  {
    var parts := seq(|r|, i requires 0 <= i < |r| => NatToText(r[i]));
    forall k | 0 <= k < |parts| ensures '.' !in parts[k] {
      DigitTextHasNoDot(parts[k]);
    }
    JoinSplitOn(parts, '.');
    assert SplitOn(DottedText(r), ".") == parts;
    assert forall k :: 0 <= k < |parts| ==> IsDigitText(parts[k]);
    forall k | 0 <= k < |parts| ensures DigitsValue(parts[k]) == r[k] {
      NatToTextValue(r[k]);
    }
    assert Values(parts) == r;
  }

  /** `version.parse` reads a release written with dots back as that release. */
  lemma ReleaseTextParses(r: Release)
    requires r != []
    ensures ParseRelease(DottedText(r)) == Some(r)
  {
    var parts := seq(|r|, i requires 0 <= i < |r| => NatToText(r[i]));
    JoinEnds(parts, ".");
    DottedTextParses(r);
    ParseReleaseDigits(DottedText(r));
  }

  // ---------------------------------------------------------------------
  // Ordering
  // ---------------------------------------------------------------------

  /** Zero-padded comparison: -1, 0 or 1 as `a` is below, equal to or above `b`. */
  function Cmp(a: Release, b: Release): (c: int)
    decreases |a| + |b|
    ensures -1 <= c <= 1
  {
    if a == [] && b == [] then 0
    else
      var x := if a == [] then 0 else a[0];
      var y := if b == [] then 0 else b[0];
      if x < y then -1
      else if x > y then 1
      else Cmp(if a == [] then [] else a[1..], if b == [] then [] else b[1..])
  }

  predicate Less(a: Release, b: Release) { Cmp(a, b) < 0 }

  predicate LessEq(a: Release, b: Release) { Cmp(a, b) <= 0 }

  /** The order is antisymmetric. */
  lemma {:induction false} CmpFlip(a: Release, b: Release)
    decreases |a| + |b|
    ensures Cmp(b, a) == -Cmp(a, b)
  {
    if a != [] || b != [] {
      CmpFlip(if a == [] then [] else a[1..], if b == [] then [] else b[1..]);
    }
  }

  /** The order is transitive. */
  lemma {:induction false} CmpTrans(a: Release, b: Release, c: Release)
    requires Cmp(a, b) <= 0 && Cmp(b, c) <= 0
    decreases |a| + |b| + |c|
    ensures Cmp(a, c) <= 0
    ensures Cmp(a, b) < 0 || Cmp(b, c) < 0 ==> Cmp(a, c) < 0
  {
    if a != [] || b != [] || c != [] {
      var x := if a == [] then 0 else a[0];
      var y := if b == [] then 0 else b[0];
      var z := if c == [] then 0 else c[0];
      if x == y && y == z {
        CmpTrans(if a == [] then [] else a[1..], if b == [] then [] else b[1..], if c == [] then [] else c[1..]);
      }
    }
  }

  /** A trailing zero makes no difference to the comparison. */
  lemma {:induction false} CmpTrailingZero(a: Release, b: Release)
    decreases |a| + |b|
    ensures Cmp(a + [0], b) == Cmp(a, b)
  {
    if a == [] {
      CmpZeroes(b);
    } else {
      assert (a + [0])[1..] == a[1..] + [0];
      CmpTrailingZero(a[1..], if b == [] then [] else b[1..]);
    }
  }

  lemma {:induction false} CmpZeroes(b: Release)
    decreases |b|
    ensures Cmp([0], b) == Cmp([], b)
  {
    if b != [] {
      assert Cmp([0], b) == (if 0 < b[0] then -1 else if 0 > b[0] then 1 else Cmp([], b[1..]));
    }
  }

  // ---------------------------------------------------------------------
  // The reference ordering: trailing zeros removed, then tuple comparison
  // ---------------------------------------------------------------------

  /** The release with its trailing zeros removed, as `packaging` keys a version. */
  function TrimZeros(a: Release): (r: Release)
    ensures |r| <= |a| && r == a[..|r|] && (r == [] || r[|r| - 1] != 0)
    ensures forall i :: |r| <= i < |a| ==> a[i] == 0
  {
    if a != [] && a[|a| - 1] == 0 then TrimZeros(a[..|a| - 1]) else a
  }

  /** Python's comparison of two tuples of integers. */
  function TupleCmp(a: Release, b: Release): int
  {
    if a == [] && b == [] then 0
    else if a == [] then -1
    else if b == [] then 1
    else if a[0] < b[0] then -1
    else if a[0] > b[0] then 1
    else TupleCmp(a[1..], b[1..])
  }

  lemma {:induction false} CmpTrimLeft(a: Release, b: Release)
    decreases |a|
    ensures Cmp(TrimZeros(a), b) == Cmp(a, b)
  {
    if a != [] && a[|a| - 1] == 0 {
      var p := a[..|a| - 1];
      assert a == p + [0];
      CmpTrailingZero(p, b);
      CmpTrimLeft(p, b);
    }
  }

  lemma {:induction false} CmpTrimmed(a: Release, b: Release)
    requires a == [] || a[|a| - 1] != 0
    requires b == [] || b[|b| - 1] != 0
    decreases |a| + |b|
    ensures Cmp(a, b) == TupleCmp(a, b)
  {
    if a == [] && b != [] {
      if b[0] == 0 {
        CmpTrimmed([], b[1..]);
      }
    } else if a != [] && b == [] {
      if a[0] == 0 {
        CmpTrimmed(a[1..], []);
      }
    } else if a != [] && b != [] && a[0] == b[0] {
      CmpTrimmed(a[1..], b[1..]);
    }
  }

  /** Zero-padded comparison agrees with `packaging`'s own key: trailing zeros dropped, then
      tuples compared. */
  lemma CmpIsTupleOrder(a: Release, b: Release)
    ensures Cmp(a, b) == TupleCmp(TrimZeros(a), TrimZeros(b))
  {
    CmpTrimLeft(a, b);
    CmpFlip(TrimZeros(a), b);
    CmpTrimLeft(b, TrimZeros(a));
    CmpFlip(TrimZeros(b), TrimZeros(a));
    CmpTrimmed(TrimZeros(a), TrimZeros(b));
  }
}
