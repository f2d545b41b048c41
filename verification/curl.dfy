/**
 * `curl_audit_to_excel.py`: the curl/libcurl audit sheet. A version is affected when its first
 * three numbers lie between 7.17.0 and 8.17.0, both included; an affected host's row is red and
 * every other row green; the columns are then sized after their longest cell, up to 60.
 */
module CurlAudit {
  import opened PyText
  import opened JsonValue
  import opened Report
  import Pep440

  // ---------------------------------------------------------------------
  // parse_semver and is_affected
  // ---------------------------------------------------------------------

  /** The three integers `parse_semver` returns, compared as a Python tuple. */
  datatype Semver = Semver(major: int, minor: int, patch: int)

  const AffectedMin: Semver := Semver(7, 17, 0)
  const AffectedMax: Semver := Semver(8, 17, 0)

  /** Python's `<=` on 3-tuples: the first position where they differ decides. */
  predicate AtMost(a: Semver, b: Semver)
  {
    a.major < b.major ||
    (a.major == b.major && (a.minor < b.minor || (a.minor == b.minor && a.patch <= b.patch)))
  }

  /** The tuple order is a total order. */
  lemma AtMostTotalOrder(a: Semver, b: Semver, c: Semver)
    ensures AtMost(a, a)
    ensures AtMost(a, b) && AtMost(b, a) ==> a == b
    ensures AtMost(a, b) && AtMost(b, c) ==> AtMost(a, c)
    ensures AtMost(a, b) || AtMost(b, a)
  {
  }

  /** On natural numbers the tuple order is the release order `packaging` uses. */
  lemma AtMostIsReleaseOrder(a: Semver, b: Semver)
    requires a.major >= 0 && a.minor >= 0 && a.patch >= 0 && b.major >= 0 && b.minor >= 0 && b.patch >= 0
    ensures AtMost(a, b) <==> Pep440.LessEq([a.major, a.minor, a.patch], [b.major, b.minor, b.patch])
  {
    var x: Pep440.Release := [a.major, a.minor, a.patch];
    var y: Pep440.Release := [b.major, b.minor, b.patch];
    assert Pep440.Cmp(x[1..][1..], y[1..][1..]) ==
      if a.patch < b.patch then -1 else if a.patch > b.patch then 1 else Pep440.Cmp([], []);
    assert Pep440.Cmp(x[1..], y[1..]) ==
      if a.minor < b.minor then -1 else if a.minor > b.minor then 1 else Pep440.Cmp(x[1..][1..], y[1..][1..]);
    assert Pep440.Cmp(x, y) ==
      if a.major < b.major then -1 else if a.major > b.major then 1 else Pep440.Cmp(x[1..], y[1..]);
    assert x[1..] == [a.minor, a.patch] && y[1..] == [b.minor, b.patch];
    assert x[1..][1..] == [a.patch] && y[1..][1..] == [b.patch];
    assert x[1..][1..][1..] == [] && y[1..][1..][1..] == [];
  }

  /** `[int(p) for p in parts]` with `parse` for `int`: `None` when some part does not convert
      (ValueError). */
  function Numbers(parts: seq<string>, parse: string -> Option<int>): (r: Option<seq<int>>)
    ensures r.None? <==> exists i :: 0 <= i < |parts| && parse(parts[i]).None?
    ensures r.Some? ==> |r.value| == |parts| && forall i :: 0 <= i < |parts| ==> parse(parts[i]) == Some(r.value[i])
  {
    if parts == [] then Some([])
    else
      var init := parts[..|parts| - 1];
      assert forall i :: 0 <= i < |init| ==> init[i] == parts[i];
      match Numbers(init, parse)
      case None => None
      case Some(ns) => (
        match parse(parts[|parts| - 1])
        case None => None
        case Some(n) => Some(ns + [n]))
  }

  /** The tuple made of two or three converted parts, padded with a zero patch level. */
  function FromParts(parts: seq<string>, parse: string -> Option<int>): (t: Option<Semver>)
    requires 2 <= |parts| <= 3
    ensures t.None? <==> exists i :: 0 <= i < |parts| && parse(parts[i]).None?
    ensures t.Some? ==>
      parse(parts[0]) == Some(t.value.major) && parse(parts[1]) == Some(t.value.minor) &&
      (if |parts| == 3 then parse(parts[2]) == Some(t.value.patch) else t.value.patch == 0)
  {
    match Numbers(parts, parse)
    case None => None
    case Some(nums) => Some(Semver(nums[0], nums[1], if |nums| == 3 then nums[2] else 0))
  }

  /** The first (at most three) dot-separated parts of the stripped text. */
  function Leading(ver: string): (parts: seq<string>)
    ensures 1 <= |parts| <= 3
    ensures |parts| == 1 <==> |SplitOn(Strip(ver), ".")| == 1
    ensures |parts| == if |SplitOn(Strip(ver), ".")| < 3 then |SplitOn(Strip(ver), ".")| else 3
    ensures parts == SplitOn(Strip(ver), ".")[..|parts|]
  {
    var all := SplitOn(Strip(ver), ".");
    all[..if |all| < 3 then |all| else 3]
  }

  /** `parse_semver(ver)` for a text. */
  function ParseSemver(ver: string): (t: Option<Semver>)
  {
    if ver == [] || ver == "NOT_INSTALLED" || |Leading(ver)| < 2 then None
    else FromParts(Leading(ver), ParseInt)
  }

  /** The loops of `parse_semver` on the leading parts: convert each, then pad with zeros to three. */
  method ConvertParts(parts: seq<string>, parse: string -> Option<int>) returns (t: Option<Semver>)
    requires 2 <= |parts| <= 3
    ensures t == FromParts(parts, parse)
  {
    var nums: seq<int> := [];
    var i := 0;
    while i < |parts|
      invariant i <= |parts| && Numbers(parts[..i], parse) == Some(nums)
    {
      assert parts[..i + 1][..i] == parts[..i];
      var n := parse(parts[i]);
      if n.None? {
        assert Numbers(parts[..i + 1], parse).None?;
        NumbersNonePrefix(parts, i + 1, parse);
        return None;
      }
      nums := nums + [n.value];
      i := i + 1;
    }
    assert parts[..i] == parts;
    ghost var converted := nums;
    while |nums| < 3
      invariant 2 <= |nums| <= 3 && nums[..|converted|] == converted && |converted| == |parts|
      invariant |nums| == 3 && |converted| < 3 ==> nums[2] == 0
      decreases 3 - |nums|
    {
      nums := nums + [0];
    }
    return Some(Semver(nums[0], nums[1], nums[2]));
  }

  /** A part that does not convert spoils the whole list. */
  lemma NumbersNonePrefix(parts: seq<string>, j: nat, parse: string -> Option<int>)
    requires j <= |parts| && Numbers(parts[..j], parse).None?
    ensures Numbers(parts, parse).None?
  {
    var i :| 0 <= i < j && parse(parts[..j][i]).None?;
    assert parse(parts[i]).None?;
  }

  /** `parse_semver(ver)` as the script runs it. */
  method ParseSemverLoop(ver: string) returns (t: Option<Semver>)
    ensures t == ParseSemver(ver)
  {
    if ver == [] || ver == "NOT_INSTALLED" {
      return None;
    }
    var parts := SplitOn(Strip(ver), ".");
    if |parts| < 2 {
      return None;
    }
    t := ConvertParts(parts[..if |parts| < 3 then |parts| else 3], ParseInt);
  }

  /** A text gives no version when it is empty, "NOT_INSTALLED", has no dot after stripping, or
      one of its first three parts is not an integer; otherwise it gives three numbers. */
  lemma ParseSemverNone(ver: string)
    ensures ParseSemver(ver).None? <==>
      ver == [] || ver == "NOT_INSTALLED" || '.' !in Strip(ver) ||
      exists i :: 0 <= i < |Leading(ver)| && ParseInt(Leading(ver)[i]).None?
  {
    var t := Strip(ver);
    if '.' in t {
      var j :| 0 <= j < |t| && t[j] == '.';
      FindFirstChar(t, '.', j);
    } else {
      FindCharAbsent(t, '.');
    }
  }

  /** The first occurrence of a character is found. */
  lemma {:induction false} FindFirstChar(s: string, c: char, j: nat)
    requires j < |s| && s[j] == c
    ensures Find(s, [c]).Some?
  {
    var i := j;
    while i > 0 && c in s[..i]
      invariant 0 <= i <= j && s[i] == c
      decreases i
    {
      var k :| 0 <= k < i && s[..i][k] == c;
      i := k;
    }
    if i == 0 {
      assert c !in s[..0];
    }
    FindChar(s, c, i);
  }

  /** `str(a) + "." + str(b) + "." + str(c)` */
  function Dotted(parts: seq<nat>): string
  {
    Join(seq(|parts|, i requires 0 <= i < |parts| => NatToText(parts[i])), ".")
  }

  /** Three numbers written with dots read back as themselves. */
  lemma ParseSemverThree(a: nat, b: nat, c: nat)
    ensures ParseSemver(Dotted([a, b, c])) == Some(Semver(a, b, c))
  {
    ParseSemverDotted([a, b, c]);
  }

  /** Two numbers written with a dot read back with a zero patch level. */
  lemma ParseSemverTwo(a: nat, b: nat)
    ensures ParseSemver(Dotted([a, b])) == Some(Semver(a, b, 0))
  {
    ParseSemverDotted([a, b]);
  }

  /** Parts beyond the third are dropped. */
  lemma ParseSemverFour(a: nat, b: nat, c: nat, d: nat)
    ensures ParseSemver(Dotted([a, b, c, d])) == Some(Semver(a, b, c))
  {
    ParseSemverDotted([a, b, c, d]);
  }

  /** Numbers written with dots read back as the first three of them, a missing patch level
      as zero. */
  lemma ParseSemverDotted(ns: seq<nat>)
    requires 2 <= |ns|
    ensures ParseSemver(Dotted(ns)) == Some(Semver(ns[0], ns[1], if |ns| >= 3 then ns[2] else 0))
  {
    var parts := LeadingDotted(ns);
    FromPartsOf(parts, ns);
  }

  /** The leading parts of numbers written with dots read as the first (at most three) numbers,
      and they decide the version. */
  lemma LeadingDotted(ns: seq<nat>) returns (parts: seq<string>)
    requires 2 <= |ns|
    ensures parts == Leading(Dotted(ns)) && |parts| == if |ns| < 3 then |ns| else 3
    ensures forall i :: 0 <= i < |parts| ==> ParseInt(parts[i]) == Some(ns[i])
    ensures ParseSemver(Dotted(ns)) == FromParts(parts, ParseInt)
  {
    ParseDottedParts(ns);
    parts := Leading(Dotted(ns));
    assert forall i :: 0 <= i < |parts| ==> parts[i] == NatToText(ns[i]);
  }

  /** Parts that read as numbers give those numbers, a missing third one as zero. */
  lemma FromPartsOf(parts: seq<string>, ns: seq<nat>)
    requires 2 <= |parts| <= 3 && |parts| <= |ns|
    requires forall i :: 0 <= i < |parts| ==> ParseInt(parts[i]) == Some(ns[i])
    ensures FromParts(parts, ParseInt) == Some(Semver(ns[0], ns[1], if |parts| == 3 then ns[2] else 0))
  {
    assert FromParts(parts, ParseInt).Some?;
  }

  /** Numbers written with dots split back into their texts, each of which reads as its number. */
  lemma ParseDottedParts(ns: seq<nat>)
    requires 2 <= |ns|
    ensures Strip(Dotted(ns)) == Dotted(ns)
    ensures SplitOn(Dotted(ns), ".") == seq(|ns|, i requires 0 <= i < |ns| => NatToText(ns[i]))
    ensures forall i :: 0 <= i < |ns| ==> ParseInt(NatToText(ns[i])) == Some(ns[i])
    ensures Dotted(ns) != [] && Dotted(ns) != "NOT_INSTALLED"
  {
    DottedSplit(ns);
    DottedStrip(ns);
    forall i | 0 <= i < |ns| ensures ParseInt(NatToText(ns[i])) == Some(ns[i]) {
      IntTextRoundTrip(ns[i]);
    }
  }

  /** Numbers written with dots split back into their texts. */
  lemma DottedSplit(ns: seq<nat>)
    requires 2 <= |ns|
    ensures SplitOn(Dotted(ns), ".") == seq(|ns|, i requires 0 <= i < |ns| => NatToText(ns[i]))
  {
    var texts := seq(|ns|, i requires 0 <= i < |ns| => NatToText(ns[i]));
    forall k | 0 <= k < |texts| ensures '.' !in texts[k] {
      Pep440.DigitTextHasNoDot(texts[k]);
    }
    JoinSplitOn(texts, '.');
  }

  /** Numbers written with dots start and end with a digit, so stripping leaves them alone. */
  lemma DottedStrip(ns: seq<nat>)
    requires 2 <= |ns|
    ensures Strip(Dotted(ns)) == Dotted(ns)
    ensures Dotted(ns) != [] && Dotted(ns) != "NOT_INSTALLED"
  {
    var texts := seq(|ns|, i requires 0 <= i < |ns| => NatToText(ns[i]));
    JoinEnds(texts, ".");
    var s := Dotted(ns);
    NotSpace(s[0]);
    NotSpace(s[|s| - 1]);
    StripUnchanged(s);
    assert s[0] != 'N';
  }

  /** `is_affected(ver)` */
  predicate IsAffected(ver: string)
  {
    match ParseSemver(ver)
    case None => false
    case Some(t) => AtMost(AffectedMin, t) && AtMost(t, AffectedMax)
  }

  /** A version written as three numbers is affected exactly when it lies between the two bounds,
      both included; text that does not parse is never affected. */
  lemma IsAffectedThree(a: nat, b: nat, c: nat)
    ensures IsAffected(Dotted([a, b, c])) <==> AtMost(Semver(7, 17, 0), Semver(a, b, c)) && AtMost(Semver(a, b, c), Semver(8, 17, 0))
  {
    ParseSemverThree(a, b, c);
  }

  lemma UnparsedNotAffected(ver: string)
    requires ParseSemver(ver).None?
    ensures !IsAffected(ver)
  {
  }

  // ---------------------------------------------------------------------
  // The sheet
  // ---------------------------------------------------------------------

  /** The columns: the header and the key the value is copied from; `None` for the computed status. */
  const CurlColumns: seq<(string, Option<string>)> := [
    ("IP (inventario)", Some("ip_from_inventory")), ("Host (inventario)", Some("inventory_name")),
    ("Hostname", Some("hostname")), ("FQDN", Some("fqdn")), ("OS", Some("os")),
    ("OS Version", Some("os_version")), ("Kernel", Some("kernel")),
    ("curl instalado", Some("curl_installed")), ("curl version", Some("curl_version")),
    ("libcurl version", Some("libcurl_version")), ("Backend hint", Some("ssl_backend_hint")),
    ("Usa GnuTLS", Some("uses_gnutls")), ("Menciona libssh/libssh2", Some("mentions_libssh")),
    ("Rango afectado", Some("affected_range")), ("Estado", None)
  ]

  const Red: string := "FFC7CE"
  const Green: string := "C6EFCE"

  /** `installed and is_affected(ver)`: the version is looked at only when curl is installed; a
      version that is empty, zero or None is not affected, and one that is non-empty but not a
      text makes `strip` raise AttributeError. */
  function AffectedOf(fields: seq<(string, Json)>): Outcome<bool>
  {
    var ver := GetOr(fields, "curl_version", JStr(""));
    if !Truthy(Get(fields, "curl_installed")) || !Truthy(ver) then Done(false)
    else if !ver.JStr? then Crash("AttributeError")
    else Done(IsAffected(ver.s))
  }

  function StatusText(affected: bool): string
  {
    if affected then "AFECTADA" else "NO AFECTADA"
  }

  /** The values of a row: the status in the computed column, `row.get(key, "")` elsewhere. */
  function RowValues(fields: seq<(string, Json)>, affected: bool): (values: seq<Json>)
    ensures |values| == |CurlColumns|
    ensures forall c :: 0 <= c < |CurlColumns| ==>
      values[c] == if CurlColumns[c].1.None? then JStr(StatusText(affected)) else GetOr(fields, CurlColumns[c].1.value, JStr(""))
  {
    seq(|CurlColumns|, c requires 0 <= c < |CurlColumns| =>
      if CurlColumns[c].1.None? then JStr(StatusText(affected)) else GetOr(fields, CurlColumns[c].1.value, JStr("")))
  }

  /** A row written for a host, and the fill of each of its cells. */
  datatype CurlRow = CurlRow(values: seq<Json>, fills: seq<string>)

  /** The body of the loop for one record; a value that is a list or a dict makes `ws.append`
      raise ValueError. */
  function HostRow(item: Json): (r: Outcome<CurlRow>)
    ensures r.Exit? ==> false
    ensures !item.JDict? ==> r == Crash("AttributeError")
    ensures item.JDict? && AffectedOf(item.fields).Crash? ==> r == Crash("AttributeError")
    ensures item.JDict? && AffectedOf(item.fields).Done? ==>
      (r.Done? <==> forall c :: 0 <= c < |CurlColumns| ==> CellValue(RowValues(item.fields, AffectedOf(item.fields).value)[c]))
    ensures !r.Done? && item.JDict? && AffectedOf(item.fields).Done? ==> r == Crash("ValueError")
    ensures r.Done? ==>
      (item.JDict? && AffectedOf(item.fields).Done? &&
       r.value.values == RowValues(item.fields, AffectedOf(item.fields).value))
  {
    if !item.JDict? then Crash("AttributeError")
    else
      match AffectedOf(item.fields)
      case Done(affected) =>
        var values := RowValues(item.fields, affected);
        if exists c :: 0 <= c < |values| && !CellValue(values[c]) then Crash("ValueError")
        else Done(CurlRow(values, seq(|CurlColumns|, _ => if affected then Red else Green)))
      case _ => Crash("AttributeError")
  }

  /** Every cell of a row gets the same fill, red exactly when the host is affected, and the
      status column says which. */
  lemma RowFill(item: Json)
    requires HostRow(item).Done?
    ensures item.JDict? && AffectedOf(item.fields).Done?
    ensures var affected := AffectedOf(item.fields).value;
      |HostRow(item).value.fills| == |CurlColumns| &&
      (forall c :: 0 <= c < |CurlColumns| ==> HostRow(item).value.fills[c] == if affected then Red else Green) &&
      HostRow(item).value.values[14] == JStr(StatusText(affected))
  {
  }

  /** How long a cell's text is; an empty cell counts 0. */
  function CellLength(v: Json): nat
  {
    if v.JNone? then 0 else |PyStr(v)|
  }

  function HeaderRow(): (row: seq<Json>)
    ensures |row| == |CurlColumns|
  {
    seq(|CurlColumns|, c requires 0 <= c < |CurlColumns| => JStr(CurlColumns[c].0))
  }

  /** The sheet: the header, one row per record, the fills of the data rows and the widths. */
  datatype CurlSheet = CurlSheet(rows: seq<seq<Json>>, fills: seq<seq<string>>, widths: seq<nat>)

  /** `autosize_columns(ws)`: the width of each column is its longest non-empty cell, header
      included, plus two, but at most 60. */
  method AutosizeColumns(rows: seq<seq<Json>>, ncols: nat) returns (widths: seq<nat>)
    ensures |widths| == ncols
    ensures forall c :: 0 <= c < ncols ==>
      widths[c] == var m := ColumnMax(Lengths(rows, CellLength), c); if m + 2 < 60 then m + 2 else 60
  {
    widths := ColumnWidths(Lengths(rows, CellLength), ncols, 0, 60);
    forall c | 0 <= c < ncols
      ensures widths[c] == var m := ColumnMax(Lengths(rows, CellLength), c); if m + 2 < 60 then m + 2 else 60
    {
      ClampNoFloor(ColumnMax(Lengths(rows, CellLength), c), 60);
    }
  }

  /** The loop over the host records: the header row, then one row and one fill per record,
      or the exception the first bad record raises. */
  method CollectRows(items: seq<Json>) returns (out: Outcome<(seq<seq<Json>>, seq<seq<string>>)>)
    ensures out.Done? <==> MapAll(items, HostRow).Done?
    ensures !out.Done? ==> out == MapAll(items, HostRow).PropagateFailure()
    ensures out.Done? ==>
      var rows := MapAll(items, HostRow).value;
      |out.value.0| == |rows| + 1 && |out.value.1| == |rows| && out.value.0[0] == HeaderRow() &&
      (forall r :: 0 <= r < |rows| ==> out.value.0[r + 1] == rows[r].values && out.value.1[r] == rows[r].fills)
  {
    var rows: seq<seq<Json>> := [HeaderRow()];
    var fills: seq<seq<string>> := [];
    ghost var done: seq<CurlRow> := [];
    var i := 0;
    while i < |items|
      invariant i <= |items| && MapAll(items[..i], HostRow) == Done(done)
      invariant |rows| == i + 1 && |fills| == i && |done| == i && rows[0] == HeaderRow()
      invariant forall r :: 0 <= r < i ==> rows[r + 1] == done[r].values && fills[r] == done[r].fills
    {
      var row := HostRow(items[i]);
      MapAllStep(items, i, HostRow, done);
      if !row.Done? {
        MapAllStop(items, i, HostRow);
        return row.PropagateFailure();
      }
      rows := rows + [row.value.values];
      fills := fills + [row.value.fills];
      done := done + [row.value];
      i := i + 1;
    }
    assert items[..i] == items;
    return Done((rows, fills));
  }

  /** The script run with `argc` command-line words and what it finds at the input path: fewer
      than three words exit with 1; a missing file, text that is not JSON and a document that
      cannot be iterated raise; the first record whose row raises ends the run; otherwise the
      sheet with every record's row and fill, and each column sized by `autosize_columns`. */
  method ExportCurl(argc: nat, input: Input) returns (out: Outcome<CurlSheet>)
    ensures argc < 3 ==> out == Exit(1)
    ensures argc >= 3 && input.Missing? ==> out == Crash("FileNotFoundError")
    ensures argc >= 3 && input.Malformed? ==> out == Crash("JSONDecodeError")
    ensures argc >= 3 && input.Decoded? && Iter(input.doc).None? ==> out == Crash("TypeError")
    ensures argc >= 3 && input.Decoded? && Iter(input.doc).Some? && !MapAll(Iter(input.doc).value, HostRow).Done? ==>
      out == MapAll(Iter(input.doc).value, HostRow).PropagateFailure()
    ensures argc >= 3 && input.Decoded? && Iter(input.doc).Some? && MapAll(Iter(input.doc).value, HostRow).Done? ==>
      out.Done?
    ensures out.Done? ==>
      var rows := MapAll(Iter(input.doc).value, HostRow).value;
      |out.value.rows| == |rows| + 1 && |out.value.fills| == |rows| && out.value.rows[0] == HeaderRow() &&
      (forall r :: 0 <= r < |rows| ==> out.value.rows[r + 1] == rows[r].values && out.value.fills[r] == rows[r].fills)
    ensures out.Done? ==> |out.value.widths| == |CurlColumns|
    ensures out.Done? ==> forall c :: 0 <= c < |CurlColumns| ==>
      out.value.widths[c] == var m := ColumnMax(Lengths(out.value.rows, CellLength), c); if m + 2 < 60 then m + 2 else 60
  {
    if argc < 3 {
      return Exit(1);
    }
    if !input.Decoded? {
      return Crash(if input.Missing? then "FileNotFoundError" else "JSONDecodeError");
    }
    var data := Iter(input.doc);
    if data.None? {
      return Crash("TypeError");
    }
    var collected := CollectRows(data.value);
    if !collected.Done? {
      return collected.PropagateFailure();
    }
    var (rows, fills) := collected.value;
    var widths := AutosizeColumns(rows, |CurlColumns|);
    return Done(CurlSheet(rows, fills, widths));
  }
}
