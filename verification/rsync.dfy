/**
 * `exportar_rsync_versiones.py` and its second version `exportar_rsync_versionesV2.py`: one row
 * per host of the rsync audit. The version is the third word of `rsync --version` when the output
 * mentions "version"; it is vulnerable below 3.4.0. The second script adds the places where rsync
 * was seen in use and three text columns.
 */
module RsyncReport {
  import opened PyText
  import opened JsonValue
  import opened Report
  import Pep440

  // ---------------------------------------------------------------------
  // The version token and its classification (shared by both scripts)
  // ---------------------------------------------------------------------

  const NotInstalledText: string := "No instalado"
  const UnknownText: string := "Desconocida"

  /** The token the scripts write in the "Versión RSYNC" column. */
  function VersionToken(output: string): string
  {
    if Contains(Lower(output), "version") then
      var ws := Words(output);
      if |ws| >= 3 then ws[2] else UnknownText
    else NotInstalledText
  }

  /** The token is the third word when "version" is mentioned and there are three words,
      "Desconocida" when it is mentioned with fewer words, "No instalado" when it is not. */
  lemma VersionTokenCases(output: string)
    ensures Contains(Lower(output), "version") && |Words(output)| >= 3 ==> VersionToken(output) == Words(output)[2]
    ensures Contains(Lower(output), "version") && |Words(output)| < 3 ==> VersionToken(output) == UnknownText
    ensures !Contains(Lower(output), "version") <==> VersionToken(output) == NotInstalledText
  {
    if Contains(Lower(output), "version") && |Words(output)| >= 3 {
      var w := Words(output)[2];
      assert IsWord(w);
      assert NotInstalledText[2] == ' ';
      assert w != NotInstalledText by {
        if |w| >= 3 {
          assert !IsSpace(w[2]);
        }
      }
    }
  }

  datatype Status = NotInstalled | Vulnerable | NotVulnerable | InvalidVersion

  function StatusText(s: Status): string
  {
    match s
    case NotInstalled => "No instalado"
    case Vulnerable => "Vulnerable"
    case NotVulnerable => "No vulnerable"
    case InvalidVersion => "Versión no válida"
  }

  /** The cell formats of the two sheets. */
  datatype Format = Plain | Header | SafeFormat | VulnerableFormat | WrapFormat

  const Fixed: Pep440.Release := [3, 4, 0]

  /** The status of a token: passed through when not installed, else its version against 3.4.0,
      "Versión no válida" when `version.parse` fails. */
  function Classify(token: string): Status
  {
    if token == NotInstalledText then NotInstalled
    else
      match Pep440.ParseRelease(token)
      case None => InvalidVersion
      case Some(r) => if Pep440.Less(r, Fixed) then Vulnerable else NotVulnerable
  }

  /** The format of the status cell: safe for "No instalado" and "No vulnerable", the vulnerable
      format for "Vulnerable" and "Versión no válida". */
  function StatusFormat(s: Status): (f: Format)
    ensures f == SafeFormat <==> s.NotInstalled? || s.NotVulnerable?
    ensures f == VulnerableFormat <==> s.Vulnerable? || s.InvalidVersion?
  {
    if s.NotInstalled? || s.NotVulnerable? then SafeFormat else VulnerableFormat
  }

  /** A release written with dots is vulnerable exactly when it is below 3.4.0. */
  lemma ClassifyRelease(r: Pep440.Release)
    requires r != []
    ensures Classify(Pep440.DottedText(r)) == if Pep440.Less(r, Fixed) then Vulnerable else NotVulnerable
  {
    Pep440.ReleaseTextParses(r);
    var parts := seq(|r|, i requires 0 <= i < |r| => NatToText(r[i]));
    JoinEnds(parts, ".");
  }

  /** Text without a dot that starts with a letter other than `v` does not parse as a version. */
  lemma NoRelease(t: string)
    requires t != [] && !IsDigit(t[0]) && t[0] != 'v' && t[0] != 'V' && !IsSpace(t[0]) && !IsSpace(t[|t| - 1])
    requires '.' !in t
    ensures Pep440.ParseRelease(t).None?
  {
    StripUnchanged(t);
    FindCharAbsent(t, '.');
    assert SplitOn(t, ".") == [t];
    assert !IsDigitText(SplitOn(t, ".")[0]);
  }

  /** "Desconocida" and "No instalado" never reach the comparison with 3.4.0: the first is an invalid
      version, the second passes through. */
  lemma PlaceholderStatus()
    ensures Classify(UnknownText) == InvalidVersion
    ensures Classify(NotInstalledText) == NotInstalled
  {
    NoRelease(UnknownText);
  }

  /** A host is reported "No instalado" exactly when its output does not mention "version". */
  lemma NotInstalledIff(output: string)
    ensures Classify(VersionToken(output)) == NotInstalled <==> !Contains(Lower(output), "version")
  {
    VersionTokenCases(output);
    if Contains(Lower(output), "version") && |Words(output)| < 3 {
      PlaceholderStatus();
    }
  }

  // ---------------------------------------------------------------------
  // The rows
  // ---------------------------------------------------------------------

  /** A written cell: its value and its format. */
  datatype Cell = Cell(value: Json, format: Format)

  /** The fields one host contributes to either sheet. */
  datatype HostInfo = HostInfo(ip: Json, token: string, status: Status)

  /** `info.get(...)` and the version rule for one host; a record that is not a dict, or an output
      that is not text, makes `.get` or `.lower` raise AttributeError. */
  function InfoOf(info: Json): (r: Outcome<HostInfo>)
    ensures r.Done? ==> info.JDict? && r.value.status == Classify(r.value.token)
    ensures r.Done? ==>
      GetOr(info.fields, "rsync_output", JStr("")).JStr? &&
      r.value.token == VersionToken(GetOr(info.fields, "rsync_output", JStr("")).s)
    ensures r.Exit? ==> false
  {
    if !info.JDict? then Crash("AttributeError")
    else
      var output := GetOr(info.fields, "rsync_output", JStr(""));
      if !output.JStr? then Crash("AttributeError")
      else
        var token := VersionToken(output.s);
        Done(HostInfo(GetOr(info.fields, "ip", JStr(UnknownText)), token, Classify(token)))
  }

  /** The four cells of a row of the first script: host, IP, token, and the status with its
      format in column 3. */
  function CellsV1(host: string, h: HostInfo): (cells: seq<Cell>)
    ensures |cells| == 4 && cells[0] == Cell(JStr(host), Plain) && cells[1] == Cell(h.ip, Plain)
    ensures cells[2] == Cell(JStr(h.token), Plain) && cells[3] == Cell(JStr(StatusText(h.status)), StatusFormat(h.status))
    ensures CellValue(h.ip) ==> forall c :: 0 <= c < 4 ==> CellValue(cells[c].value)
  {
    [Cell(JStr(host), Plain), Cell(h.ip, Plain), Cell(JStr(h.token), Plain),
      Cell(JStr(StatusText(h.status)), StatusFormat(h.status))]
  }

  /** The IP the row writes, "Desconocida" when the record has none. */
  function IpOf(fields: seq<(string, Json)>): Json
  {
    GetOr(fields, "ip", JStr(UnknownText))
  }

  /** The output whose words give the version, "" when the record has none. */
  function OutputOf(fields: seq<(string, Json)>): Json
  {
    GetOr(fields, "rsync_output", JStr(""))
  }

  /** One pass of the loop of the first script, for one `(host, info)` item of the object: `.get`
      on a record that is not a dict raises AttributeError; `worksheet.write` of an IP that is a
      list or a dict raises TypeError before `.lower()` of an output that is not text raises
      AttributeError; otherwise the four cells. */
  function RowV1(entry: (string, Json)): (r: Outcome<seq<Cell>>)
    ensures !entry.1.JDict? ==> r == Crash("AttributeError")
    ensures entry.1.JDict? && !CellValue(IpOf(entry.1.fields)) ==> r == Crash("TypeError")
    ensures entry.1.JDict? && CellValue(IpOf(entry.1.fields)) && !OutputOf(entry.1.fields).JStr? ==>
      r == Crash("AttributeError")
    ensures entry.1.JDict? && CellValue(IpOf(entry.1.fields)) && OutputOf(entry.1.fields).JStr? ==>
      InfoOf(entry.1).Done? && r == Done(CellsV1(entry.0, InfoOf(entry.1).value))
    ensures r.Done? ==> forall c :: 0 <= c < |r.value| ==> CellValue(r.value[c].value)
  {
    var info := entry.1;
    if !info.JDict? then Crash("AttributeError")
    else if !CellValue(IpOf(info.fields)) then Crash("TypeError")
    else
      match InfoOf(info)
      case Done(h) => Done(CellsV1(entry.0, h))
      case Exit(c) => Exit(c)
      case Crash(e) => Crash(e)
  }

  /** The sheet: the cells of each row from row 0, the autofilter range (first row, first column,
      last row, last column) and the column widths. */
  datatype Sheet = Sheet(rows: seq<seq<Cell>>, filter: (int, int, int, int), widths: seq<nat>)

  function HeaderCells(names: seq<string>): (cells: seq<Cell>)
    ensures |cells| == |names| && forall c :: 0 <= c < |names| ==> cells[c] == Cell(JStr(names[c]), Header)
  {
    seq(|names|, c requires 0 <= c < |names| => Cell(JStr(names[c]), Header))
  }

  const HeadersV1: seq<string> := ["Hostname", "IP", "Versión RSYNC", "Estado"]

  /** The sheet the loop leaves when every host gives its row: the header in row 0, the rows
      below it, and the autofilter over every written row. */
  function SheetOf(header: seq<Cell>, rows: seq<seq<Cell>>, widths: seq<nat>): (sheet: Sheet)
    ensures |sheet.rows| == |rows| + 1 && sheet.rows[0] == header && sheet.rows[1..] == rows
    ensures sheet.filter == (0, 0, |rows|, |header| - 1) && sheet.widths == widths
  {
    Sheet([header] + rows, (0, 0, |rows|, |header| - 1), widths)
  }

  /** The loop both scripts run: header in row 0, then one row per host in the order of the JSON
      object, the row counter starting at 1; the first host whose row raises ends the run. */
  method WriteHosts(items: seq<(string, Json)>, header: seq<Cell>, rowOf: ((string, Json)) -> Outcome<seq<Cell>>,
                    widths: seq<nat>)
    returns (out: Outcome<Sheet>)
    ensures MapAll(items, rowOf).Done? ==> out == Done(SheetOf(header, MapAll(items, rowOf).value, widths))
    ensures !MapAll(items, rowOf).Done? ==> out == MapAll(items, rowOf).PropagateFailure()
  {
    var rows := [header];
    var row := 1;
    assert rows[1..] == [] && items[..0] == [];
    while row <= |items|
      invariant 1 <= row <= |items| + 1 && |rows| == row && rows[0] == header
      invariant MapAll(items[..row - 1], rowOf) == Done(rows[1..])
    {
      MapAllStep(items, row - 1, rowOf, rows[1..]);
      var cells := rowOf(items[row - 1]);
      if !cells.Done? {
        MapAllStop(items, row - 1, rowOf);
        return cells.PropagateFailure();
      }
      assert (rows + [cells.value])[1..] == rows[1..] + [cells.value];
      rows := rows + [cells.value];
      row := row + 1;
    }
    assert items[..row - 1] == items;
    return Done(SheetOf(header, rows[1..], widths));
  }

  /** Every host of the object passes `good`. */
  predicate AllHosts(fields: seq<(string, Json)>, good: Json -> bool) {
    forall k :: 0 <= k < |Items(fields)| ==> good(Items(fields)[k].1)
  }

  /** A host the first script writes without raising. */
  predicate GoodHostV1(info: Json) {
    info.JDict? && CellValue(IpOf(info.fields)) && OutputOf(info.fields).JStr?
  }

  /** The first script: four columns, all 30 wide. Opening a missing file, reading text that is
      not JSON and calling `.items()` on a document that is not an object raise; otherwise the
      hosts are written until one raises. */
  method ExportV1(input: Input) returns (out: Outcome<Sheet>)
    ensures input.Missing? ==> out == Crash("FileNotFoundError")
    ensures input.Malformed? ==> out == Crash("JSONDecodeError")
    ensures input.Decoded? && !input.doc.JDict? ==> out == Crash("AttributeError")
    ensures input.Decoded? && input.doc.JDict? ==>
      var rows := MapAll(Items(input.doc.fields), RowV1);
      (rows.Done? ==> out == Done(SheetOf(HeaderCells(HeadersV1), rows.value, [30, 30, 30, 30]))) &&
      (!rows.Done? ==> out == rows.PropagateFailure())
    ensures input.Decoded? && input.doc.JDict? && AllHosts(input.doc.fields, GoodHostV1) ==> out.Done?
  {
    if !input.Decoded? {
      return Crash(if input.Missing? then "FileNotFoundError" else "JSONDecodeError");
    }
    if !input.doc.JDict? {
      return Crash("AttributeError");
    }
    out := WriteHosts(Items(input.doc.fields), HeaderCells(HeadersV1), RowV1, [30, 30, 30, 30]);
  }

  // ---------------------------------------------------------------------
  // The second script
  // ---------------------------------------------------------------------

  const HeadersV2: seq<string> := [
    "Hostname", "IP", "Versión RSYNC", "Estado", "Uso detectado en", "Detalle uso en cron",
    "Detalle procesos", "Detalle scripts"
  ]

  /** The texts of a list of strings; `None` when one of them is not a string. */
  function Texts(xs: seq<Json>): (r: Option<seq<string>>)
    ensures r.Some? <==> forall i :: 0 <= i < |xs| ==> xs[i].JStr?
    ensures r.Some? ==> |r.value| == |xs| && forall i :: 0 <= i < |xs| ==> xs[i] == JStr(r.value[i])
  {
    if xs == [] then Some([])
    else
      var init := xs[..|xs| - 1];
      assert forall i :: 0 <= i < |init| ==> init[i] == xs[i];
      match Texts(init)
      case None => None
      case Some(ts) => if xs[|xs| - 1].JStr? then Some(ts + [xs[|xs| - 1].s]) else None
  }

  /** `", ".join(usos) if usos else "No"`: joining what iterating the value gives, which must be
      strings (TypeError otherwise). */
  function UsageText(usos: Json): Outcome<string>
  {
    if !Truthy(usos) then Done("No")
    else
      match Iter(usos)
      case None => Crash("TypeError")
      case Some(xs) =>
        match Texts(xs)
        case None => Crash("TypeError")
        case Some(ts) => Done(Join(ts, ", "))
  }

  /** A list of names gives them joined by ", ", or "No" when it is empty. */
  lemma UsageOfNames(names: seq<string>)
    ensures UsageText(JList(seq(|names|, i requires 0 <= i < |names| => JStr(names[i])))) ==
      Done(if names == [] then "No" else Join(names, ", "))
  {
    var xs := seq(|names|, i requires 0 <= i < |names| => JStr(names[i]));
    if names != [] {
      assert Truthy(JList(xs));
      assert Texts(xs).Some?;
      assert Texts(xs).value == names;
    }
  }

  /** A missing or empty usage list, or any other false value, gives "No". */
  lemma UsageMissing(fields: seq<(string, Json)>)
    requires !Truthy(GetOr(fields, "uso_detectado_en", JList([])))
    ensures UsageText(GetOr(fields, "uso_detectado_en", JList([]))) == Done("No")
  {
  }

  /** The eight cells of a row of the second script: the status with its format in column 3, the
      usage text in column 4 and the three detail texts, wrapped, in columns 5 to 7. */
  function CellsV2(host: string, h: HostInfo, uso: string, fields: seq<(string, Json)>): (cells: seq<Cell>)
    ensures |cells| == 8 && cells[..4] == CellsV1(host, h) && cells[4] == Cell(JStr(uso), Plain)
    ensures cells[5].value == GetOr(fields, "cron_output", JStr("")) && cells[6].value == GetOr(fields, "proc_output", JStr(""))
    ensures cells[7].value == GetOr(fields, "scripts_output", JStr(""))
    ensures forall c :: 5 <= c < 8 ==> cells[c].format == WrapFormat
    ensures forall c :: 0 <= c < 8 && c != 3 ==> cells[c].format != SafeFormat && cells[c].format != VulnerableFormat
    ensures CellValue(h.ip) && DetailsWritable(fields) ==> forall c :: 0 <= c < 8 ==> CellValue(cells[c].value)
  {
    CellsV1(host, h) + [Cell(JStr(uso), Plain),
      Cell(GetOr(fields, "cron_output", JStr("")), WrapFormat),
      Cell(GetOr(fields, "proc_output", JStr("")), WrapFormat),
      Cell(GetOr(fields, "scripts_output", JStr("")), WrapFormat)]
  }

  /** The three detail texts of the second script, written as they are. */
  predicate DetailsWritable(fields: seq<(string, Json)>) {
    CellValue(GetOr(fields, "cron_output", JStr(""))) && CellValue(GetOr(fields, "proc_output", JStr(""))) &&
    CellValue(GetOr(fields, "scripts_output", JStr("")))
  }

  /** The usage entry of a record, an empty list when there is none. */
  function UsageOf(fields: seq<(string, Json)>): Json
  {
    GetOr(fields, "uso_detectado_en", JList([]))
  }

  /** One pass of the loop of the second script, in its order: `.get` on a record that is not a
      dict raises AttributeError; the join of the usage list raises TypeError; writing the IP
      raises TypeError; `.lower()` of the output raises AttributeError; writing the detail texts
      raises TypeError; otherwise the eight cells. */
  function RowV2(entry: (string, Json)): (r: Outcome<seq<Cell>>)
    ensures !entry.1.JDict? ==> r == Crash("AttributeError")
    ensures entry.1.JDict? && !UsageText(UsageOf(entry.1.fields)).Done? ==> r == Crash("TypeError")
    ensures JoinsUsage(entry.1) && !CellValue(IpOf(entry.1.fields)) ==> r == Crash("TypeError")
    ensures JoinsUsage(entry.1) && CellValue(IpOf(entry.1.fields)) && !OutputOf(entry.1.fields).JStr? ==>
      r == Crash("AttributeError")
    ensures ReachesDetails(entry.1) && !DetailsWritable(entry.1.fields) ==> r == Crash("TypeError")
    ensures GoodHostV2(entry.1) ==>
      InfoOf(entry.1).Done? &&
      r == Done(CellsV2(entry.0, InfoOf(entry.1).value, UsageText(UsageOf(entry.1.fields)).value, entry.1.fields))
    ensures r.Done? ==> forall c :: 0 <= c < |r.value| ==> CellValue(r.value[c].value)
  {
    var info := entry.1;
    if !info.JDict? then Crash("AttributeError")
    else if !UsageText(UsageOf(info.fields)).Done? then Crash("TypeError")
    else if !CellValue(IpOf(info.fields)) then Crash("TypeError")
    else if !OutputOf(info.fields).JStr? then Crash("AttributeError")
    else if !DetailsWritable(info.fields) then Crash("TypeError")
    else Done(CellsV2(entry.0, InfoOf(info).value, UsageText(UsageOf(info.fields)).value, info.fields))
  }

  /** A record of the second script whose usage list joins. */
  predicate JoinsUsage(info: Json) {
    info.JDict? && UsageText(UsageOf(info.fields)).Done?
  }

  /** A record of the second script that gets as far as writing its detail texts. */
  predicate ReachesDetails(info: Json) {
    JoinsUsage(info) && CellValue(IpOf(info.fields)) && OutputOf(info.fields).JStr?
  }

  /** A host the second script writes without raising. */
  predicate GoodHostV2(info: Json) {
    ReachesDetails(info) && DetailsWritable(info.fields)
  }

  /** The second script: eight columns; the autofilter covers every written row and all eight
      header columns. */
  method ExportV2(input: Input) returns (out: Outcome<Sheet>)
    ensures input.Missing? ==> out == Crash("FileNotFoundError")
    ensures input.Malformed? ==> out == Crash("JSONDecodeError")
    ensures input.Decoded? && !input.doc.JDict? ==> out == Crash("AttributeError")
    ensures input.Decoded? && input.doc.JDict? ==>
      var rows := MapAll(Items(input.doc.fields), RowV2);
      (rows.Done? ==> out == Done(SheetOf(HeaderCells(HeadersV2), rows.value, [30, 20, 20, 20, 50, 50, 50, 50]))) &&
      (!rows.Done? ==> out == rows.PropagateFailure())
    ensures input.Decoded? && input.doc.JDict? && AllHosts(input.doc.fields, GoodHostV2) ==> out.Done?
  {
    if !input.Decoded? {
      return Crash(if input.Missing? then "FileNotFoundError" else "JSONDecodeError");
    }
    if !input.doc.JDict? {
      return Crash("AttributeError");
    }
    out := WriteHosts(Items(input.doc.fields), HeaderCells(HeadersV2), RowV2, [30, 20, 20, 20, 50, 50, 50, 50]);
  }
}
