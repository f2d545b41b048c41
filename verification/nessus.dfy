/**
 * The two `nessus_excel_report.py` reports on Nessus Agent deployments: the project script
 * (fifteen columns) and the role script (seventeen columns, with the hostname and inventory IP
 * columns and a fallback for the link status). Both sort the host records by their `host`
 * field, write one row per record through `nz`, wrap the two long-text columns and size every
 * column to its longest truthy cell, at most 60.
 */
module NessusReport {
  import opened PyText
  import opened JsonValue
  import opened Report
  import opened StableSort

  // ---------------------------------------------------------------------
  // nz
  // ---------------------------------------------------------------------

  /** `nz(val, default)`: a false value and a text that is blank once stripped give the
      default; any other text is stripped; any other value is kept as it is. */
  function Nz(v: Json, dflt: string): (r: Json)
    ensures !Truthy(v) ==> r == JStr(dflt)
    ensures v.JStr? && Strip(v.s) == [] ==> r == JStr(dflt)
    ensures v.JStr? && Strip(v.s) != [] ==> r == JStr(Strip(v.s))
    ensures Truthy(v) && !v.JStr? ==> r == v
    ensures dflt != [] ==> Truthy(r)
    ensures CellValue(v) ==> CellValue(r)
  {
    if !Truthy(v) then JStr(dflt)
    else if v.JStr? then
      var t := Strip(v.s);
      if t == [] then JStr(dflt) else JStr(t)
    else v
  }

  /** Passing a value through `nz` twice changes nothing more (for a default without blanks
      around it). */
  lemma NzIdempotent(v: Json, dflt: string)
    requires Strip(dflt) == dflt
    ensures Nz(Nz(v, dflt), dflt) == Nz(v, dflt)
  {
    if Truthy(v) && v.JStr? && Strip(v.s) != [] {
      StripIdempotent(v.s);
    }
  }

  /** `a or b` */
  function Or(a: Json, b: Json): (r: Json)
    ensures Truthy(a) ==> r == a
    ensures !Truthy(a) ==> r == b
  {
    if Truthy(a) then a else b
  }

  // ---------------------------------------------------------------------
  // Sorting by host
  // ---------------------------------------------------------------------

  /** The key `h.get("host") or ""` as a sort key component; `None` when `h` is not a dict
      (AttributeError) or when the host is a value other than a text or an integer. */
  function HostAtom(item: Json): (a: Option<Atom>)
    ensures !item.JDict? ==> a.None?
    ensures item.JDict? && !Truthy(Get(item.fields, "host")) ==> a == Some(AStr(""))
    ensures item.JDict? && Get(item.fields, "host").JStr? ==> a == Some(AStr(Get(item.fields, "host").s))
  {
    if !item.JDict? then None
    else
      var v := Get(item.fields, "host");
      if !Truthy(v) then Some(AStr(""))
      else match v
        case JStr(s) => Some(AStr(s))
        case JInt(i) => Some(AInt(i))
        case _ => None
  }

  function HostKey(item: Json): Key
  {
    match HostAtom(item)
    case Some(a) => [a]
    case None => []
  }

  /** Every key can be computed and any two keys can be compared: all texts or all integers. */
  predicate Comparable(data: seq<Json>) {
    (forall i :: 0 <= i < |data| ==> HostAtom(data[i]).Some? && HostAtom(data[i]).value.AStr?) ||
    (forall i :: 0 <= i < |data| ==> HostAtom(data[i]).Some? && HostAtom(data[i]).value.AInt?)
  }

  /** `sorted(data, key=lambda h: h.get("host") or "")`, or `data` as it is when computing or
      comparing the keys raises. Either way no record is lost or repeated. */
  function SortedHosts(data: seq<Json>): (r: seq<Json>)
    ensures multiset(r) == multiset(data)
    ensures Comparable(data) ==> SortedBy(r, HostKey)
    ensures Comparable(data) ==> forall k :: Select(r, HostKey, k) == Select(data, HostKey, k)
    ensures !Comparable(data) ==> r == data
  {
    if Comparable(data) then
      SortBySorted(data, HostKey);
      SortByPermutes(data, HostKey);
      forall k ensures Select(SortBy(data, HostKey), HostKey, k) == Select(data, HostKey, k) {
        SortByStable(data, HostKey, k);
      }
      SortBy(data, HostKey)
    else data
  }

  // ---------------------------------------------------------------------
  // Rows
  // ---------------------------------------------------------------------

  const Tick: Json := JStr("\U{2705}")
  const Cross: Json := JStr("\U{274C}")

  /** The check-mark cell of a flag. */
  function Mark(v: Json): (r: Json)
    ensures r == Tick <==> Truthy(v)
    ensures r == Tick || r == Cross
  {
    if Truthy(v) then Tick else Cross
  }

  /** Every member of the record is a value a cell can hold. */
  ghost predicate Scalars(h: seq<(string, Json)>) {
    forall k :: CellValue(Get(h, k))
  }

  const ProjectHeaders: seq<string> := [
    "Host", "OS Name", "OS Family", "Versión", "Agent Version", "Agente Instalado", "Servicio Activo",
    "Vinculado", "Link Status", "Manager Host", "Manager Port", "Grupos", "Link Output", "Error", "Timestamp"
  ]

  /** The record member each column of the project script shows. */
  const ProjectFields: seq<string> := [
    "host", "os_name", "os_family", "os_version", "agent_version", "installed", "service_active",
    "linked", "link_status", "manager_host", "manager_port", "groups", "link_output", "error", "timestamp"
  ]

  /** The project script's row: the host (blank when missing), three check marks and eleven
      members through `nz` with "N/A". */
  function ProjectRow(h: seq<(string, Json)>): (row: seq<Json>)
    ensures |row| == |ProjectHeaders| == |ProjectFields|
    ensures row[0] == Nz(Get(h, "host"), "")
    ensures forall c :: 5 <= c <= 7 ==> row[c] == Mark(Get(h, ProjectFields[c]))
    ensures forall c :: 1 <= c < 15 && !(5 <= c <= 7) ==> row[c] == Nz(Get(h, ProjectFields[c]), "N/A")
    ensures forall c :: 1 <= c < 15 ==> Truthy(row[c])
    ensures Scalars(h) ==> forall c :: 0 <= c < 15 ==> CellValue(row[c])
  {
    seq(15, c requires 0 <= c < 15 =>
      if 5 <= c <= 7 then Mark(Get(h, ProjectFields[c]))
      else Nz(Get(h, ProjectFields[c]), if c == 0 then "" else "N/A"))
  }

  const RoleHeaders: seq<string> := [
    "Host", "Hostname", "IP (Inventario)", "OS Name", "OS Family", "Versión", "Agent Version",
    "Agente Instalado", "Servicio Activo", "Vinculado", "Link Status", "Manager Host", "Manager Port",
    "Grupos", "Link Output", "Error", "Timestamp"
  ]

  /** The record member each column of the role script shows (the hostname and link status
      columns also fall back on other members). */
  const RoleFields: seq<string> := [
    "host", "hostname", "ip_address", "os_name", "os_family", "os_version", "agent_version", "installed",
    "service_active", "linked", "link_status", "manager_host", "manager_port", "groups", "link_output",
    "error", "timestamp"
  ]

  /** The link status the role script shows: the record's own when it is truthy, otherwise
      whether the host is linked, in words. */
  function LinkStatus(h: seq<(string, Json)>): (s: Json)
    ensures Truthy(Get(h, "link_status")) ==> s == Get(h, "link_status")
    ensures !Truthy(Get(h, "link_status")) && Truthy(Get(h, "linked")) ==> s == JStr("Connected to Manager")
    ensures !Truthy(Get(h, "link_status")) && !Truthy(Get(h, "linked")) ==> s == JStr("Not linked to a manager")
  {
    var given := Get(h, "link_status");
    if Truthy(given) then given
    else if Truthy(Get(h, "linked")) then JStr("Connected to Manager")
    else JStr("Not linked to a manager")
  }

  /** Column `c` of the role script's row: the host and the hostname (falling back on
      `ansible_hostname`) blank when missing, three check marks, the link status with its
      fallback and the other members through `nz` with "N/A". */
  function RoleCell(h: seq<(string, Json)>, c: nat): (v: Json)
    requires c < 17
    ensures c == 0 ==> v == Nz(Get(h, "host"), "")
    ensures c == 1 ==> v == Nz(Or(Get(h, "hostname"), Get(h, "ansible_hostname")), "")
    ensures 7 <= c <= 9 ==> v == Mark(Get(h, RoleFields[c]))
    ensures c == 10 ==> v == Nz(LinkStatus(h), "N/A")
    ensures 2 <= c && !(7 <= c <= 10) ==> v == Nz(Get(h, RoleFields[c]), "N/A")
    ensures 2 <= c ==> Truthy(v)
    ensures Scalars(h) ==> CellValue(v)
  {
    if c == 1 then Nz(Or(Get(h, "hostname"), Get(h, "ansible_hostname")), "")
    else if 7 <= c <= 9 then Mark(Get(h, RoleFields[c]))
    else if c == 10 then Nz(LinkStatus(h), "N/A")
    else Nz(Get(h, RoleFields[c]), if c == 0 then "" else "N/A")
  }

  /** The role script's row, one cell per header: every cell after the first two is truthy,
      and a record of scalars gives cells openpyxl can store. */
  function RoleRow(h: seq<(string, Json)>): (row: seq<Json>)
    ensures |row| == |RoleHeaders| == |RoleFields|
    ensures forall c :: 0 <= c < 17 ==> row[c] == RoleCell(h, c)
    ensures forall c :: 2 <= c < 17 ==> Truthy(row[c])
    ensures Scalars(h) ==> forall c :: 0 <= c < 17 ==> CellValue(row[c])
  {
    seq(17, c requires 0 <= c < 17 => RoleCell(h, c))
  }

  /** A text with no blank at either end passes through `nz` unchanged. */
  lemma NzKeepsText(t: string, dflt: string)
    requires t != [] && !IsSpace(t[0]) && !IsSpace(t[|t| - 1])
    ensures Nz(JStr(t), dflt) == JStr(t)
  {
    StripUnchanged(t);
  }

  /** A record without a truthy link status shows, instead of "N/A", whether it is linked
      (column 11 of the role sheet is this cell). */
  lemma LinkStatusFallback(h: seq<(string, Json)>)
    ensures !Truthy(Get(h, "link_status")) && Truthy(Get(h, "linked")) ==>
      Nz(LinkStatus(h), "N/A") == JStr("Connected to Manager")
    ensures !Truthy(Get(h, "link_status")) && !Truthy(Get(h, "linked")) ==>
      Nz(LinkStatus(h), "N/A") == JStr("Not linked to a manager")
    ensures Truthy(Get(h, "link_status")) ==> Nz(LinkStatus(h), "N/A") == Nz(Get(h, "link_status"), "N/A")
  {
    var yes, no := "Connected to Manager", "Not linked to a manager";
    assert yes[0] == 'C' && yes[|yes| - 1] == 'r';
    NzKeepsText(yes, "N/A");
    assert no[0] == 'N' && no[|no| - 1] == 'r';
    NzKeepsText(no, "N/A");
  }

  /** One pass of the row loop: `host.get` on a value that is not a dict raises AttributeError,
      and `ws.append` raises ValueError for a list or dict cell. */
  function HostRow(item: Json, rowOf: seq<(string, Json)> -> seq<Json>): (r: Outcome<seq<Json>>)
    ensures !item.JDict? ==> r == Crash("AttributeError")
    ensures item.JDict? ==> r == Done(rowOf(item.fields)) || r == Crash("ValueError")
    ensures r.Done? ==> forall c :: 0 <= c < |r.value| ==> CellValue(r.value[c])
    ensures item.JDict? && (forall c :: 0 <= c < |rowOf(item.fields)| ==> CellValue(rowOf(item.fields)[c])) ==>
      r.Done?
  {
    if !item.JDict? then Crash("AttributeError")
    else
      var row := rowOf(item.fields);
      if forall c :: 0 <= c < |row| ==> CellValue(row[c]) then Done(row) else Crash("ValueError")
  }

  /** The rows of the sheet, in sorted order, or the exception that ends the loop. */
  function HostRows(data: seq<Json>, rowOf: seq<(string, Json)> -> seq<Json>): Outcome<seq<seq<Json>>>
  {
    MapAll(SortedHosts(data), item => HostRow(item, rowOf))
  }

  /** A list of records whose members are all cell values gives one row per record, in sorted
      order, with either script's row rule. */
  lemma HostRowsDone(data: seq<Json>, rowOf: seq<(string, Json)> -> seq<Json>, width: nat)
    requires forall i :: 0 <= i < |data| ==> data[i].JDict? && Scalars(data[i].fields)
    requires forall h :: Scalars(h) ==> |rowOf(h)| == width && forall c :: 0 <= c < width ==> CellValue(rowOf(h)[c])
    ensures HostRows(data, rowOf).Done?
    ensures |HostRows(data, rowOf).value| == |data|
    ensures forall k :: 0 <= k < |data| ==> HostRows(data, rowOf).value[k] == rowOf(SortedHosts(data)[k].fields)
  {
    var sorted := SortedHosts(data);
    forall k | 0 <= k < |sorted| ensures sorted[k].JDict? && Scalars(sorted[k].fields) {
      assert sorted[k] in multiset(data);
    }
    var rows := seq(|sorted|, k requires 0 <= k < |sorted| => rowOf(sorted[k].fields));
    MapAllDone(sorted, item => HostRow(item, rowOf), rows);
  }

  // ---------------------------------------------------------------------
  // The sheet
  // ---------------------------------------------------------------------

  /** The titles whose columns wrap their text. */
  const LongTextColumns: set<string> := {"Link Output", "Error"}

  /** Which columns wrap their text in rows 2 and below. */
  function WrapColumns(header: seq<string>): (w: seq<bool>)
    ensures |w| == |header|
    ensures forall c :: 0 <= c < |header| ==> (w[c] <==> header[c] in LongTextColumns)
  {
    seq(|header|, c requires 0 <= c < |header| => header[c] in LongTextColumns)
  }

  /** In the project sheet only columns 13 and 14 ("Link Output" and "Error") wrap. */
  lemma ProjectWrap()
    ensures forall c :: 0 <= c < 15 ==> (WrapColumns(ProjectHeaders)[c] <==> c == 12 || c == 13)
  {
    forall c | 0 <= c < 15 ensures WrapColumns(ProjectHeaders)[c] <==> c == 12 || c == 13 {
      assert ProjectHeaders[12] == "Link Output" && ProjectHeaders[13] == "Error";
    }
  }

  /** In the role sheet only columns 15 and 16 ("Link Output" and "Error") wrap. */
  lemma RoleWrap()
    ensures forall c :: 0 <= c < 17 ==> (WrapColumns(RoleHeaders)[c] <==> c == 14 || c == 15)
  {
    forall c | 0 <= c < 17 ensures WrapColumns(RoleHeaders)[c] <==> c == 14 || c == 15 {
      assert RoleHeaders[14] == "Link Output" && RoleHeaders[15] == "Error";
    }
  }

  /** The saved sheet: header, rows, the wrapping columns and every column's width. */
  datatype Sheet = Sheet(header: seq<string>, rows: seq<seq<Json>>, wrap: seq<bool>, widths: seq<nat>)

  /** `main` of either script with the number of command-line words (the script name included),
      what the input path holds, whether `wb.save` succeeds, the headers and the row rule. */
  method ExportNessus(argc: nat, input: Input, saveOk: bool, header: seq<string>,
                      rowOf: seq<(string, Json)> -> seq<Json>) returns (out: Outcome<Sheet>)
    ensures argc != 3 ==> out == Exit(1)
    ensures argc == 3 && input.Missing? ==> out == Exit(2)
    ensures argc == 3 && input.Malformed? ==> out == Exit(3)
    ensures argc == 3 && input.Decoded? && !input.doc.JList? ==> out == Exit(4)
    ensures argc == 3 && input.Decoded? && input.doc.JList? ==>
      var rows := HostRows(input.doc.items, rowOf);
      (!rows.Done? ==> out == rows.PropagateFailure()) &&
      (rows.Done? && !saveOk ==> out == Exit(5)) &&
      (rows.Done? && saveOk ==> out.Done? && out.value.rows == rows.value)
    ensures out.Done? ==>
      out.value.header == header && out.value.wrap == WrapColumns(header) && |out.value.widths| == |header| &&
      forall c :: 0 <= c < |header| ==>
        out.value.widths[c] == Clamp(ColumnMax(Lengths([TextCells(header)] + out.value.rows, ShownLength), c), 0, 60)
  {
    if argc != 3 {
      return Exit(1);
    }
    match input {
      case Missing => return Exit(2);
      case Malformed => return Exit(3);
      case Decoded(doc) =>
        if !doc.JList? {
          return Exit(4);
        }
        var sorted := SortedHosts(doc.items);
        var rows := MapAllLoop(sorted, item => HostRow(item, rowOf));
        if !rows.Done? {
          return rows.PropagateFailure();
        }
        var wrap := WrapColumns(header);
        var lens := Lengths([TextCells(header)] + rows.value, ShownLength);
        var widths := ColumnWidths(lens, |header|, 0, 60);
        if !saveOk {
          return Exit(5);
        }
        return Done(Sheet(header, rows.value, wrap, widths));
    }
  }

  /** The project script: its fifteen columns. */
  method ExportProjectReport(argc: nat, input: Input, saveOk: bool) returns (out: Outcome<Sheet>)
    ensures argc != 3 ==> out == Exit(1)
    ensures argc == 3 && input.Missing? ==> out == Exit(2)
    ensures argc == 3 && input.Malformed? ==> out == Exit(3)
    ensures argc == 3 && input.Decoded? && !input.doc.JList? ==> out == Exit(4)
    ensures argc == 3 && input.Decoded? && input.doc.JList? ==>
      var rows := HostRows(input.doc.items, ProjectRow);
      (!rows.Done? ==> out == rows.PropagateFailure()) &&
      (rows.Done? && !saveOk ==> out == Exit(5)) &&
      (rows.Done? && saveOk ==> out.Done? && out.value.rows == rows.value)
    ensures out.Done? ==>
      out.value.header == ProjectHeaders && out.value.wrap == WrapColumns(ProjectHeaders) && |out.value.widths| == |ProjectHeaders| &&
      forall c :: 0 <= c < |ProjectHeaders| ==>
        out.value.widths[c] == Clamp(ColumnMax(Lengths([TextCells(ProjectHeaders)] + out.value.rows, ShownLength), c), 0, 60)
  {
    out := ExportNessus(argc, input, saveOk, ProjectHeaders, ProjectRow);
  }

  /** The role script: its seventeen columns. */
  method ExportRoleReport(argc: nat, input: Input, saveOk: bool) returns (out: Outcome<Sheet>)
    ensures argc != 3 ==> out == Exit(1)
    ensures argc == 3 && input.Missing? ==> out == Exit(2)
    ensures argc == 3 && input.Malformed? ==> out == Exit(3)
    ensures argc == 3 && input.Decoded? && !input.doc.JList? ==> out == Exit(4)
    ensures argc == 3 && input.Decoded? && input.doc.JList? ==>
      var rows := HostRows(input.doc.items, RoleRow);
      (!rows.Done? ==> out == rows.PropagateFailure()) &&
      (rows.Done? && !saveOk ==> out == Exit(5)) &&
      (rows.Done? && saveOk ==> out.Done? && out.value.rows == rows.value)
    ensures out.Done? ==>
      out.value.header == RoleHeaders && out.value.wrap == WrapColumns(RoleHeaders) && |out.value.widths| == |RoleHeaders| &&
      forall c :: 0 <= c < |RoleHeaders| ==>
        out.value.widths[c] == Clamp(ColumnMax(Lengths([TextCells(RoleHeaders)] + out.value.rows, ShownLength), c), 0, 60)
  {
    out := ExportNessus(argc, input, saveOk, RoleHeaders, RoleRow);
  }
}
