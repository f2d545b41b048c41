/**
 * The two `export_excel_elastic_agent.py` reports on Elastic Agent hosts: the playbook output
 * variant (eleven columns, with the re-enrolment columns) and the role variant (eight columns).
 * Both normalise each host record with `safe_bool` and `norm_str`, write one row per record and
 * paint a traffic light on the status cells.
 */
module ElasticAgent {
  import opened PyText
  import opened JsonValue
  import opened Report

  // ---------------------------------------------------------------------
  // Coercions
  // ---------------------------------------------------------------------

  /** The words `safe_bool` reads as true once stripped and lower-cased. */
  const YesWords: seq<string> := ["1", "true", "yes", "si", "sí", "ok"]

  /** `safe_bool(val)`: a bool as it is, None false, text true iff it is one of the yes-words,
      a number true iff non-zero, anything else false. */
  function SafeBool(v: Json): (b: bool)
    ensures v.JNone? || v.JBool? || v.JInt? || v.JFloat? ==> (b <==> Truthy(v))
    ensures v.JList? || v.JDict? ==> !b
    ensures v.JStr? ==> (b <==> Lower(Strip(v.s)) in YesWords)
  {
    match v
    case JBool(b) => b
    case JNone => false
    case JStr(s) => Lower(Strip(s)) in YesWords
    case JInt(i) => i != 0
    case JFloat(f, _) => f != 0.0
    case _ => false
  }

  /** Surrounding blanks do not change what a text means to `safe_bool`. */
  lemma SafeBoolStripped(s: string)
    ensures SafeBool(JStr(Strip(s))) == SafeBool(JStr(s))
  {
    StripIdempotent(s);
  }

  /** `norm_str(val, default)`: the stripped `str()` of the value, or the default for None and
      for a value whose text is blank. */
  function NormStr(v: Json, dflt: string): (r: string)
    ensures v.JNone? ==> r == dflt
    ensures r == dflt || (r != [] && r == Strip(PyStr(v)))
    ensures !v.JNone? && Strip(PyStr(v)) != [] ==> r == Strip(PyStr(v))
  {
    if v.JNone? then dflt
    else
      var s := Strip(PyStr(v));
      if s != [] then s else dflt
  }

  /** Normalising a normalised text again changes nothing (for a default without blanks around). */
  lemma NormStrIdempotent(v: Json, dflt: string)
    requires Strip(dflt) == dflt
    ensures NormStr(JStr(NormStr(v, dflt)), dflt) == NormStr(v, dflt)
  {
    var r := NormStr(v, dflt);
    assert PyStr(JStr(r)) == r;
    if r != dflt {
      StripIdempotent(PyStr(v));
    }
  }

  /** `load_json(path)`: a missing file, text that is not JSON or a value that is not a list
      ends the run through SystemExit with a message (status 1); otherwise the dict items, in
      order. */
  function LoadedRecords(input: Input): (r: Outcome<seq<seq<(string, Json)>>>)
    ensures r.Done? <==> input.Decoded? && input.doc.JList?
    ensures !r.Done? ==> r == Exit(1)
  {
    match input
    case Decoded(JList(items)) => Done(Dicts(items))
    case _ => Exit(1)
  }

  /** `load_json` with its filtering loop. */
  method LoadJson(input: Input) returns (r: Outcome<seq<seq<(string, Json)>>>)
    ensures r == LoadedRecords(input)
  {
    if !input.Decoded? || !input.doc.JList? {
      return Exit(1);
    }
    var out := KeepDicts(input.doc.items, item => item);
    assert out == Dicts(input.doc.items);
    return Done(out);
  }

  // ---------------------------------------------------------------------
  // Rows
  // ---------------------------------------------------------------------

  /** The fill a cell gets; `NoFill` leaves the cell as it is. */
  datatype Fill = NoFill | Green | Red | Yellow

  /** The alignment a cell gets. */
  datatype Align = Center | WrapTop

  /** One written row: the cell texts and, column by column (index 0 is column 1), the fill and
      the alignment. */
  datatype Row = Row(cells: seq<string>, fills: seq<Fill>, aligns: seq<Align>)

  function Flag(b: bool, yes: string, no: string): string { if b then yes else no }

  function Light(b: bool): Fill { if b then Green else Red }

  /** The version column is red when the version reads "NO INSTALADO" in upper case. */
  function VersionFill(version: string): (f: Fill)
    ensures f == Red <==> Upper(version) == "NO INSTALADO"
    ensures f == Red || f == NoFill
  {
    if Upper(version) == "NO INSTALADO" then Red else NoFill
  }

  /** What the loop body reads from one record, normalised. */
  datatype Host = Host(inventory: string, hostname: string, ip: string, version: string,
                       ran: bool, reOk: bool, msg: string, restartOk: bool, active: string,
                       ok: bool, excerpt: string)

  /** The values of lines 137-153 (playbook output) and 123-133 (role): text fields through
      `norm_str` with their defaults, flags through `safe_bool` with False when absent. */
  function ReadHost(item: seq<(string, Json)>): (h: Host)
    ensures h.inventory != [] && h.hostname != [] && h.ip != [] && h.version != [] && h.msg != []
    ensures h.active != []
    ensures Lookup(item, "ok").None? ==> !h.ok
    ensures Lookup(item, "restart_ok").None? ==> !h.restartOk
    ensures Lookup(item, "reenroll_ran").None? ==> !h.ran
  {
    Host(NormStr(Get(item, "inventory_name"), "N/A"), NormStr(Get(item, "hostname"), "N/A"),
         NormStr(Get(item, "inventory_ip"), "N/A"), NormStr(Get(item, "elastic_version"), "N/A"),
         SafeBool(GetOr(item, "reenroll_ran", JBool(false))), SafeBool(GetOr(item, "reenroll_ok", JBool(false))),
         NormStr(Get(item, "reenroll_msg"), "N/A"), SafeBool(GetOr(item, "restart_ok", JBool(false))),
         NormStr(Get(item, "is_active"), "unknown"), SafeBool(GetOr(item, "ok", JBool(false))),
         NormStr(Get(item, "status_excerpt"), ""))
  }

  /** The playbook-output variant: eleven cells per record. */
  function ReEnrollRow(h: Host): (row: Row)
    ensures |row.cells| == |ReEnrollHeaders| && |row.fills| == 11 && |row.aligns| == 11
    ensures row.fills[9] == row.fills[8] && (row.fills[9] == Green <==> row.cells[9] == "OK")
    ensures row.fills[7] == Green <==> row.cells[7] == "SI"
    ensures row.fills[5] == Yellow <==> row.cells[4] == "NO"
    ensures row.fills[5] == Green <==> row.cells[4] == "SI" && row.cells[5] == "OK"
    ensures row.fills[3] == Red <==> Upper(row.cells[3]) == "NO INSTALADO"
    ensures forall c :: 0 <= c < 11 && c != 3 && c != 5 && c != 7 && c != 8 && c != 9 ==> row.fills[c] == NoFill
    ensures forall c :: 0 <= c < 11 ==> (row.aligns[c] == WrapTop <==> c == 6 || c == 10)
  {
    var cells := [h.inventory, h.hostname, h.ip, h.version, Flag(h.ran, "SI", "NO"), Flag(h.reOk, "OK", "NO OK"),
                  h.msg, Flag(h.restartOk, "SI", "NO"), h.active, Flag(h.ok, "OK", "NO OK"), h.excerpt];
    var fills := [NoFill, NoFill, NoFill, VersionFill(h.version), NoFill,
                  if h.ran then Light(h.reOk) else Yellow, NoFill, Light(h.restartOk), Light(h.ok), Light(h.ok), NoFill];
    var aligns := [Center, Center, Center, Center, Center, Center, WrapTop, Center, Center, Center, WrapTop];
    Row(cells, fills, aligns)
  }

  /** The role variant: eight cells per record. */
  function ServiceRow(h: Host): (row: Row)
    ensures |row.cells| == |ServiceHeaders| && |row.fills| == 8 && |row.aligns| == 8
    ensures row.fills[6] == row.fills[5] && (row.fills[6] == Green <==> row.cells[6] == "OK")
    ensures row.fills[4] == Green <==> row.cells[4] == "SI"
    ensures row.fills[3] == Red <==> Upper(row.cells[3]) == "NO INSTALADO"
    ensures forall c :: 0 <= c < 3 || c == 7 ==> row.fills[c] == NoFill
    ensures forall c :: 0 <= c < 8 ==> (row.aligns[c] == WrapTop <==> c == 7)
  {
    var cells := [h.inventory, h.hostname, h.ip, h.version, Flag(h.restartOk, "SI", "NO"), h.active,
                  Flag(h.ok, "OK", "NO OK"), h.excerpt];
    var fills := [NoFill, NoFill, NoFill, VersionFill(h.version), Light(h.restartOk), Light(h.ok), Light(h.ok), NoFill];
    var aligns := [Center, Center, Center, Center, Center, Center, Center, WrapTop];
    Row(cells, fills, aligns)
  }

  const ReEnrollHeaders: seq<string> := [
    "Inventario (inventory_hostname)", "Hostname real (ansible_hostname)", "IP del inventario",
    "Versión Elastic Agent", "Re-enroll ejecutado", "Re-enroll OK", "Mensaje re-enroll",
    "Reinicio OK", "Estado del servicio (is-active)", "OK (verde/rojo)", "Extracto de status"
  ]

  const ServiceHeaders: seq<string> := [
    "Inventario (inventory_hostname)", "Hostname real (ansible_hostname)", "IP del inventario",
    "Versión Elastic Agent", "Reinicio OK", "Estado del servicio (is-active)", "OK (verde/rojo)",
    "Extracto de status"
  ]

  // ---------------------------------------------------------------------
  // The sheet
  // ---------------------------------------------------------------------

  /** The sheet: the header texts, the rows and the width of every column. */
  datatype Sheet = Sheet(header: seq<string>, rows: seq<Row>, widths: seq<nat>)

  /** Every cell text of the sheet, header first, measured by its length. */
  function CellLengths(header: seq<string>, rows: seq<Row>): (lens: seq<seq<nat>>)
    ensures |lens| == |rows| + 1 && |lens[0]| == |header|
    ensures forall r :: 0 <= r < |rows| ==> |lens[r + 1]| == |rows[r].cells|
    ensures forall c :: 0 <= c < |header| ==> lens[0][c] == |header[c]|
    ensures forall r, c :: 0 <= r < |rows| && 0 <= c < |rows[r].cells| ==> lens[r + 1][c] == |rows[r].cells[c]|
  {
    [seq(|header|, c requires 0 <= c < |header| => |header[c]|)] +
    seq(|rows|, r requires 0 <= r < |rows| => seq(|rows[r].cells|, c requires 0 <= c < |rows[r].cells| => |rows[r].cells[c]|))
  }

  /** `autosize(ws, 90)`: every column is two wider than its longest text, at most 90. */
  method Autosize(header: seq<string>, rows: seq<Row>) returns (widths: seq<nat>)
    ensures |widths| == |header|
    ensures forall c :: 0 <= c < |header| ==> widths[c] == Clamp(ColumnMax(CellLengths(header, rows), c), 0, 90)
    ensures forall c :: 0 <= c < |header| ==> widths[c] <= 90 && (|header[c]| + 2 <= 90 ==> |header[c]| + 2 <= widths[c])
  {
    var lens := CellLengths(header, rows);
    widths := ColumnWidths(lens, |header|, 0, 90);
  }

  /** `main()` of either variant with the number of command-line words (the script name
      included), what the input path holds, the variant's headers and its row rule. */
  method ExportElastic(argc: nat, input: Input, header: seq<string>, rowOf: seq<(string, Json)> -> Row)
    returns (out: Outcome<Sheet>)
    ensures argc != 3 ==> out == Exit(2)
    ensures argc == 3 ==> (out.Done? <==> LoadedRecords(input).Done?)
    ensures argc == 3 && !out.Done? ==> out == Exit(1)
    ensures out.Done? ==>
      var records := LoadedRecords(input).value;
      out.value.header == header && |out.value.rows| == |records| && |out.value.widths| == |header| &&
      forall k :: 0 <= k < |records| ==> out.value.rows[k] == rowOf(records[k])
    ensures out.Done? ==> forall c :: 0 <= c < |header| ==>
      out.value.widths[c] == Clamp(ColumnMax(CellLengths(header, out.value.rows), c), 0, 90)
  {
    if argc != 3 {
      return Exit(2);
    }
    var data := LoadJson(input);
    if !data.Done? {
      return Exit(1);
    }
    var records := data.value;
    var rows: seq<Row> := [];
    var i := 0;
    while i < |records|
      invariant i <= |records| && |rows| == i
      invariant forall k :: 0 <= k < i ==> rows[k] == rowOf(records[k])
    {
      rows := rows + [rowOf(records[i])];
      i := i + 1;
    }
    var widths := Autosize(header, rows);
    return Done(Sheet(header, rows, widths));
  }

  /** The playbook-output report: exit 2 for a wrong command line, exit 1 for input
      `load_json` refuses, otherwise the eleven-column sheet. */
  method ExportReEnroll(argc: nat, input: Input) returns (out: Outcome<Sheet>)
    ensures argc != 3 ==> out == Exit(2)
    ensures argc == 3 && !LoadedRecords(input).Done? ==> out == Exit(1)
    ensures argc == 3 && LoadedRecords(input).Done? ==> out.Done?
    ensures out.Done? ==>
      LoadedRecords(input).Done? &&
      var records := LoadedRecords(input).value;
      out.value.header == ReEnrollHeaders && |out.value.rows| == |records| &&
      forall k :: 0 <= k < |records| ==> out.value.rows[k] == ReEnrollRow(ReadHost(records[k]))
    ensures out.Done? ==> |out.value.widths| == |ReEnrollHeaders| && forall c :: 0 <= c < |ReEnrollHeaders| ==>
      out.value.widths[c] == Clamp(ColumnMax(CellLengths(ReEnrollHeaders, out.value.rows), c), 0, 90)
  {
    out := ExportElastic(argc, input, ReEnrollHeaders, item => ReEnrollRow(ReadHost(item)));
  }

  /** The role report: exit 2 for a wrong command line, exit 1 for input `load_json` refuses,
      otherwise the eight-column sheet. */
  method ExportService(argc: nat, input: Input) returns (out: Outcome<Sheet>)
    ensures argc != 3 ==> out == Exit(2)
    ensures argc == 3 && !LoadedRecords(input).Done? ==> out == Exit(1)
    ensures argc == 3 && LoadedRecords(input).Done? ==> out.Done?
    ensures out.Done? ==>
      LoadedRecords(input).Done? &&
      var records := LoadedRecords(input).value;
      out.value.header == ServiceHeaders && |out.value.rows| == |records| &&
      forall k :: 0 <= k < |records| ==> out.value.rows[k] == ServiceRow(ReadHost(records[k]))
    ensures out.Done? ==> |out.value.widths| == |ServiceHeaders| && forall c :: 0 <= c < |ServiceHeaders| ==>
      out.value.widths[c] == Clamp(ColumnMax(CellLengths(ServiceHeaders, out.value.rows), c), 0, 90)
  {
    out := ExportElastic(argc, input, ServiceHeaders, item => ServiceRow(ReadHost(item)));
  }
}
