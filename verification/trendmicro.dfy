/**
 * The two Trend Micro deployment reports: `generate_excel.py` of the sensor project (twelve
 * columns) and `trendmicro_deploy_excel.py` of the unified role (fourteen columns, with the
 * sensor versions). Both accept one record or a list of them, read every service state from
 * its own key or else from the `services_before` / `services_after` maps, turn every value
 * into text with `norm`, paint the "Estado Final" cell and size the columns between 12 and 60.
 */
module TrendMicro {
  import opened PyText
  import opened JsonValue
  import opened Report

  // ---------------------------------------------------------------------
  // norm
  // ---------------------------------------------------------------------

  /** `norm(v)`: None is the empty text, a list is the `str()` of its elements joined by single
      blanks, a dict is its JSON text and anything else is its `str()`. */
  function Norm(v: Json): (s: string)
    ensures v.JNone? ==> s == ""
    ensures v.JList? ==> s == Join(seq(|v.items|, i requires 0 <= i < |v.items| => PyStr(v.items[i])), " ")
    ensures v.JDict? ==> s == Dumps(v)
    ensures v.JStr? ==> s == v.s
    ensures v.JBool? || v.JInt? || v.JFloat? ==> s == Repr(v)
  {
    match v
    case JNone => ""
    case JList(items) => Join(seq(|items|, i requires 0 <= i < |items| => PyStr(items[i])), " ")
    case JDict(_) => Dumps(v)
    case _ => PyStr(v)
  }

  /** A list of words without blanks can be read back from its `norm` text by splitting it at
      the blanks. */
  lemma NormWordsRoundTrip(words: seq<string>)
    requires words != []
    requires forall k :: 0 <= k < |words| ==> ' ' !in words[k]
    ensures SplitOn(Norm(JList(seq(|words|, i requires 0 <= i < |words| => JStr(words[i])))), " ") == words
  {
    var v := JList(seq(|words|, i requires 0 <= i < |words| => JStr(words[i])));
    assert seq(|v.items|, i requires 0 <= i < |v.items| => PyStr(v.items[i])) == words;
    JoinSplitOn(words, ' ');
  }

  // ---------------------------------------------------------------------
  // Service states
  // ---------------------------------------------------------------------

  /** The state shown when neither the record nor its services map has one. */
  const NotInstalled: string := "no instalado"

  /** `item.get(key)`, or when that is None, `services.get(service, "no instalado")` where
      `services` is `item.get(mapKey, {}) or {}`; a truthy services value that is not a dict
      has no `get` (AttributeError). */
  function State(h: seq<(string, Json)>, key: string, mapKey: string, service: string): (r: Outcome<Json>)
    ensures !Get(h, key).JNone? ==> r == Done(Get(h, key))
    ensures Get(h, key).JNone? && !Truthy(GetOr(h, mapKey, JDict([]))) ==> r == Done(JStr(NotInstalled))
    ensures Get(h, key).JNone? && GetOr(h, mapKey, JDict([])).JDict? ==>
      r == Done(GetOr(GetOr(h, mapKey, JDict([])).fields, service, JStr(NotInstalled)))
    ensures !r.Done? ==> r == Crash("AttributeError")
  {
    var own := Get(h, key);
    if !own.JNone? then Done(own)
    else
      var services := GetOr(h, mapKey, JDict([]));
      if !Truthy(services) then Done(JStr(NotInstalled))
      else if services.JDict? then Done(GetOr(services.fields, service, JStr(NotInstalled)))
      else Crash("AttributeError")
  }

  /** The four service states of a record. */
  datatype States = States(tmxbcBefore: Json, tmxbcAfter: Json, dsBefore: Json, dsAfter: Json)

  /** The four fallback chains of lines 86-103 (sensor project) and 88-105 (role). */
  function ReadStates(h: seq<(string, Json)>): (r: Outcome<States>)
    ensures r.Done? <==>
      State(h, "tmxbc_state_before", "services_before", "tmxbc").Done? &&
      State(h, "tmxbc_state_after", "services_after", "tmxbc").Done? &&
      State(h, "ds_agent_state_before", "services_before", "ds_agent").Done? &&
      State(h, "ds_agent_state_after", "services_after", "ds_agent").Done?
    ensures r.Done? ==>
      r.value.tmxbcBefore == State(h, "tmxbc_state_before", "services_before", "tmxbc").value &&
      r.value.tmxbcAfter == State(h, "tmxbc_state_after", "services_after", "tmxbc").value &&
      r.value.dsBefore == State(h, "ds_agent_state_before", "services_before", "ds_agent").value &&
      r.value.dsAfter == State(h, "ds_agent_state_after", "services_after", "ds_agent").value
    ensures !r.Done? ==> r == Crash("AttributeError")
  {
    var tb :- State(h, "tmxbc_state_before", "services_before", "tmxbc");
    var ta :- State(h, "tmxbc_state_after", "services_after", "tmxbc");
    var db :- State(h, "ds_agent_state_before", "services_before", "ds_agent");
    var da :- State(h, "ds_agent_state_after", "services_after", "ds_agent");
    Done(States(tb, ta, db, da))
  }

  // ---------------------------------------------------------------------
  // Rows
  // ---------------------------------------------------------------------

  /** `item.get(key, "")` through `norm`. */
  function Field(h: seq<(string, Json)>, key: string): (s: string)
    ensures Lookup(h, key).None? ==> s == ""
  {
    Norm(GetOr(h, key, JStr("")))
  }

  const SensorHeaders: seq<string> := [
    "Host", "Hostname", "IP", "Version Before", "Release Before", "Version After", "Release After",
    "tmxbc Before", "tmxbc After", "ds_agent Before", "ds_agent After", "Estado Final"
  ]

  /** The record member each plain column of the sensor project's row shows. */
  const SensorFields: seq<string> := [
    "host", "hostname", "ip", "ds_agent_version_before", "ds_agent_release_before",
    "ds_agent_version_after", "ds_agent_release_after", "", "", "", "", "estado_final"
  ]

  /** Column `c` of the sensor project's row. */
  function SensorCell(h: seq<(string, Json)>, st: States, c: nat): string
    requires c < 12
  {
    if c == 7 then Norm(st.tmxbcBefore)
    else if c == 8 then Norm(st.tmxbcAfter)
    else if c == 9 then Norm(st.dsBefore)
    else if c == 10 then Norm(st.dsAfter)
    else Field(h, SensorFields[c])
  }

  /** The sensor project's row: seven plain members, the four states and the final state. */
  function SensorRow(h: seq<(string, Json)>, st: States): (row: seq<string>)
    ensures |row| == |SensorHeaders| == |SensorFields|
    ensures forall c :: 0 <= c < 12 && !(7 <= c <= 10) ==> row[c] == Field(h, SensorFields[c])
    ensures row[7] == Norm(st.tmxbcBefore) && row[8] == Norm(st.tmxbcAfter)
    ensures row[9] == Norm(st.dsBefore) && row[10] == Norm(st.dsAfter)
    ensures row[11] == Field(h, "estado_final")
  {
    seq(12, c requires 0 <= c < 12 => SensorCell(h, st, c))
  }

  const DeployHeaders: seq<string> := [
    "Host", "Hostname", "IP", "Version Before", "Release Before", "Version After", "Release After",
    "tmxbc Version Before", "tmxbc Version After", "tmxbc Before", "tmxbc After", "ds_agent Before",
    "ds_agent After", "Estado Final"
  ]

  /** The record member each plain column of the role's row shows. */
  const DeployFields: seq<string> := [
    "host", "hostname", "ip", "ds_agent_version_before", "ds_agent_release_before",
    "ds_agent_version_after", "ds_agent_release_after", "tmxbc_version_before", "tmxbc_version_after",
    "", "", "", "", "estado_final"
  ]

  /** Column `c` of the role's row. */
  function DeployCell(h: seq<(string, Json)>, st: States, c: nat): string
    requires c < 14
  {
    if c == 9 then Norm(st.tmxbcBefore)
    else if c == 10 then Norm(st.tmxbcAfter)
    else if c == 11 then Norm(st.dsBefore)
    else if c == 12 then Norm(st.dsAfter)
    else Field(h, DeployFields[c])
  }

  /** The role's row: nine plain members, the four states and the final state. */
  function DeployRow(h: seq<(string, Json)>, st: States): (row: seq<string>)
    ensures |row| == |DeployHeaders| == |DeployFields|
    ensures forall c :: 0 <= c < 14 && !(9 <= c <= 12) ==> row[c] == Field(h, DeployFields[c])
    ensures row[9] == Norm(st.tmxbcBefore) && row[10] == Norm(st.tmxbcAfter)
    ensures row[11] == Norm(st.dsBefore) && row[12] == Norm(st.dsAfter)
    ensures row[13] == Field(h, "estado_final")
  {
    seq(14, c requires 0 <= c < 14 => DeployCell(h, st, c))
  }

  /** One pass of the host loop: `item.get` on a value that is not a dict raises
      AttributeError, and so does a services value that is not a dict when it is needed. */
  function HostRow(item: Json, layout: (seq<(string, Json)>, States) -> seq<string>): (r: Outcome<seq<string>>)
    ensures !item.JDict? ==> r == Crash("AttributeError")
    ensures item.JDict? ==> (r.Done? <==> ReadStates(item.fields).Done?)
    ensures r.Done? ==> r.value == layout(item.fields, ReadStates(item.fields).value)
    ensures !r.Done? ==> r == Crash("AttributeError")
  {
    if !item.JDict? then Crash("AttributeError")
    else
      var st :- ReadStates(item.fields);
      Done(layout(item.fields, st))
  }

  // ---------------------------------------------------------------------
  // The sheet
  // ---------------------------------------------------------------------

  /** The fill of the "Estado Final" cell. */
  datatype Fill = Green | Orange

  /** Green when the final state reads "OK" once stripped and upper-cased, orange otherwise. */
  function FinalFill(estado: string): (f: Fill)
    ensures f == Green <==> Upper(Strip(estado)) == "OK"
  {
    if Upper(Strip(estado)) == "OK" then Green else Orange
  }

  /** The fill of a row's last cell. */
  function RowFill(row: seq<string>): Fill
  {
    if row == [] then Orange else FinalFill(row[|row| - 1])
  }

  /** Surrounding blanks and case do not change the fill. */
  lemma FinalFillStripped(estado: string)
    ensures FinalFill(Strip(estado)) == FinalFill(estado)
  {
    StripIdempotent(estado);
  }

  /** The records the loop visits: a single object becomes a one-element list; a list is
      visited item by item and a text character by character; anything else is not iterable
      (TypeError). A missing file or text that is not JSON ends the run with the exception
      `open` or `json.load` raises. */
  function Records(input: Input): (r: Outcome<seq<Json>>)
    ensures input.Missing? ==> r == Crash("FileNotFoundError")
    ensures input.Malformed? ==> r == Crash("JSONDecodeError")
    ensures input.Decoded? && input.doc.JDict? ==> r == Done([input.doc])
    ensures input.Decoded? && input.doc.JList? ==> r == Done(input.doc.items)
    ensures input.Decoded? && !(input.doc.JDict? || input.doc.JList? || input.doc.JStr?) ==> r == Crash("TypeError")
  {
    match input
    case Missing => Crash("FileNotFoundError")
    case Malformed => Crash("JSONDecodeError")
    case Decoded(doc) =>
      if doc.JDict? then Done([doc])
      else match Iter(doc)
        case Some(items) => Done(items)
        case None => Crash("TypeError")
  }

  /** The length of every text of the sheet, header first. */
  function TextLengths(header: seq<string>, rows: seq<seq<string>>): (lens: seq<seq<nat>>)
    ensures |lens| == |rows| + 1 && |lens[0]| == |header|
    ensures forall c :: 0 <= c < |header| ==> lens[0][c] == |header[c]|
    ensures forall r :: 0 <= r < |rows| ==> |lens[r + 1]| == |rows[r]|
    ensures forall r, c :: 0 <= r < |rows| && 0 <= c < |rows[r]| ==> lens[r + 1][c] == |rows[r][c]|
  {
    [seq(|header|, c requires 0 <= c < |header| => |header[c]|)] +
    seq(|rows|, r requires 0 <= r < |rows| => seq(|rows[r]|, c requires 0 <= c < |rows[r]| => |rows[r][c]|))
  }

  /** The sheet: header, rows, the fill of each row's "Estado Final" cell and the widths. */
  datatype Sheet = Sheet(header: seq<string>, rows: seq<seq<string>>, fills: seq<Fill>, widths: seq<nat>)

  /** The rows of the sheet, or the exception that ends the host loop. */
  function SheetRows(records: seq<Json>, layout: (seq<(string, Json)>, States) -> seq<string>): Outcome<seq<seq<string>>>
  {
    MapAll(records, item => HostRow(item, layout))
  }

  /** The fill of every row's "Estado Final" cell, row by row. */
  method PaintFills(rows: seq<seq<string>>) returns (fills: seq<Fill>)
    ensures |fills| == |rows| && forall k :: 0 <= k < |rows| ==> fills[k] == RowFill(rows[k])
  {
    fills := [];
    var i := 0;
    while i < |rows|
      invariant i <= |rows| && |fills| == i
      invariant forall k :: 0 <= k < i ==> fills[k] == RowFill(rows[k])
    {
      fills := fills + [RowFill(rows[i])];
      i := i + 1;
    }
  }

  /** Either script with the number of command-line words (the script name included), what
      the input path holds, the headers and the row layout. */
  method ExportTrend(argc: nat, input: Input, header: seq<string>,
                     layout: (seq<(string, Json)>, States) -> seq<string>) returns (out: Outcome<Sheet>)
    ensures argc < 3 ==> out == Exit(1)
    ensures argc >= 3 && !Records(input).Done? ==> out == Records(input).PropagateFailure()
    ensures argc >= 3 && Records(input).Done? ==>
      var rows := SheetRows(Records(input).value, layout);
      (!rows.Done? ==> out == rows.PropagateFailure()) &&
      (rows.Done? ==> out.Done? && out.value.rows == rows.value)
    ensures out.Done? ==>
      out.value.header == header && |out.value.fills| == |out.value.rows| && |out.value.widths| == |header| &&
      (forall k :: 0 <= k < |out.value.rows| ==> out.value.fills[k] == RowFill(out.value.rows[k])) &&
      (forall c :: 0 <= c < |header| ==>
        out.value.widths[c] == Clamp(ColumnMax(TextLengths(header, out.value.rows), c), 12, 60) &&
        12 <= out.value.widths[c] <= 60)
  {
    if argc < 3 {
      return Exit(1);
    }
    var records := Records(input);
    if !records.Done? {
      return records.PropagateFailure();
    }
    var rows := MapAllLoop(records.value, item => HostRow(item, layout));
    if !rows.Done? {
      return rows.PropagateFailure();
    }
    var fills := PaintFills(rows.value);
    var widths := ColumnWidths(TextLengths(header, rows.value), |header|, 12, 60);
    return Done(Sheet(header, rows.value, fills, widths));
  }

  /** The sensor project's script: twelve columns. */
  method ExportSensor(argc: nat, input: Input) returns (out: Outcome<Sheet>)
    ensures argc < 3 ==> out == Exit(1)
    ensures argc >= 3 && !Records(input).Done? ==> out == Records(input).PropagateFailure()
    ensures argc >= 3 && Records(input).Done? ==>
      var rows := SheetRows(Records(input).value, SensorRow);
      (!rows.Done? ==> out == rows.PropagateFailure()) &&
      (rows.Done? ==> out.Done? && out.value.rows == rows.value)
    ensures out.Done? ==>
      out.value.header == SensorHeaders && |out.value.fills| == |out.value.rows| && |out.value.widths| == |SensorHeaders| &&
      (forall k :: 0 <= k < |out.value.rows| ==> out.value.fills[k] == RowFill(out.value.rows[k])) &&
      (forall c :: 0 <= c < |SensorHeaders| ==>
        out.value.widths[c] == Clamp(ColumnMax(TextLengths(SensorHeaders, out.value.rows), c), 12, 60) &&
        12 <= out.value.widths[c] <= 60)
  {
    out := ExportTrend(argc, input, SensorHeaders, SensorRow);
  }

  /** The role's script: fourteen columns. */
  method ExportDeploy(argc: nat, input: Input) returns (out: Outcome<Sheet>)
    ensures argc < 3 ==> out == Exit(1)
    ensures argc >= 3 && !Records(input).Done? ==> out == Records(input).PropagateFailure()
    ensures argc >= 3 && Records(input).Done? ==>
      var rows := SheetRows(Records(input).value, DeployRow);
      (!rows.Done? ==> out == rows.PropagateFailure()) &&
      (rows.Done? ==> out.Done? && out.value.rows == rows.value)
    ensures out.Done? ==>
      out.value.header == DeployHeaders && |out.value.fills| == |out.value.rows| && |out.value.widths| == |DeployHeaders| &&
      (forall k :: 0 <= k < |out.value.rows| ==> out.value.fills[k] == RowFill(out.value.rows[k])) &&
      (forall c :: 0 <= c < |DeployHeaders| ==>
        out.value.widths[c] == Clamp(ColumnMax(TextLengths(DeployHeaders, out.value.rows), c), 12, 60) &&
        12 <= out.value.widths[c] <= 60)
  {
    out := ExportTrend(argc, input, DeployHeaders, DeployRow);
  }
}
