/**
 * `export_audit_excel.py` of the Zabbix agent audit: the decoded list of host records becomes
 * a frame whose base columns come first, and the "AuditoriaZabbix" sheet gets every column
 * sized after its longest shown value, between 12 and 60.
 */
module ZabbixAudit {
  import opened JsonValue
  import opened Report
  import opened Frame

  /** The expected columns, in the order they lead the sheet. */
  const BaseColumns: seq<string> := [
    "InventoryHostname", "Hostname", "IP", "Estado_Agent1", "Estado_Agent2",
    "Version_Agent1", "Version_Agent2", "OS"]

  /** The frame with the base columns that are present first, then the others. */
  function Ordered(t: Table): (r: Table)
    requires Distinct(t.columns)
    ensures r.columns == PreferredFirst(BaseColumns, t.columns) && |r.rows| == |t.rows|
    ensures multiset(r.columns) == multiset(t.columns) && Distinct(r.columns)
    ensures forall k, name :: 0 <= k < |t.rows| && name in t.columns ==> Cell(r, k, name) == Cell(t, k, name)
  {
    PreferredFirstPermutes(BaseColumns, t.columns);
    var order := PreferredFirst(BaseColumns, t.columns);
    var r := Project(t, order);
    forall k, name | 0 <= k < |t.rows| && name in t.columns ensures Cell(r, k, name) == Cell(t, k, name) {
      assert name in multiset(order);
      ProjectCells(t, order, k, name);
    }
    r
  }

  /** The saved sheet: the frame and each column's width. */
  datatype Sheet = Sheet(frame: Table, widths: seq<nat>)

  /** Every cell of the sheet, header included, as openpyxl sees it. */
  function SheetCells(t: Table): seq<seq<Json>>
  {
    [TextCells(t.columns)] + t.rows
  }

  /** What the width loop counts for a cell pandas wrote: pandas writes a list or a dict as its
      text, so even an empty one counts; any other value is counted as `ShownLength` does. */
  function WrittenLength(v: Json): (n: nat)
    ensures v.JList? || v.JDict? ==> n == |PyStr(v)| && n >= 2
    ensures !v.JList? && !v.JDict? ==> n == ShownLength(v)
  {
    if v.JList? || v.JDict? then |Repr(v)| else ShownLength(v)
  }

  /** `main()` with the number of command-line words (the script name included) and what the
      input path holds. */
  method ExportAudit(argc: nat, input: Input) returns (out: Outcome<Sheet>)
    ensures argc < 3 ==> out == Exit(1)
    ensures argc >= 3 && input.Missing? ==> out == Exit(2)
    ensures argc >= 3 && input.Malformed? ==> out == Crash("JSONDecodeError")
    ensures argc >= 3 && input.Decoded? && (!input.doc.JList? || input.doc.items == []) ==> out == Exit(3)
    ensures argc >= 3 && input.Decoded? && input.doc.JList? && input.doc.items != [] && RecordList(input.doc).None? ==>
      out == Crash("ValueError")
    ensures argc >= 3 && input.Decoded? && input.doc.JList? && input.doc.items != [] && RecordList(input.doc).Some? ==>
      out.Done? && out.value.frame == Ordered(FromRecords(RecordList(input.doc).value))
    ensures out.Done? ==> |out.value.widths| == |out.value.frame.columns|
    ensures out.Done? ==>
      forall c :: 0 <= c < |out.value.widths| ==>
        out.value.widths[c] == Clamp(ColumnMax(Lengths(SheetCells(out.value.frame), WrittenLength), c), 12, 60) &&
        12 <= out.value.widths[c] <= 60
  {
    if argc < 3 {
      return Exit(1);
    }
    match input {
      case Missing => return Exit(2);
      case Malformed => return Crash("JSONDecodeError");
      case Decoded(doc) =>
        if !doc.JList? || doc.items == [] {
          return Exit(3);
        }
        var records := RecordList(doc);
        if records.None? {
          return Crash("ValueError");
        }
        var frame := Ordered(FromRecords(records.value));
        var widths := ColumnWidths(Lengths(SheetCells(frame), WrittenLength), |frame.columns|, 12, 60);
        return Done(Sheet(frame, widths));
    }
  }
}
