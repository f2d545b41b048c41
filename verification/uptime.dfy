/**
 * `genera_excel_uptime.py`: reads the uptime Ansible gathered per host, normalises every
 * record, sorts the records by uptime in days (longest first, then by inventory name) and
 * writes them to the "Uptime_BIA" sheet, with a "Resumen" sheet that counts the hosts and
 * gives the longest and shortest uptime.
 */
module Uptime {
  import opened PyText
  import opened JsonValue
  import opened Report
  import opened StableSort

  // ---------------------------------------------------------------------
  // Normalising a record
  // ---------------------------------------------------------------------

  /** `safe_int(value, default)`: `int(value)`, or the default when that raises. */
  function SafeInt(v: Json, dflt: int): (n: int)
    ensures IntOf(v).Some? ==> n == IntOf(v).value
    ensures IntOf(v).None? ==> n == dflt
    ensures v.JInt? ==> n == v.i
    ensures v.JNone? || v.JList? || v.JDict? ==> n == dflt
  {
    match IntOf(v)
    case Some(i) => i
    case None => dflt
  }

  /** An integer written out in decimal reads back as itself, whatever the default. */
  lemma SafeIntOfText(i: int, dflt: int)
    ensures SafeInt(JStr(IntToText(i)), dflt) == i
  {
    IntTextRoundTrip(i);
  }

  /** `(value or "").strip()`: a false value reads as the empty text, a text is stripped, and
      any other value has no `strip` (AttributeError). */
  function StrippedText(v: Json): (r: Outcome<string>)
    ensures !Truthy(v) ==> r == Done("")
    ensures v.JStr? ==> r == Done(Strip(v.s))
    ensures Truthy(v) && !v.JStr? ==> r == Crash("AttributeError")
    ensures r.Done? ==> Strip(r.value) == r.value
  {
    if !Truthy(v) then Done("")
    else if v.JStr? then StripIdempotent(v.s); Done(Strip(v.s))
    else Crash("AttributeError")
  }

  /** A normalised record. */
  datatype Record = Record(inventory: string, ansible: string, days: int, seconds: int)

  /** Seconds in a day. */
  const DaySeconds: int := 86400

  /** `safe_int(r.get("uptime_seconds"), 0)` */
  function UpSeconds(fields: seq<(string, Json)>): (n: int)
    ensures IntOf(Get(fields, "uptime_seconds")).None? ==> n == 0
  {
    SafeInt(Get(fields, "uptime_seconds"), 0)
  }

  /** `safe_int(r.get("uptime_days"), up_sec // 86400)`: the given days, or else the whole days
      the seconds make (rounded down, as Python's `//` does). */
  function UpDays(fields: seq<(string, Json)>): (d: int)
    ensures IntOf(Get(fields, "uptime_days")).Some? ==> d == IntOf(Get(fields, "uptime_days")).value
    ensures IntOf(Get(fields, "uptime_days")).None? ==>
      d * DaySeconds <= UpSeconds(fields) < d * DaySeconds + DaySeconds
  {
    SafeInt(Get(fields, "uptime_days"), UpSeconds(fields) / DaySeconds)
  }

  /** One pass of the normalising loop: the two names stripped (a value that is neither false
      nor a text raises), the seconds and the days as above. */
  function Normalise(item: Json): (r: Outcome<Record>)
    ensures !item.JDict? ==> r == Crash("AttributeError")
    ensures item.JDict? ==>
      (r.Done? <==> StrippedText(Get(item.fields, "inventory_hostname")).Done? &&
                    StrippedText(Get(item.fields, "ansible_hostname")).Done?)
    ensures r.Done? ==>
      Strip(r.value.inventory) == r.value.inventory && Strip(r.value.ansible) == r.value.ansible &&
      r.value.seconds == UpSeconds(item.fields) && r.value.days == UpDays(item.fields)
  {
    if !item.JDict? then Crash("AttributeError")
    else
      var inv :- StrippedText(Get(item.fields, "inventory_hostname"));
      var ahost :- StrippedText(Get(item.fields, "ansible_hostname"));
      Done(Record(inv, ahost, UpDays(item.fields), UpSeconds(item.fields)))
  }

  // ---------------------------------------------------------------------
  // Sorting
  // ---------------------------------------------------------------------

  /** The key `(-uptime_days, inventory_hostname)`. */
  function SortKey(r: Record): Key
  {
    [AInt(-r.days), AStr(r.inventory)]
  }

  /** How two keys of this shape compare: by days, reversed, then by name. */
  lemma SortKeyCmp(a: Record, b: Record)
    ensures KeyCmp(SortKey(a), SortKey(b)) <= 0 <==>
      a.days > b.days || (a.days == b.days && StrCmp(a.inventory, b.inventory) <= 0)
  {
    var ka, kb := SortKey(a), SortKey(b);
    assert ka[1..] == [AStr(a.inventory)] && kb[1..] == [AStr(b.inventory)];
    assert ka[1..][1..] == [] && kb[1..][1..] == [];
    assert KeyCmp(ka[1..], kb[1..]) == StrCmp(a.inventory, b.inventory);
    assert AtomCmp(ka[0], kb[0]) == (if a.days > b.days then -1 else if a.days < b.days then 1 else 0);
  }

  /** `normalized.sort(key=...)` */
  function SortRecords(records: seq<Record>): (r: seq<Record>)
    ensures multiset(r) == multiset(records)
    ensures forall i, j :: 0 <= i < j < |r| ==>
      r[i].days > r[j].days || (r[i].days == r[j].days && StrCmp(r[i].inventory, r[j].inventory) <= 0)
  {
    var s := SortBy(records, SortKey);
    SortBySorted(records, SortKey);
    SortByPermutes(records, SortKey);
    forall i, j | 0 <= i < j < |s|
      ensures s[i].days > s[j].days || (s[i].days == s[j].days && StrCmp(s[i].inventory, s[j].inventory) <= 0)
    {
      SortKeyCmp(s[i], s[j]);
    }
    s
  }

  /** Records sharing a key keep their input order. */
  lemma SortRecordsStable(records: seq<Record>, k: Key)
    ensures Select(SortRecords(records), SortKey, k) == Select(records, SortKey, k)
  {
    SortByStable(records, SortKey, k);
  }

  // ---------------------------------------------------------------------
  // Summary
  // ---------------------------------------------------------------------

  /** `max(r["uptime_days"] for r in records)` */
  function MaxDays(records: seq<Record>): (m: int)
    requires records != []
    ensures forall i :: 0 <= i < |records| ==> records[i].days <= m
    ensures exists i :: 0 <= i < |records| && records[i].days == m
  {
    if |records| == 1 then records[0].days
    else
      var rest := MaxDays(records[1..]);
      assert forall i :: 1 <= i < |records| ==> records[i] == records[1..][i - 1];
      if records[0].days >= rest then records[0].days else rest
  }

  /** `min(r["uptime_days"] for r in records)` */
  function MinDays(records: seq<Record>): (m: int)
    requires records != []
    ensures forall i :: 0 <= i < |records| ==> m <= records[i].days
    ensures exists i :: 0 <= i < |records| && records[i].days == m
  {
    if |records| == 1 then records[0].days
    else
      var rest := MinDays(records[1..]);
      assert forall i :: 1 <= i < |records| ==> records[i] == records[1..][i - 1];
      if records[0].days <= rest then records[0].days else rest
  }

  /** The "Resumen" sheet: when it was generated, the host count and, when there are hosts,
      the longest and shortest uptime in days. */
  function SummaryRows(records: seq<Record>, now: string): (rows: seq<seq<Json>>)
    ensures |rows| == if records == [] then 2 else 4
    ensures rows[0] == [JStr("Generado"), JStr(now)]
    ensures rows[1] == [JStr("Total hosts"), JInt(|records|)]
    ensures records != [] ==>
      rows[2] == [JStr("Max uptime_days"), JInt(MaxDays(records))] &&
      rows[3] == [JStr("Min uptime_days"), JInt(MinDays(records))]
  {
    var head := [[JStr("Generado"), JStr(now)], [JStr("Total hosts"), JInt(|records|)]];
    if records == [] then head
    else head + [[JStr("Max uptime_days"), JInt(MaxDays(records))], [JStr("Min uptime_days"), JInt(MinDays(records))]]
  }

  // ---------------------------------------------------------------------
  // The workbook
  // ---------------------------------------------------------------------

  const Headers: seq<string> := ["inventory_hostname", "ansible_hostname", "uptime_days", "uptime_seconds"]

  /** The sheet row of a record. */
  function RecordRow(r: Record): seq<Json>
  {
    [JStr(r.inventory), JStr(r.ansible), JInt(r.days), JInt(r.seconds)]
  }

  /** What `autosize_columns` counts for a cell: the length of `str(value)`, 0 for no value. */
  function CellText(v: Json): (n: nat)
    ensures v.JNone? ==> n == 0
    ensures v.JStr? ==> n == |v.s|
  {
    if v.JNone? then 0 else |PyStr(v)|
  }

  /** `autosize_columns(ws)`: every column two wider than its longest text, at most 60. */
  method Autosize(rows: seq<seq<Json>>, ncols: nat) returns (widths: seq<nat>)
    ensures |widths| == ncols
    ensures forall c :: 0 <= c < ncols ==> widths[c] == Clamp(ColumnMax(Lengths(rows, CellText), c), 0, 60)
    ensures forall r, c :: 0 <= r < |rows| && 0 <= c < ncols && c < |rows[r]| && CellText(rows[r][c]) + 2 <= 60 ==>
      CellText(rows[r][c]) + 2 <= widths[c]
  {
    widths := ColumnWidths(Lengths(rows, CellText), ncols, 0, 60);
  }

  /** Both sheets: the data sheet's rows below the header, its widths and its autofilter range,
      the summary rows and their widths. */
  datatype Workbook = Workbook(rows: seq<seq<Json>>, widths: seq<nat>, filter: string, summary: seq<seq<Json>>,
                               summaryWidths: seq<nat>)

  /** The records of the input, normalised, or the exception that ends the loop. */
  function Normalised(data: seq<Json>): Outcome<seq<Record>>
  {
    MapAll(data, Normalise)
  }

  /** Both sheets for the records, in the order given. */
  method WriteSheets(records: seq<Record>, now: string) returns (wb: Workbook)
    ensures |wb.rows| == |records| && forall k :: 0 <= k < |records| ==> wb.rows[k] == RecordRow(records[k])
    ensures wb.summary == SummaryRows(records, now)
    ensures |wb.widths| == 4 && |wb.summaryWidths| == 2
    ensures forall c :: 0 <= c < 4 ==>
      wb.widths[c] == Clamp(ColumnMax(Lengths([HeaderRow()] + wb.rows, CellText), c), 0, 60)
    ensures forall c :: 0 <= c < 2 ==>
      wb.summaryWidths[c] == Clamp(ColumnMax(Lengths(wb.summary, CellText), c), 0, 60)
    ensures wb.filter == "A1:D" + IntToText(|records| + 1)
  {
    var rows: seq<seq<Json>> := [];
    var i := 0;
    while i < |records|
      invariant i <= |records| && |rows| == i
      invariant forall k :: 0 <= k < i ==> rows[k] == RecordRow(records[k])
    {
      rows := rows + [RecordRow(records[i])];
      i := i + 1;
    }
    var widths := Autosize([HeaderRow()] + rows, 4);
    var summary := SummaryRows(records, now);
    var summaryWidths := Autosize(summary, 2);
    return Workbook(rows, widths, "A1:D" + IntToText(|rows| + 1), summary, summaryWidths);
  }

  function HeaderRow(): seq<Json>
  {
    [JStr(Headers[0]), JStr(Headers[1]), JStr(Headers[2]), JStr(Headers[3])]
  }

  /** `main()` with whether both command-line options were given, what the input path holds
      and the time of the run. */
  method ExportUptime(argsOk: bool, input: Input, now: string) returns (out: Outcome<Workbook>)
    ensures !argsOk ==> out == Exit(2)
    ensures argsOk && input.Missing? ==> out == Crash("FileNotFoundError")
    ensures argsOk && input.Malformed? ==> out == Crash("JSONDecodeError")
    ensures argsOk && input.Decoded? && !input.doc.JList? ==> out == Crash("ValueError")
    ensures argsOk && input.Decoded? && input.doc.JList? && !Normalised(input.doc.items).Done? ==>
      out == Normalised(input.doc.items).PropagateFailure()
    ensures out.Done? ==>
      input.Decoded? && input.doc.JList? && Normalised(input.doc.items).Done? &&
      var sorted := SortRecords(Normalised(input.doc.items).value);
      |out.value.rows| == |sorted| == |input.doc.items| &&
      (forall k :: 0 <= k < |sorted| ==> out.value.rows[k] == RecordRow(sorted[k])) &&
      out.value.summary == SummaryRows(sorted, now) && out.value.filter == "A1:D" + IntToText(|sorted| + 1)
    ensures argsOk && input.Decoded? && input.doc.JList? && Normalised(input.doc.items).Done? ==> out.Done?
    ensures out.Done? ==> |out.value.widths| == 4 && |out.value.summaryWidths| == 2
    ensures out.Done? ==> forall c :: 0 <= c < 4 ==>
      out.value.widths[c] == Clamp(ColumnMax(Lengths([HeaderRow()] + out.value.rows, CellText), c), 0, 60)
    ensures out.Done? ==> forall c :: 0 <= c < 2 ==>
      out.value.summaryWidths[c] == Clamp(ColumnMax(Lengths(out.value.summary, CellText), c), 0, 60)
  {
    if !argsOk {
      return Exit(2);
    }
    match input {
      case Missing => return Crash("FileNotFoundError");
      case Malformed => return Crash("JSONDecodeError");
      case Decoded(doc) =>
        if !doc.JList? {
          return Crash("ValueError");
        }
        var normalized := MapAllLoop(doc.items, Normalise);
        if !normalized.Done? {
          return normalized.PropagateFailure();
        }
        var sorted := SortRecords(normalized.value);
        assert |sorted| == |multiset(sorted)| == |normalized.value|;
        var wb := WriteSheets(sorted, now);
        return Done(wb);
    }
  }
}
