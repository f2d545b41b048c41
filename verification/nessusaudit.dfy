/**
 * `generar_excel_nessus.py`: the "Nessus Audit" sheet written cell by cell with xlsxwriter.
 * Each record fills one row from row 1 on (rows and columns counted from 0, as xlsxwriter
 * does): hostname, IP, agent version, the state painted green or red and the final state
 * painted green, red or yellow. The autofilter then covers every written row.
 */
module NessusAudit {
  import opened PyText
  import opened JsonValue
  import opened Report

  /** The formats a cell can be written with. */
  datatype Format = Plain | HeaderFormat | Installed | NotInstalled | Neutral

  /** One `worksheet.write(row, col, value, format)`. */
  datatype CellWrite = CellWrite(row: nat, col: nat, value: Json, format: Format)

  // ---------------------------------------------------------------------
  // Colour rules
  // ---------------------------------------------------------------------

  /** The "Estado" cell is green when the state reads "instalado" in lower case, red otherwise. */
  function EstadoFormat(estado: string): (f: Format)
    ensures f == Installed <==> Lower(estado) == "instalado"
    ensures f == Installed || f == NotInstalled
  {
    if Lower(estado) == "instalado" then Installed else NotInstalled
  }

  /** The "Estado Final" cell is green once the agent is uninstalled, red while it is still
      installed and yellow for anything else. */
  function FinalFormat(estadoFinal: string): (f: Format)
    ensures f == Installed <==> Lower(estadoFinal) == "desinstalado"
    ensures f == NotInstalled <==> Lower(estadoFinal) == "instalado"
    ensures f == Neutral <==> Lower(estadoFinal) != "desinstalado" && Lower(estadoFinal) != "instalado"
  {
    if Lower(estadoFinal) == "desinstalado" then Installed
    else if Lower(estadoFinal) == "instalado" then NotInstalled
    else Neutral
  }

  /** Lower-casing twice is lower-casing once. */
  lemma LowerIdempotent(s: string)
    ensures Lower(Lower(s)) == Lower(s)
  {
    var l := Lower(s);
    forall i | 0 <= i < |s| ensures Lower(l)[i] == l[i] {
      assert l[i] == LowerChar(s[i]);
    }
  }

  /** Both colour rules ignore case: a state and its lower-case form get the same colours. */
  lemma FormatsIgnoreCase(s: string)
    ensures EstadoFormat(Lower(s)) == EstadoFormat(s)
    ensures FinalFormat(Lower(s)) == FinalFormat(s)
  {
    LowerIdempotent(s);
  }

  // ---------------------------------------------------------------------
  // One record
  // ---------------------------------------------------------------------

  /** What the loop reads from one record. */
  datatype Entry = Entry(hostname: Json, ip: Json, version: Json, estado: string, estadoFinal: string)

  /** The hostname, IP and version `write` can store: none is a list or a dict. */
  predicate CellsWritable(fields: seq<(string, Json)>) {
    CellValue(GetOr(fields, "hostname", JStr("Desconocido"))) &&
    CellValue(GetOr(fields, "ip", JStr("N/A"))) &&
    CellValue(GetOr(fields, "version_nessusagent", JStr("No instalado")))
  }

  /** Both states can be lower-cased: they are texts. */
  predicate StatesText(fields: seq<(string, Json)>) {
    GetOr(fields, "estado", JStr("No instalado")).JStr? && GetOr(fields, "estado_final", JStr("N/A")).JStr?
  }

  /** Lines 37-41 with their defaults, and the exceptions the rest of the loop body raises:
      `get` on a value that is not a dict and `lower` on a state that is not a text raise
      AttributeError, and `write` of a list or a dict raises TypeError. */
  function ReadEntry(item: Json): (r: Outcome<Entry>)
    ensures !item.JDict? ==> r == Crash("AttributeError")
    ensures r.Done? ==>
      r.value.hostname == GetOr(item.fields, "hostname", JStr("Desconocido")) &&
      r.value.ip == GetOr(item.fields, "ip", JStr("N/A")) &&
      r.value.version == GetOr(item.fields, "version_nessusagent", JStr("No instalado")) &&
      JStr(r.value.estado) == GetOr(item.fields, "estado", JStr("No instalado")) &&
      JStr(r.value.estadoFinal) == GetOr(item.fields, "estado_final", JStr("N/A"))
    ensures r.Done? ==> CellValue(r.value.hostname) && CellValue(r.value.ip) && CellValue(r.value.version)
    ensures (item.JDict? && Lookup(item.fields, "estado").None? && Lookup(item.fields, "estado_final").None? &&
             CellValue(GetOr(item.fields, "hostname", JStr("Desconocido"))) &&
             CellValue(GetOr(item.fields, "ip", JStr("N/A"))) &&
             CellValue(GetOr(item.fields, "version_nessusagent", JStr("No instalado")))) ==>
      r.Done? && r.value.estado == "No instalado" && r.value.estadoFinal == "N/A"
    ensures !r.Done? ==> r == Crash("AttributeError") || r == Crash("TypeError")
    ensures item.JDict? && !CellsWritable(item.fields) ==> r == Crash("TypeError")
    ensures item.JDict? && CellsWritable(item.fields) && !StatesText(item.fields) ==> r == Crash("AttributeError")
    ensures r.Done? <==> item.JDict? && CellsWritable(item.fields) && StatesText(item.fields)
  {
    if !item.JDict? then Crash("AttributeError")
    else
      var h := GetOr(item.fields, "hostname", JStr("Desconocido"));
      var ip := GetOr(item.fields, "ip", JStr("N/A"));
      var v := GetOr(item.fields, "version_nessusagent", JStr("No instalado"));
      var e := GetOr(item.fields, "estado", JStr("No instalado"));
      var ef := GetOr(item.fields, "estado_final", JStr("N/A"));
      if !CellValue(h) || !CellValue(ip) || !CellValue(v) then Crash("TypeError")
      else if !e.JStr? || !ef.JStr? then Crash("AttributeError")
      else Done(Entry(h, ip, v, e.s, ef.s))
  }

  /** The five writes of one record at `row`. */
  function RowWrites(row: nat, e: Entry): (ws: seq<CellWrite>)
    ensures |ws| == 5
    ensures forall c :: 0 <= c < 5 ==> ws[c].row == row && ws[c].col == c
    ensures ws[3].value == JStr(e.estado) && ws[3].format == EstadoFormat(e.estado)
    ensures ws[4].value == JStr(e.estadoFinal) && ws[4].format == FinalFormat(e.estadoFinal)
    ensures ws[0].value == e.hostname && ws[1].value == e.ip && ws[2].value == e.version
    ensures ws[0].format == Plain && ws[1].format == Plain && ws[2].format == Plain
  {
    [CellWrite(row, 0, e.hostname, Plain), CellWrite(row, 1, e.ip, Plain), CellWrite(row, 2, e.version, Plain),
     CellWrite(row, 3, JStr(e.estado), EstadoFormat(e.estado)),
     CellWrite(row, 4, JStr(e.estadoFinal), FinalFormat(e.estadoFinal))]
  }

  /** The header row. */
  function HeaderWrites(): (ws: seq<CellWrite>)
    ensures |ws| == 5 && forall c :: 0 <= c < 5 ==> ws[c].row == 0 && ws[c].col == c && ws[c].format == HeaderFormat
  {
    [CellWrite(0, 0, JStr("Hostname"), HeaderFormat), CellWrite(0, 1, JStr("IP"), HeaderFormat),
     CellWrite(0, 2, JStr("Versión NessusAgent"), HeaderFormat), CellWrite(0, 3, JStr("Estado"), HeaderFormat),
     CellWrite(0, 4, JStr("Estado Final"), HeaderFormat)]
  }

  // ---------------------------------------------------------------------
  // The sheet
  // ---------------------------------------------------------------------

  /** `worksheet.autofilter(first_row, first_col, last_row, last_col)` */
  datatype Filter = Filter(firstRow: nat, firstCol: nat, lastRow: int, lastCol: nat)

  /** Every write in order, and the autofilter. */
  datatype Sheet = Sheet(writes: seq<CellWrite>, filter: Filter)

  /** The records the loop visits: list items, the keys of a dict or the characters of a text;
      anything else is not iterable (TypeError). */
  function Records(input: Input): (r: Outcome<seq<Json>>)
    ensures input.Missing? ==> r == Crash("FileNotFoundError")
    ensures input.Malformed? ==> r == Crash("JSONDecodeError")
    ensures input.Decoded? && input.doc.JList? ==> r == Done(input.doc.items)
    ensures input.Decoded? && input.doc.JDict? ==> var ks := Keys(input.doc.fields);
      r.Done? && |r.value| == |ks| && forall i :: 0 <= i < |ks| ==> r.value[i] == JStr(ks[i])
    ensures input.Decoded? && input.doc.JStr? ==> var t := input.doc.s;
      r.Done? && |r.value| == |t| && forall i :: 0 <= i < |t| ==> r.value[i] == JStr([t[i]])
    ensures input.Decoded? && !(input.doc.JList? || input.doc.JDict? || input.doc.JStr?) ==> r == Crash("TypeError")
  {
    match input
    case Missing => Crash("FileNotFoundError")
    case Malformed => Crash("JSONDecodeError")
    case Decoded(doc) =>
      match Iter(doc)
      case Some(items) => Done(items)
      case None => Crash("TypeError")
  }

  /** The writes of the records in `entries`, the record `entries[k]` in row `k + 1`. */
  function Body(entries: seq<Entry>): (ws: seq<CellWrite>)
    ensures |ws| == 5 * |entries|
  {
    if entries == [] then []
    else Body(entries[..|entries| - 1]) + RowWrites(|entries|, entries[|entries| - 1])
  }

  /** One more record appends its row of writes. */
  lemma BodyStep(entries: seq<Entry>, e: Entry)
    ensures Body(entries + [e]) == Body(entries) + RowWrites(|entries| + 1, e)
  {
    var n := entries + [e];
    assert n[..|n| - 1] == entries && n[|n| - 1] == e;
    assert Body(n) == Body(n[..|n| - 1]) + RowWrites(|n|, n[|n| - 1]);
  }

  /** Record `k` fills writes `5k` to `5k + 4`: all in row `k + 1`, in column order. */
  lemma {:induction false} BodyLayout(entries: seq<Entry>)
    ensures forall k :: 0 <= k < |entries| ==> Body(entries)[5 * k..5 * k + 5] == RowWrites(k + 1, entries[k])
  {
    if entries != [] {
      var init := entries[..|entries| - 1];
      BodyLayout(init);
      var before := Body(init);
      var last := RowWrites(|entries|, entries[|entries| - 1]);
      var w := Body(entries);
      assert w == before + last;
      forall k | 0 <= k < |entries|
        ensures w[5 * k..5 * k + 5] == RowWrites(k + 1, entries[k])
      {
        if k < |init| {
          assert w[5 * k..5 * k + 5] == before[5 * k..5 * k + 5];
          assert init[k] == entries[k];
        } else {
          assert w[5 * k..5 * k + 5] == last;
        }
      }
    }
  }

  /** The entries of every record, or the exception of the first one that cannot be read. */
  function Entries(data: seq<Json>): (r: Outcome<seq<Entry>>)
    ensures r.Done? ==> |r.value| == |data|
  {
    MapAll(data, ReadEntry)
  }

  /** One more record adds its entry or ends the run with its exception. */
  lemma EntriesStep(data: seq<Json>, i: nat, entries: seq<Entry>)
    requires i < |data| && Entries(data[..i]) == Done(entries)
    ensures ReadEntry(data[i]).Done? ==> Entries(data[..i + 1]) == Done(entries + [ReadEntry(data[i]).value])
    ensures !ReadEntry(data[i]).Done? ==> ReadEntry(data[i]).Crash? && Entries(data) == Crash(ReadEntry(data[i]).error)
  {
    MapAllStep(data, i, ReadEntry, entries);
    if !ReadEntry(data[i]).Done? {
      MapAllStop(data, i, ReadEntry);
    }
  }

  /** The loop over the records (lines 35-61): `row` starts below the header and each record
      is written in it before it moves down; the first record that cannot be written ends the
      loop with its exception. */
  method WriteRecords(data: seq<Json>) returns (r: Outcome<seq<CellWrite>>)
    ensures !Entries(data).Done? ==> r == Entries(data).PropagateFailure()
    ensures Entries(data).Done? ==> r == Done(Body(Entries(data).value))
  {
    ghost var entries: seq<Entry> := [];
    var writes: seq<CellWrite> := [];
    var row := 1;
    while row <= |data|
      invariant 1 <= row <= |data| + 1 && |entries| == row - 1
      invariant Entries(data[..row - 1]) == Done(entries)
      invariant writes == Body(entries)
    {
      var entry := ReadEntry(data[row - 1]);
      EntriesStep(data, row - 1, entries);
      if !entry.Done? {
        return Crash(entry.error);
      }
      BodyStep(entries, entry.value);
      entries := entries + [entry.value];
      writes := writes + RowWrites(row, entry.value);
      row := row + 1;
    }
    assert data[..|data|] == data;
    return Done(writes);
  }

  /** The script with what its input path holds: the header, one row of writes per record,
      and the autofilter from the header to the last written row over columns A to E. */
  method ExportAudit(input: Input) returns (out: Outcome<Sheet>)
    ensures !Records(input).Done? ==> out == Records(input).PropagateFailure()
    ensures Records(input).Done? && !Entries(Records(input).value).Done? ==>
      out == Entries(Records(input).value).PropagateFailure()
    ensures Records(input).Done? && Entries(Records(input).value).Done? ==>
      out == Done(Sheet(HeaderWrites() + Body(Entries(Records(input).value).value),
                        Filter(0, 0, |Records(input).value|, 4)))
  {
    var records := Records(input);
    if !records.Done? {
      return records.PropagateFailure();
    }
    var body := WriteRecords(records.value);
    if !body.Done? {
      return body.PropagateFailure();
    }
    return Done(Sheet(HeaderWrites() + body.value, Filter(0, 0, |records.value|, 4)));
  }

  /** A run that writes every record: the header first, then record `k` in row `k + 1`, the
      states painted by the colour rules, and the autofilter down to row `|data|`. */
  lemma SheetLayout(data: seq<Json>)
    requires Entries(data).Done?
    ensures var ws := HeaderWrites() + Body(Entries(data).value);
      |ws| == 5 + 5 * |data| && ws[..5] == HeaderWrites() &&
      forall k :: 0 <= k < |data| ==> ws[5 + 5 * k..10 + 5 * k] == RowWrites(k + 1, ReadEntry(data[k]).value)
  {
    var entries := Entries(data).value;
    BodyLayout(entries);
    AfterHeader(HeaderWrites(), Body(entries), entries);
    assert (HeaderWrites() + Body(entries))[..5] == HeaderWrites();
  }

  /** Behind a five-write header, record `k`'s writes move five places on. */
  lemma AfterHeader(header: seq<CellWrite>, body: seq<CellWrite>, entries: seq<Entry>)
    requires |header| == 5 && |body| == 5 * |entries|
    requires forall k :: 0 <= k < |entries| ==> body[5 * k..5 * k + 5] == RowWrites(k + 1, entries[k])
    ensures forall k :: 0 <= k < |entries| ==> (header + body)[5 + 5 * k..10 + 5 * k] == RowWrites(k + 1, entries[k])
  {
    forall k | 0 <= k < |entries| ensures (header + body)[5 + 5 * k..10 + 5 * k] == RowWrites(k + 1, entries[k]) {
      SliceAfter(header, body, 5 * k, 5 * k + 5);
    }
  }

  lemma SliceAfter<T>(a: seq<T>, b: seq<T>, i: nat, j: nat)
    requires i <= j <= |b|
    ensures (a + b)[|a| + i..|a| + j] == b[i..j]
  {
  }
}
