/**
 * `convert_json_to_excel.py` of the OS inventory project: every host record becomes the same
 * four fields ("N/A" for a missing one), the rows are sorted stably by inventory name and then
 * hostname, and the "Inventario SO" sheet gets an autofilter over all rows and widths of at
 * most 80.
 */
module OsInventory {
  import opened PyText
  import opened JsonValue
  import opened Report
  import opened StableSort

  /** The four columns, in the order of the sheet. */
  const Columns: seq<string> := ["inventory_name", "hostname", "ip", "os_full_version"]

  /** One pass of the normalising loop: `item.get(column, "N/A")` for each column; `get` on a
      value that is not a dict raises AttributeError. */
  function ReadRow(item: Json): (r: Outcome<seq<Json>>)
    ensures !item.JDict? ==> r == Crash("AttributeError")
    ensures item.JDict? ==> r.Done? && |r.value| == |Columns|
    ensures r.Done? ==> forall c :: 0 <= c < 4 ==> r.value[c] == GetOr(item.fields, Columns[c], JStr("N/A"))
    ensures r.Done? ==> forall c :: 0 <= c < 4 && Lookup(item.fields, Columns[c]).None? ==> r.value[c] == JStr("N/A")
  {
    if !item.JDict? then Crash("AttributeError")
    else Done(seq(4, c requires 0 <= c < 4 => GetOr(item.fields, Columns[c], JStr("N/A"))))
  }

  // ---------------------------------------------------------------------
  // The stable sort
  // ---------------------------------------------------------------------

  /** Where pandas puts a value of a sort column: numbers (booleans as 0 and 1) first, then
      texts, then missing values; a list or a dict cannot be hashed, so it cannot be sorted. */
  function Rank(v: Json): (k: Option<Key>)
    ensures v.JBool? ==> k == Some([AInt(0), AInt(if v.b then 1 else 0)])
    ensures v.JInt? ==> k == Some([AInt(0), AInt(v.i)])
    ensures v.JFloat? ==> k == Some([AInt(0), AInt(v.f.Floor)])
    ensures v.JStr? ==> k == Some([AInt(1), AStr(v.s)])
    ensures v.JNone? ==> k == Some([AInt(2), AInt(0)])
    ensures v.JList? || v.JDict? <==> k.None?
  {
    match v
    case JBool(b) => Some([AInt(0), AInt(if b then 1 else 0)])
    case JInt(i) => Some([AInt(0), AInt(i)])
    case JFloat(f, _) => Some([AInt(0), AInt(f.Floor)])
    case JStr(s) => Some([AInt(1), AStr(s)])
    case JNone => Some([AInt(2), AInt(0)])
    case _ => None
  }

  /** A number of the sort column. */
  predicate IsNumber(v: Json) { v.JBool? || v.JInt? || v.JFloat? }

  /** Numbers sort before texts and texts before missing values; numbers sort by value (a float by
      its floor), texts by code points. */
  lemma RankTiers(u: Json, w: Json)
    ensures IsNumber(u) && w.JStr? ==> KeyCmp(Rank(u).value, Rank(w).value) < 0
    ensures IsNumber(u) && w.JNone? ==> KeyCmp(Rank(u).value, Rank(w).value) < 0
    ensures u.JStr? && w.JNone? ==> KeyCmp(Rank(u).value, Rank(w).value) < 0
    ensures u.JInt? && w.JInt? ==> (KeyCmp(Rank(u).value, Rank(w).value) < 0 <==> u.i < w.i)
    ensures u.JFloat? && w.JFloat? && u.f <= w.f ==> KeyCmp(Rank(u).value, Rank(w).value) <= 0
    ensures u.JStr? && w.JStr? ==> KeyCmp(Rank(u).value, Rank(w).value) == StrCmp(u.s, w.s)
  {
    var a, b := Rank(u), Rank(w);
    if a.Some? && b.Some? && a.value[0] == b.value[0] {
      SameTier(a.value[0].i, a.value[1], b.value[1]);
      if u.JFloat? && w.JFloat? && u.f <= w.f {
        assert u.f.Floor <= w.f.Floor;
      }
    }
  }

  /** Two keys of one tier compare by their values. */
  lemma SameTier(t: int, x: Atom, y: Atom)
    ensures KeyCmp([AInt(t), x], [AInt(t), y]) == AtomCmp(x, y)
  {
    assert [AInt(t), x][1..] == [x] && [AInt(t), y][1..] == [y];
    assert [x][1..] == [] && [y][1..] == [];
    assert KeyCmp([x], [y]) == AtomCmp(x, y);
    assert AtomCmp(AInt(t), AInt(t)) == 0;
  }

  /** Every row can be ranked on both sort columns. */
  predicate Sortable(rows: seq<seq<Json>>) {
    forall k :: 0 <= k < |rows| ==> |rows[k]| >= 2 && Rank(rows[k][0]).Some? && Rank(rows[k][1]).Some?
  }

  /** The key `(inventory_name, hostname)`. */
  function RowKey(row: seq<Json>): Key
  {
    if |row| >= 2 && Rank(row[0]).Some? && Rank(row[1]).Some? then Rank(row[0]).value + Rank(row[1]).value
    else []
  }

  /** `sort_values(by=["inventory_name", "hostname"], kind="stable")`; TypeError when a sort
      column holds a list or a dict. */
  function SortRows(rows: seq<seq<Json>>): (r: Outcome<seq<seq<Json>>>)
    ensures r.Done? <==> Sortable(rows)
    ensures !r.Done? ==> r == Crash("TypeError")
    ensures r.Done? ==> multiset(r.value) == multiset(rows) && SortedBy(r.value, RowKey)
    ensures r.Done? ==> forall k :: Select(r.value, RowKey, k) == Select(rows, RowKey, k)
  {
    if !Sortable(rows) then Crash("TypeError")
    else
      SortBySorted(rows, RowKey);
      SortByPermutes(rows, RowKey);
      forall k ensures Select(SortBy(rows, RowKey), RowKey, k) == Select(rows, RowKey, k) {
        SortByStable(rows, RowKey, k);
      }
      Done(SortBy(rows, RowKey))
  }

  /** How two keys of texts compare: by inventory name, then by hostname. */
  lemma TextKeyCmp(a: seq<Json>, b: seq<Json>)
    requires |a| >= 2 && |b| >= 2 && a[0].JStr? && a[1].JStr? && b[0].JStr? && b[1].JStr?
    ensures KeyCmp(RowKey(a), RowKey(b)) <= 0 <==>
      StrCmp(a[0].s, b[0].s) < 0 || (StrCmp(a[0].s, b[0].s) == 0 && StrCmp(a[1].s, b[1].s) <= 0)
  {
    var ka, kb := RowKey(a), RowKey(b);
    assert ka == [AInt(1), AStr(a[0].s), AInt(1), AStr(a[1].s)];
    assert kb == [AInt(1), AStr(b[0].s), AInt(1), AStr(b[1].s)];
    assert ka[1..] == [AStr(a[0].s), AInt(1), AStr(a[1].s)] && kb[1..] == [AStr(b[0].s), AInt(1), AStr(b[1].s)];
    assert ka[1..][1..] == [AInt(1), AStr(a[1].s)] && kb[1..][1..] == [AInt(1), AStr(b[1].s)];
    assert ka[1..][1..][1..] == [AStr(a[1].s)] && kb[1..][1..][1..] == [AStr(b[1].s)];
    assert ka[1..][1..][1..][1..] == [] && kb[1..][1..][1..][1..] == [];
    assert KeyCmp(ka[1..][1..][1..], kb[1..][1..][1..]) == StrCmp(a[1].s, b[1].s);
    assert KeyCmp(ka[1..][1..], kb[1..][1..]) == StrCmp(a[1].s, b[1].s);
  }

  /** When both sort columns hold texts, the rows come out ordered by inventory name and, for
      one inventory name, by hostname. */
  lemma SortedByNames(rows: seq<seq<Json>>)
    requires forall k :: 0 <= k < |rows| ==> |rows[k]| >= 2 && rows[k][0].JStr? && rows[k][1].JStr?
    ensures SortRows(rows).Done?
    ensures forall i :: 0 <= i < |SortRows(rows).value| ==>
      |SortRows(rows).value[i]| >= 2 && SortRows(rows).value[i][0].JStr? && SortRows(rows).value[i][1].JStr?
    ensures var s := SortRows(rows).value;
      forall i, j :: 0 <= i < j < |s| ==>
        StrCmp(s[i][0].s, s[j][0].s) < 0 || (StrCmp(s[i][0].s, s[j][0].s) == 0 && StrCmp(s[i][1].s, s[j][1].s) <= 0)
  {
    var s: seq<seq<Json>> := SortRows(rows).value;
    forall i | 0 <= i < |s| ensures |s[i]| >= 2 && s[i][0].JStr? && s[i][1].JStr? {
      assert s[i] in multiset(rows);
    }
    forall i, j | 0 <= i < j < |s|
      ensures StrCmp(s[i][0].s, s[j][0].s) < 0 || (StrCmp(s[i][0].s, s[j][0].s) == 0 && StrCmp(s[i][1].s, s[j][1].s) <= 0)
    {
      TextKeyCmp(s[i], s[j]);
    }
  }

  // ---------------------------------------------------------------------
  // The sheet
  // ---------------------------------------------------------------------

  /** What `autosize_columns` measures: the length of `str(value)` (None reads "None"). */
  function CellText(v: Json): (n: nat)
    ensures v.JStr? ==> n == |v.s|
    ensures v.JNone? ==> n == 4
  {
    |PyStr(v)|
  }

  /** The autofilter range: from A1 to column D of the last row, header included; the row
      number after "A1:D" reads back as the number of data rows plus one. */
  function FilterRef(rowCount: nat): (ref: string)
    ensures |ref| > 4 && ref[..4] == "A1:D"
    ensures ParseInt(ref[4..]) == Some(rowCount + 1)
  {
    var ref := "A1:D" + IntToText(rowCount + 1);
    assert ref[4..] == IntToText(rowCount + 1);
    IntTextRoundTrip(rowCount + 1);
    ref
  }

  /** The sheet: data rows below the header, the widths and the autofilter range. */
  datatype Sheet = Sheet(rows: seq<seq<Json>>, widths: seq<nat>, filter: string)

  function HeaderRow(): seq<Json>
  {
    [JStr(Columns[0]), JStr(Columns[1]), JStr(Columns[2]), JStr(Columns[3])]
  }

  /** The rows before sorting, or the exception that ends the loop. */
  function ReadRows(data: seq<Json>): Outcome<seq<seq<Json>>>
  {
    MapAll(data, ReadRow)
  }

  /** `main()` with what the input path holds. */
  method ExportInventory(input: Input) returns (out: Outcome<Sheet>)
    ensures input.Missing? ==> out == Exit(1)
    ensures input.Malformed? ==> out == Crash("JSONDecodeError")
    ensures input.Decoded? && !input.doc.JList? ==> out == Exit(1)
    ensures input.Decoded? && input.doc.JList? ==>
      var rows := ReadRows(input.doc.items);
      (!rows.Done? ==> out == Crash("AttributeError")) &&
      (rows.Done? && !SortRows(rows.value).Done? ==> out == Crash("TypeError")) &&
      (rows.Done? && SortRows(rows.value).Done? ==> out.Done? && out.value.rows == SortRows(rows.value).value)
    ensures out.Done? ==>
      input.Decoded? && input.doc.JList? &&
      |out.value.rows| == |input.doc.items| && |out.value.widths| == 4 &&
      out.value.filter == FilterRef(|input.doc.items|) &&
      (forall c :: 0 <= c < 4 ==> out.value.widths[c] == Clamp(ColumnMax(Lengths([HeaderRow()] + out.value.rows, CellText), c), 0, 80))
  {
    match input {
      case Missing => return Exit(1);
      case Malformed => return Crash("JSONDecodeError");
      case Decoded(doc) =>
        if !doc.JList? {
          return Exit(1);
        }
        var rows := MapAllLoop(doc.items, ReadRow);
        if !rows.Done? {
          return Crash("AttributeError");
        }
        var sorted := SortRows(rows.value);
        if !sorted.Done? {
          return Crash("TypeError");
        }
        assert |sorted.value| == |multiset(sorted.value)| == |rows.value|;
        var widths := ColumnWidths(Lengths([HeaderRow()] + sorted.value, CellText), 4, 0, 80);
        return Done(Sheet(sorted.value, widths, FilterRef(|sorted.value|)));
    }
  }
}
