/**
 * The two Deep Security 2022 report scripts: `json_to_excel_ds2022.py` and its successor
 * `check_certificados_excel.py`. Both read the audit records into a frame, fix the
 * `HOSTANME_INVENTARIO` typo and give six columns their display names, and put a list of
 * preferred columns first; the second one also takes its paths from the command line and
 * sizes every column after its longest value.
 */
module Ds2022 {
  import opened JsonValue
  import opened Report
  import opened Frame

  /** The column renames both scripts apply. */
  const Renames: seq<(string, string)> := [
    ("HOSTANME_INVENTARIO", "HOSTNAME_INVENTARIO"),
    ("REQUIERE_ENROLAR_DS2022", "REQUIERE ENROLAR DS2022"),
    ("DS_AGENT_REINICIO_OK", "REINICIO DS_AGENT OK"),
    ("DS_AGENT_ACTIVE", "DS_AGENT ACTIVE"),
    ("DS_AGENT_ENABLED", "DS_AGENT ENABLED"),
    ("TMXBC_ACTIVE", "TMXBC ACTIVE"),
    ("TMXBC_ENABLED", "TMXBC ENABLED")]

  /** The leading columns of `json_to_excel_ds2022.py`. */
  const ReportPreferred: seq<string> := [
    "IP_INVENTARIO", "HOSTNAME_INVENTARIO", "HOSTNAME", "REQUIERE ENROLAR DS2022",
    "REINICIO DS_AGENT OK", "DS_AGENT ACTIVE", "DS_AGENT ENABLED", "TMXBC ACTIVE", "TMXBC ENABLED"]

  /** The leading columns of `check_certificados_excel.py`: the same, then the forced-kill flag. */
  const CertPreferred: seq<string> := ReportPreferred + ["DS_AGENT_FORCE_KILL"]

  /** Each renamed column gets its display name, the typo included. */
  lemma RenamesApply()
    ensures forall i :: 0 <= i < |Renames| ==> Renamed(Renames, Renames[i].0) == Renames[i].1
    ensures Renamed(Renames, "HOSTANME_INVENTARIO") == "HOSTNAME_INVENTARIO"
  {
    assert Distinct(Sources(Renames));
    forall i | 0 <= i < |Renames| ensures Renamed(Renames, Renames[i].0) == Renames[i].1 {
      RenamedKey(Renames, i);
    }
    RenamedKey(Renames, 0);
  }

  /** No display name is itself renamed, so renaming a second time changes nothing. */
  lemma RenamesSettle(t: Table)
    ensures Rename(Rename(t, Renames), Renames) == Rename(t, Renames)
  {
    RenameIdempotent(t, Renames);
  }

  // ---------------------------------------------------------------------
  // Reading and arranging
  // ---------------------------------------------------------------------

  /** `pd.read_json(path)` after the existence check: FileNotFoundError for a missing file,
      ValueError for text that is not JSON or does not hold a list of objects. */
  function Load(input: Input): (r: Outcome<Table>)
    ensures input.Missing? ==> r == Crash("FileNotFoundError")
    ensures input.Malformed? ==> r == Crash("ValueError")
    ensures r.Done? <==> input.Decoded? && RecordList(input.doc).Some?
    ensures r.Done? ==> r.value == FromRecords(RecordList(input.doc).value)
    ensures !r.Done? ==> r == Crash("FileNotFoundError") || r == Crash("ValueError")
  {
    match input
    case Missing => Crash("FileNotFoundError")
    case Malformed => Crash("ValueError")
    case Decoded(doc) =>
      match RecordList(doc)
      case None => Crash("ValueError")
      case Some(records) => Done(FromRecords(records))
  }

  /** Rename, then `reindex` with the preferred columns first; renaming can give two columns
      one name (an old `HOSTANME_INVENTARIO` next to a new `HOSTNAME_INVENTARIO`), which
      `reindex` refuses. */
  function Arrange(t: Table, preferred: seq<string>): (r: Outcome<Table>)
    requires Distinct(preferred)
    ensures var renamed := Rename(t, Renames);
      (r.Done? <==> Distinct(renamed.columns)) &&
      (!r.Done? ==> r == Crash("ValueError")) &&
      (r.Done? ==> r.value.columns == PreferredFirst(preferred, renamed.columns) &&
                   multiset(r.value.columns) == multiset(renamed.columns) && |r.value.rows| == |t.rows|)
    ensures r.Done? ==> forall k, name :: 0 <= k < |t.rows| && name in t.columns ==>
      Cell(r.value, k, Renamed(Renames, name)) == Cell(t, k, name)
  {
    var renamed := Rename(t, Renames);
    var order := PreferredFirst(preferred, renamed.columns);
    var r := Reindex(renamed, order);
    if !r.Done? then r
    else
      PreferredFirstPermutes(preferred, renamed.columns);
      var out := r.value;
      forall k, name | 0 <= k < |t.rows| && name in t.columns
        ensures Cell(out, k, Renamed(Renames, name)) == Cell(t, k, name)
      {
        RenameCells(t, Renames, k, name);
        assert Renamed(Renames, name) in multiset(order);
        ProjectCells(renamed, order, k, Renamed(Renames, name));
      }
      r
  }

  /** Records carrying both the misspelt and the correct inventory column end in ValueError:
      after the rename both columns are called `HOSTNAME_INVENTARIO`. */
  lemma TypoClash(t: Table, preferred: seq<string>)
    requires Distinct(preferred)
    requires "HOSTANME_INVENTARIO" in t.columns && "HOSTNAME_INVENTARIO" in t.columns
    ensures Arrange(t, preferred) == Crash("ValueError")
  {
    assert Renamed(Renames, "HOSTANME_INVENTARIO") == "HOSTNAME_INVENTARIO";
    assert Renamed(Renames, "HOSTNAME_INVENTARIO") == "HOSTNAME_INVENTARIO";
    RenameClash(t, Renames, "HOSTANME_INVENTARIO", "HOSTNAME_INVENTARIO");
  }

  /** Read, rename and reorder: the frame either script saves. */
  function Prepared(input: Input, preferred: seq<string>): (r: Outcome<Table>)
    requires Distinct(preferred)
    ensures input.Missing? ==> r == Crash("FileNotFoundError")
    ensures r.Done? ==> Load(input).Done? && Arrange(Load(input).value, preferred) == r
    ensures !r.Done? ==> r == Crash("FileNotFoundError") || r == Crash("ValueError")
  {
    var t :- Load(input);
    Arrange(t, preferred)
  }

  /** A run that saves a frame keeps every column of the input under its display name, puts
      the preferred columns that are present first, in the preferred order, and every other
      one after them in its original order. */
  lemma PreparedColumns(input: Input, preferred: seq<string>)
    requires Distinct(preferred) && Prepared(input, preferred).Done?
    ensures var renamed := Rename(Load(input).value, Renames).columns;
      var cols := Prepared(input, preferred).value.columns;
      var n := |Keep(preferred, renamed)|;
      multiset(cols) == multiset(renamed) && Distinct(cols) &&
      Subsequence(cols[..n], preferred) && Subsequence(cols[n..], renamed) &&
      (forall i :: 0 <= i < n ==> cols[i] in preferred) &&
      (forall i :: n <= i < |cols| ==> cols[i] !in preferred)
  {
    var renamed := Rename(Load(input).value, Renames).columns;
    PreferredFirstPermutes(preferred, renamed);
    PreferredFirstOrder(preferred, renamed);
    PreferredFirstBlocks(preferred, renamed);
  }

  // ---------------------------------------------------------------------
  // json_to_excel_ds2022.py
  // ---------------------------------------------------------------------

  /** The whole script with what its fixed input path holds: the frame it saves. */
  function ExportReport(input: Input): (r: Outcome<Table>)
    ensures r == Prepared(input, ReportPreferred)
    ensures input.Missing? ==> r == Crash("FileNotFoundError")
  {
    Prepared(input, ReportPreferred)
  }

  // ---------------------------------------------------------------------
  // check_certificados_excel.py
  // ---------------------------------------------------------------------

  const DefaultInput := "./Salidas_Playbooks/ds2022_result.json"
  const DefaultOutput := "./Salidas_Playbooks/ds2022_result.xlsx"

  /** The input and output paths: the first two arguments when both are given, the defaults
      otherwise. */
  function Paths(argv: seq<string>): (p: (string, string))
    ensures |argv| >= 3 ==> p == (argv[1], argv[2])
    ensures |argv| < 3 ==> p == (DefaultInput, DefaultOutput)
  {
    if |argv| >= 3 then (argv[1], argv[2]) else (DefaultInput, DefaultOutput)
  }

  /** `len(str(x))` of a cell after `astype(str)`: a missing value reads "nan". */
  function TextLength(v: Json): (n: nat)
    ensures v.JNone? ==> n == 3
    ensures v.JStr? ==> n == |v.s|
  {
    if v.JNone? then 3 else |PyStr(v)|
  }

  /** The saved sheet: where, the frame and each column's width. */
  datatype Sheet = Sheet(path: string, frame: Table, widths: seq<nat>)

  /** The script with its command line (the script name included) and the file system, read
      as what each path holds. */
  method ExportCertificates(argv: seq<string>, files: string -> Input) returns (out: Outcome<Sheet>)
    ensures var frame := Prepared(files(Paths(argv).0), CertPreferred);
      (!frame.Done? ==> out == frame.PropagateFailure()) &&
      (frame.Done? ==> out.Done? && out.value.frame == frame.value)
    ensures out.Done? ==> out.value.path == Paths(argv).1 && |out.value.widths| == |out.value.frame.columns|
    ensures out.Done? ==> forall c :: 0 <= c < |out.value.widths| ==>
      out.value.widths[c] == Clamp(ColumnMax(Lengths([TextCells(out.value.frame.columns)] + out.value.frame.rows, TextLength), c), 0, 60) &&
      out.value.widths[c] <= 60
  {
    var (inPath, outPath) := Paths(argv);
    var frame := Prepared(files(inPath), CertPreferred);
    if !frame.Done? {
      return frame.PropagateFailure();
    }
    var t := frame.value;
    var widths := ColumnWidths(Lengths([TextCells(t.columns)] + t.rows, TextLength), |t.columns|, 0, 60);
    return Done(Sheet(outPath, t, widths));
  }
}
