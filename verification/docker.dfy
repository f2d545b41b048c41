/**
 * `docker_stats_to_excel.py`: the records of `docker stats` for one host, normalised into a
 * table with a risk level (HIGH, MED, OK) for CPU, memory and process count, and the CPU share
 * of the whole host.
 */
module DockerStats {
  import opened PyText
  import opened JsonValue
  import opened Report
  import PyNum

  // ---------------------------------------------------------------------
  // Coercions
  // ---------------------------------------------------------------------

  /** `[+-]?\d+(?:\.\d+)?` matched by a whole text, and the value `float` gives it. */
  function NumberText(t: string): (r: Option<real>)
  {
    var neg := t != [] && t[0] == '-';
    var body := if t != [] && (t[0] == '+' || t[0] == '-') then t[1..] else t;
    match Find(body, ".")
    case None =>
      if IsDigitText(body) then Some(if neg then -(DigitsValue(body) as real) else DigitsValue(body) as real)
      else None
    case Some(i) =>
      if IsDigitText(body[..i]) && IsDigitText(body[i + 1..]) then
        var v := PyNum.DecimalValue(body[..i], body[i + 1..]);
        Some(if neg then -v else v)
      else None
  }

  /** The anchored pattern `^\s*(number)\s*%?\s*$` on text that is already stripped: the number,
      then optionally blanks and one percent sign. */
  function PercentText(s: string): Option<real>
  {
    var t := if s != [] && s[|s| - 1] == '%' then RStrip(s[..|s| - 1]) else s;
    NumberText(t)
  }

  /** `to_float_percent(x)`: 0.0 for None and for text that is not a percentage. */
  function ToFloatPercent(x: Json): (r: real)
    ensures x.JNone? ==> r == 0.0
    ensures PercentText(Strip(PyStr(x))).None? ==> r == 0.0
  {
    if x.JNone? then 0.0
    else
      match PercentText(Strip(PyStr(x)))
      case None => 0.0
      case Some(v) => v
  }

  /** Digits with a fraction read as their decimal value. */
  lemma DecimalTextValue(whole: string, frac: string)
    requires IsDigitText(whole) && IsDigitText(frac)
    ensures NumberText(whole + "." + frac) == Some(PyNum.DecimalValue(whole, frac))
  {
    var body := whole + "." + frac;
    assert body[|whole|] == '.' && body[..|whole|] == whole && body[|whole| + 1..] == frac;
    assert '.' !in whole by {
      forall k | 0 <= k < |whole| ensures whole[k] != '.' {
        assert IsDigit(whole[k]);
      }
    }
    FindChar(body, '.', |whole|);
  }

  /** Text that is already stripped is read by the pattern. */
  lemma PercentOfText(s: string)
    requires s != [] && !IsSpace(s[0]) && !IsSpace(s[|s| - 1])
    ensures ToFloatPercent(JStr(s)) == match PercentText(s) case None => 0.0 case Some(v) => v
  {
    StripUnchanged(s);
    assert PyStr(JStr(s)) == s;
  }

  /** "12.34" reads as 12.34. */
  lemma PercentPlain(whole: string, frac: string)
    requires IsDigitText(whole) && IsDigitText(frac)
    ensures ToFloatPercent(JStr(whole + "." + frac)) == PyNum.DecimalValue(whole, frac)
  {
    DecimalTextValue(whole, frac);
    var num := whole + "." + frac;
    NotSpace(whole[0]);
    NotSpace(frac[|frac| - 1]);
    PercentOfText(num);
  }

  /** "12.34%" and "12.34 %" read as 12.34. */
  lemma PercentSign(whole: string, frac: string, blanks: string)
    requires IsDigitText(whole) && IsDigitText(frac)
    requires forall k :: 0 <= k < |blanks| ==> IsSpace(blanks[k])
    ensures ToFloatPercent(JStr(whole + "." + frac + blanks + "%")) == PyNum.DecimalValue(whole, frac)
  {
    DecimalTextValue(whole, frac);
    var num := whole + "." + frac;
    NotSpace(whole[0]);
    NotSpace(frac[|frac| - 1]);
    var s := num + blanks + "%";
    assert s[0] == whole[0];
    PercentOfText(s);
    assert s[..|s| - 1] == num + blanks;
    RStripBlanks(num, blanks);
  }

  /** Trailing blanks are what `rstrip` removes. */
  lemma {:induction false} RStripBlanks(t: string, blanks: string)
    requires t != [] && !IsSpace(t[|t| - 1])
    requires forall k :: 0 <= k < |blanks| ==> IsSpace(blanks[k])
    ensures RStrip(t + blanks) == t
    decreases |blanks|
  {
    if blanks == [] {
      assert t + blanks == t;
    } else {
      assert (t + blanks)[..|t + blanks| - 1] == t + blanks[..|blanks| - 1];
      RStripBlanks(t, blanks[..|blanks| - 1]);
    }
  }

  /** `to_int(x)`: `int(str(x).strip())`, or 0 when that raises. */
  function ToInt(x: Json): int
  {
    match ParseInt(PyStr(x))
    case None => 0
    case Some(n) => n
  }

  /** An integer, or its text, is returned as it is. */
  lemma ToIntRoundTrip(i: int)
    ensures ToInt(JInt(i)) == i
    ensures ToInt(JStr(IntToText(i))) == i
  {
    assert PyStr(JInt(i)) == IntToText(i);
    assert PyStr(JStr(IntToText(i))) == IntToText(i);
    IntTextRoundTrip(i);
  }

  datatype Risk = High | Med | Ok

  function RiskText(r: Risk): string
  {
    match r
    case High => "HIGH"
    case Med => "MED"
    case Ok => "OK"
  }

  /** `risk(value, hi, med)`: exactly one level; a value `float` cannot read counts as 0. */
  function RiskOf(value: Json, hi: real, med: real): (r: Risk)
    ensures var v := if FloatOf(value).Some? then FloatOf(value).value else 0.0;
      (r == High <==> v >= hi) && (r == Med <==> med <= v < hi) && (r == Ok <==> v < hi && v < med)
  {
    var v := match FloatOf(value) case Some(f) => f case None => 0.0;
    if v >= hi then High else if v >= med then Med else Ok
  }

  /** Raising the value never lowers the risk. */
  lemma RiskMonotone(a: real, b: real, hi: real, med: real)
    requires a <= b
    ensures RiskOf(JFloat(a, []), hi, med) == High ==> RiskOf(JFloat(b, []), hi, med) == High
    ensures RiskOf(JFloat(a, []), hi, med) == Med ==> RiskOf(JFloat(b, []), hi, med) != Ok
  {
  }

  // ---------------------------------------------------------------------
  // Arguments
  // ---------------------------------------------------------------------

  /** The thresholds and the number of vCPUs read from the command line. */
  datatype Settings = Settings(cpuHi: real, cpuMed: real, memHi: real, memMed: real, pidsHi: int, pidsMed: int, vcpus: nat)

  /** `max(1, int(float(text)))` */
  function HostVcpus(f: real): (n: nat)
    ensures n >= 1
    ensures PyNum.Trunc(f) >= 1 ==> n == PyNum.Trunc(f)
    ensures PyNum.Trunc(f) < 1 ==> n == 1
  {
    if PyNum.Trunc(f) >= 1 then PyNum.Trunc(f) else 1
  }

  /** Nine arguments whose thresholds `float` and `int` can read, and whose vCPU count `float`
      can read. */
  predicate Readable(args: seq<string>) {
    |args| == 9 &&
    PyNum.ParseDecimal(args[2]).Some? && PyNum.ParseDecimal(args[3]).Some? &&
    PyNum.ParseDecimal(args[4]).Some? && PyNum.ParseDecimal(args[5]).Some? &&
    ParseInt(args[6]).Some? && ParseInt(args[7]).Some? && PyNum.ParseDecimal(args[8]).Some?
  }

  /** The arguments after the script name: anything but nine of them exits with 1; a threshold
      `float` or `int` cannot read raises ValueError. */
  function ReadSettings(args: seq<string>): (r: Outcome<Settings>)
    ensures |args| != 9 <==> r == Exit(1)
    ensures |args| == 9 && !Readable(args) <==> r == Crash("ValueError")
    ensures Readable(args) <==> r.Done?
    ensures r.Done? ==>
      r.value.cpuHi == PyNum.ParseDecimal(args[2]).value && r.value.cpuMed == PyNum.ParseDecimal(args[3]).value &&
      r.value.memHi == PyNum.ParseDecimal(args[4]).value && r.value.memMed == PyNum.ParseDecimal(args[5]).value
    ensures r.Done? ==> r.value.pidsHi == ParseInt(args[6]).value && r.value.pidsMed == ParseInt(args[7]).value
    ensures r.Done? ==> r.value.vcpus == HostVcpus(PyNum.ParseDecimal(args[8]).value) && r.value.vcpus >= 1
  {
    if |args| != 9 then Exit(1)
    else if !Readable(args) then Crash("ValueError")
    else
      Done(Settings(PyNum.ParseDecimal(args[2]).value, PyNum.ParseDecimal(args[3]).value,
                    PyNum.ParseDecimal(args[4]).value, PyNum.ParseDecimal(args[5]).value,
                    ParseInt(args[6]).value, ParseInt(args[7]).value,
                    HostVcpus(PyNum.ParseDecimal(args[8]).value)))
  }

  // ---------------------------------------------------------------------
  // Records
  // ---------------------------------------------------------------------

  /** `a or b or c or ""`: the first true value, else the empty text. */
  function FirstTruthy(values: seq<Json>): (r: Json)
    ensures Truthy(r) || r == JStr("")
    ensures forall k :: 0 <= k < |values| && Truthy(values[k]) && (forall j :: 0 <= j < k ==> !Truthy(values[j])) ==> r == values[k]
    ensures (forall k :: 0 <= k < |values| ==> !Truthy(values[k])) ==> r == JStr("")
  {
    if values == [] then JStr("")
    else if Truthy(values[0]) then values[0]
    else
      var r := FirstTruthy(values[1..]);
      assert forall k :: 1 <= k < |values| ==> values[k] == values[1..][k - 1];
      r
  }

  /** One normalised record, as the script appends it to `rows`. */
  datatype Record = Record(host: string, name: Json, id: Json, cpu: real, mem: real, pids: int,
                           memUsage: Json, netIo: Json, blockIo: Json)

  function Normalise(host: string, rec: seq<(string, Json)>): (r: Record)
    ensures r.id == FirstTruthy([Get(rec, "ID"), Get(rec, "ContainerID"), Get(rec, "Container")])
    ensures r.name == FirstTruthy([Get(rec, "Name"), Get(rec, "ContainerName"), Get(rec, "Container")])
  {
    Record(host,
      FirstTruthy([Get(rec, "Name"), Get(rec, "ContainerName"), Get(rec, "Container")]),
      FirstTruthy([Get(rec, "ID"), Get(rec, "ContainerID"), Get(rec, "Container")]),
      ToFloatPercent(Get(rec, "CPUPerc")), ToFloatPercent(Get(rec, "MemPerc")), ToInt(Get(rec, "PIDs")),
      GetOr(rec, "MemUsage", JStr("")), GetOr(rec, "NetIO", JStr("")), GetOr(rec, "BlockIO", JStr("")))
  }

  /** The normalisation loop: records that are not dicts are dropped, every dict gives one record,
      in order. */
  method NormaliseAll(host: string, data: seq<Json>) returns (rows: seq<Record>)
    ensures |rows| == |Dicts(data)|
    ensures forall k :: 0 <= k < |rows| ==> rows[k] == Normalise(host, Dicts(data)[k])
  {
    rows := KeepDicts(data, rec => Normalise(host, rec));
  }

  // ---------------------------------------------------------------------
  // The table
  // ---------------------------------------------------------------------

  /** A cell of the final table. */
  datatype Cell = Value(v: Json) | Number(r: real) | Whole(i: int) | Label(s: string)

  const FinalColumns: seq<string> := [
    "Host", "Container", "ID", "CPU %", "CPU_Risk", "CPU % (vs host)", "Host_vCPUs", "Mem %", "Mem_Risk",
    "PIDs", "PIDs_Risk", "MemUsage", "NetIO", "BlockIO"
  ]

  /** A row in the final column order; the CPU share of the host is the exact quotient. */
  function FinalRow(r: Record, s: Settings): (row: seq<Cell>)
    requires s.vcpus >= 1
    ensures |row| == |FinalColumns|
    ensures row[4] == Label(RiskText(RiskOf(JFloat(r.cpu, []), s.cpuHi, s.cpuMed)))
    ensures row[8] == Label(RiskText(RiskOf(JFloat(r.mem, []), s.memHi, s.memMed)))
    ensures row[10] == Label(RiskText(RiskOf(JInt(r.pids), s.pidsHi as real, s.pidsMed as real)))
    ensures row[5] == Number(r.cpu / s.vcpus as real) && row[6] == Whole(s.vcpus)
  {
    [Label(r.host), Value(r.name), Value(r.id), Number(r.cpu),
      Label(RiskText(RiskOf(JFloat(r.cpu, []), s.cpuHi, s.cpuMed))), Number(r.cpu / s.vcpus as real),
      Whole(s.vcpus), Number(r.mem), Label(RiskText(RiskOf(JFloat(r.mem, []), s.memHi, s.memMed))),
      Whole(r.pids), Label(RiskText(RiskOf(JInt(r.pids), s.pidsHi as real, s.pidsMed as real))),
      Value(r.memUsage), Value(r.netIo), Value(r.blockIo)]
  }

  /** The rows of the table, one per record. */
  function Body(records: seq<Record>, s: Settings): (rows: seq<seq<Cell>>)
    requires s.vcpus >= 1
    ensures |rows| == |records| && forall k :: 0 <= k < |records| ==> rows[k] == FinalRow(records[k], s)
  {
    seq(|records|, k requires 0 <= k < |records| => FinalRow(records[k], s))
  }

  /** The header row: the final column names. */
  function Header(): (row: seq<Cell>)
    ensures |row| == |FinalColumns| && forall c :: 0 <= c < |row| ==> row[c] == Label(FinalColumns[c])
  {
    seq(|FinalColumns|, c requires 0 <= c < |FinalColumns| => Label(FinalColumns[c]))
  }

  /** `main()` with the arguments after the script name, what the JSON path holds and the file
      name of that path without its extension (the host name). A wrong argument count or an
      unreadable or non-list document exits with 1, an unreadable threshold raises ValueError,
      and otherwise the table is written: pandas writes a list or a dict cell as its text. */
  method ExportDocker(args: seq<string>, input: Input, stem: string) returns (out: Outcome<seq<seq<Cell>>>)
    ensures |args| != 9 ==> out == Exit(1)
    ensures ReadSettings(args).Crash? ==> out == Crash("ValueError")
    ensures ReadSettings(args).Done? && (!input.Decoded? || !input.doc.JList?) ==> out == Exit(1)
    ensures ReadSettings(args).Done? && input.Decoded? && input.doc.JList? ==>
      out == Done(Table(ReadSettings(args).value, input.doc.items, stem))
  {
    var settings := ReadSettings(args);
    if !settings.Done? {
      return if settings.Exit? then Exit(settings.code) else Crash(settings.error);
    }
    if !input.Decoded? || !input.doc.JList? {
      return Exit(1);
    }
    var table := BuildTable(settings.value, input.doc.items, stem);
    return Done(table);
  }

  /** The table of one host: the header, then one row per dict record, in order. */
  function Table(s: Settings, data: seq<Json>, stem: string): (rows: seq<seq<Cell>>)
    requires s.vcpus >= 1
    ensures |rows| == |Dicts(data)| + 1 && rows[0] == Header()
  {
    [Header()] + Body(Normalised(stem, Dicts(data)), s)
  }

  /** Row `k + 1` of the table is the final-column row of the `k`-th dict record, normalised. */
  lemma TableRow(s: Settings, data: seq<Json>, stem: string, k: int)
    requires s.vcpus >= 1 && 0 <= k < |Dicts(data)|
    ensures Table(s, data, stem)[k + 1] == FinalRow(Normalise(stem, Dicts(data)[k]), s)
  {
    BodyRow(Normalised(stem, Dicts(data)), s, k);
  }

  /** Row `k + 1` under the header is the final-column row of record `k`. */
  lemma BodyRow(records: seq<Record>, s: Settings, k: int)
    requires s.vcpus >= 1 && 0 <= k < |records|
    ensures ([Header()] + Body(records, s))[k + 1] == FinalRow(records[k], s)
  {
  }

  /** The normalised records of the dict items, in order. */
  function Normalised(stem: string, dicts: seq<seq<(string, Json)>>): (records: seq<Record>)
    ensures |records| == |dicts| && forall k :: 0 <= k < |dicts| ==> records[k] == Normalise(stem, dicts[k])
  {
    seq(|dicts|, k requires 0 <= k < |dicts| => Normalise(stem, dicts[k]))
  }

  /** Builds the table: the normalisation loop, then the final columns. */
  method BuildTable(s: Settings, data: seq<Json>, stem: string) returns (table: seq<seq<Cell>>)
    requires s.vcpus >= 1
    ensures table == Table(s, data, stem)
  {
    var records := NormaliseAll(stem, data);
    table := [Header()] + Body(records, s);
  }
}
