/**
 * What every report script shares: how a run ends, what it finds at its input path, and the
 * rule that sizes a spreadsheet column after its longest cell.
 */
module Report {
  import opened JsonValue

  /** How a run ends: the report it builds, a deliberate `sys.exit(code)` (or `return code`
      from `main`), or an exception nobody catches. */
  datatype Outcome<T> = Done(value: T) | Exit(code: int) | Crash(error: string)
  {
    /** An ending other than `Done` passes through `:-` unchanged. */
    predicate IsFailure() { !Done? }

    function PropagateFailure<U>(): Outcome<U>
      requires IsFailure()
    {
      if Exit? then Exit(code) else Crash(error)
    }

    function Extract(): T
      requires Done?
    {
      value
    }
  }

  /** What the script finds at its input path: nothing, text that is not JSON, or a document. */
  datatype Input = Missing | Malformed | Decoded(doc: Json)

  /** A value openpyxl accepts as a cell: a list or a dict makes `ws.append` raise ValueError. */
  predicate CellValue(v: Json) {
    !v.JList? && !v.JDict?
  }

  // ---------------------------------------------------------------------
  // Column widths
  // ---------------------------------------------------------------------

  /** A column is two characters wider than its longest cell, but never narrower than `floor`
      and never wider than `cap`. */
  function Clamp(longest: nat, floor: nat, cap: nat): (w: nat)
    ensures w <= cap
    ensures floor <= cap ==> floor <= w
    ensures w < cap ==> w >= longest + 2 && w >= floor
    ensures w > floor && w > longest + 2 ==> w == cap
    ensures w == cap ==> longest + 2 >= cap || floor >= cap
  {
    var wanted := if longest + 2 > floor then longest + 2 else floor;
    if wanted < cap then wanted else cap
  }

  /** With no floor the rule is `min(longest + 2, cap)`. */
  lemma ClampNoFloor(longest: nat, cap: nat)
    ensures Clamp(longest, 0, cap) == if longest + 2 < cap then longest + 2 else cap
  {
  }

  /** Longest cell of column `c`; a row too short to reach the column counts as an empty cell. */
  function ColumnMax(lens: seq<seq<nat>>, c: nat): (m: nat)
    ensures forall r :: 0 <= r < |lens| && c < |lens[r]| ==> lens[r][c] <= m
    ensures m == 0 || exists r :: 0 <= r < |lens| && c < |lens[r]| && lens[r][c] == m
  {
    if lens == [] then 0
    else
      var last := lens[|lens| - 1];
      var here := if c < |last| then last[c] else 0;
      var before := ColumnMax(lens[..|lens| - 1], c);
      assert forall r :: 0 <= r < |lens| - 1 ==> lens[..|lens| - 1][r] == lens[r];
      if here > before then here else before
  }

  /** Measures every cell of a sheet with `measure`. */
  function Lengths(rows: seq<seq<Json>>, measure: Json -> nat): (lens: seq<seq<nat>>)
    ensures |lens| == |rows|
    ensures forall r :: 0 <= r < |rows| ==> |lens[r]| == |rows[r]|
    ensures forall r, c :: 0 <= r < |rows| && 0 <= c < |rows[r]| ==> lens[r][c] == measure(rows[r][c])
  {
    seq(|rows|, r requires 0 <= r < |rows| =>
      seq(|rows[r]|, c requires 0 <= c < |rows[r]| => measure(rows[r][c])))
  }

  /** What the openpyxl width loops count for a cell: the length of `str(value)` for a truthy
      value, nothing otherwise. */
  function ShownLength(v: Json): (n: nat)
    ensures !Truthy(v) ==> n == 0
    ensures v.JStr? ==> n == |v.s|
  {
    if Truthy(v) then |PyStr(v)| else 0
  }

  /** A header row: one text cell per column name. */
  function TextCells(names: seq<string>): (cells: seq<Json>)
    ensures |cells| == |names| && forall c :: 0 <= c < |names| ==> cells[c] == JStr(names[c])
  {
    seq(|names|, c requires 0 <= c < |names| => JStr(names[c]))
  }

  /** The autosize loop: for each of the `ncols` columns, scan its cells for the longest one, then
      clamp. Every cell that fits under the cap fits in its column. */
  method ColumnWidths(lens: seq<seq<nat>>, ncols: nat, floor: nat, cap: nat) returns (widths: seq<nat>)
    ensures |widths| == ncols
    ensures forall c :: 0 <= c < ncols ==> widths[c] == Clamp(ColumnMax(lens, c), floor, cap)
    ensures forall r, c :: 0 <= r < |lens| && 0 <= c < ncols && c < |lens[r]| && lens[r][c] + 2 <= cap ==>
      lens[r][c] + 2 <= widths[c]
  {
    widths := [];
    var c := 0;
    while c < ncols
      invariant c <= ncols && |widths| == c
      invariant forall k :: 0 <= k < c ==> widths[k] == Clamp(ColumnMax(lens, k), floor, cap)
    {
      var maxLen := 0;
      var r := 0;
      while r < |lens|
        invariant r <= |lens|
        invariant maxLen == ColumnMax(lens[..r], c)
      {
        assert lens[..r + 1][..r] == lens[..r];
        if c < |lens[r]| && lens[r][c] > maxLen {
          maxLen := lens[r][c];
        }
        r := r + 1;
      }
      assert lens[..r] == lens;
      widths := widths + [Clamp(maxLen, floor, cap)];
      c := c + 1;
    }
  }

  // ---------------------------------------------------------------------
  // A step applied to every record
  // ---------------------------------------------------------------------

  /** A loop that applies `f` to each item in order and stops at the first item that makes the run
      end: the results of all items, or the ending the first such item brings. */
  function MapAll<T, R>(items: seq<T>, f: T -> Outcome<R>): (r: Outcome<seq<R>>)
    ensures r.Done? <==> forall k :: 0 <= k < |items| ==> f(items[k]).Done?
    ensures r.Done? ==> |r.value| == |items| && forall k :: 0 <= k < |items| ==> r.value[k] == f(items[k]).value
    ensures r.Crash? ==> exists k :: 0 <= k < |items| && f(items[k]) == Crash(r.error)
    ensures r.Exit? ==> exists k :: 0 <= k < |items| && f(items[k]) == Exit(r.code)
  {
    if items == [] then Done([])
    else
      var init := items[..|items| - 1];
      assert forall k :: 0 <= k < |init| ==> init[k] == items[k];
      match MapAll(init, f)
      case Done(rs) => (
        match f(items[|items| - 1])
        case Done(x) => Done(rs + [x])
        case Exit(c) => Exit(c)
        case Crash(e) => Crash(e))
      case Exit(c) => Exit(c)
      case Crash(e) => Crash(e)
  }

  /** One more item: its result is appended, or its ending becomes the run's. */
  lemma MapAllStep<T, R>(items: seq<T>, i: nat, f: T -> Outcome<R>, done: seq<R>)
    requires i < |items| && MapAll(items[..i], f) == Done(done)
    ensures MapAll(items[..i + 1], f) ==
      match f(items[i])
      case Done(x) => Done(done + [x])
      case Exit(c) => Exit(c)
      case Crash(e) => Crash(e)
  {
    assert items[..i + 1][..i] == items[..i];
  }

  /** When no item ends the run, the result lists every item's value. */
  lemma {:induction false} MapAllDone<T, R>(items: seq<T>, f: T -> Outcome<R>, values: seq<R>)
    requires |values| == |items|
    requires forall k :: 0 <= k < |items| ==> f(items[k]) == Done(values[k])
    ensures MapAll(items, f) == Done(values)
  {
    if items != [] {
      var init := items[..|items| - 1];
      var front := values[..|values| - 1];
      assert forall k :: 0 <= k < |init| ==> init[k] == items[k] && front[k] == values[k];
      MapAllDone(init, f, front);
      assert values == front + [values[|values| - 1]];
    }
  }

  /** Once an item ends the run, the items after it change nothing. */
  lemma {:induction false} MapAllStop<T, R>(items: seq<T>, i: nat, f: T -> Outcome<R>)
    requires i < |items| && !MapAll(items[..i + 1], f).Done?
    ensures MapAll(items, f) == MapAll(items[..i + 1], f)
    decreases |items|
  {
    if |items| > i + 1 {
      var init := items[..|items| - 1];
      assert init[..i + 1] == items[..i + 1];
      MapAllStop(init, i, f);
    } else {
      assert items[..i + 1] == items;
    }
  }

  /** A loop that appends the pieces `f` gives for each item, in order, and stops at the first
      item that makes the run end. */
  function Gather<T, R>(items: seq<T>, f: T -> Outcome<seq<R>>): (r: Outcome<seq<R>>)
    ensures r.Done? <==> forall k :: 0 <= k < |items| ==> f(items[k]).Done?
    ensures r.Crash? ==> exists k :: 0 <= k < |items| && f(items[k]) == Crash(r.error)
    ensures r.Exit? ==> exists k :: 0 <= k < |items| && f(items[k]) == Exit(r.code)
  {
    if items == [] then Done([])
    else
      var init := items[..|items| - 1];
      assert forall k :: 0 <= k < |init| ==> init[k] == items[k];
      match Gather(init, f)
      case Done(rs) => (
        match f(items[|items| - 1])
        case Done(x) => Done(rs + x)
        case Exit(c) => Exit(c)
        case Crash(e) => Crash(e))
      case Exit(c) => Exit(c)
      case Crash(e) => Crash(e)
  }

  lemma GatherStep<T, R>(items: seq<T>, i: nat, f: T -> Outcome<seq<R>>, done: seq<R>)
    requires i < |items| && Gather(items[..i], f) == Done(done)
    ensures Gather(items[..i + 1], f) ==
      match f(items[i])
      case Done(x) => Done(done + x)
      case Exit(c) => Exit(c)
      case Crash(e) => Crash(e)
  {
    assert items[..i + 1][..i] == items[..i];
  }

  lemma {:induction false} GatherStop<T, R>(items: seq<T>, i: nat, f: T -> Outcome<seq<R>>)
    requires i < |items| && !Gather(items[..i + 1], f).Done?
    ensures Gather(items, f) == Gather(items[..i + 1], f)
    decreases |items|
  {
    if |items| > i + 1 {
      var init := items[..|items| - 1];
      assert init[..i + 1] == items[..i + 1];
      GatherStop(init, i, f);
    } else {
      assert items[..i + 1] == items;
    }
  }

  /** The loop of `MapAll`: one call of `f` per item, stopping at the first ending. */
  method MapAllLoop<T, R>(items: seq<T>, f: T -> Outcome<R>) returns (r: Outcome<seq<R>>)
    ensures r == MapAll(items, f)
  {
    var done: seq<R> := [];
    var i := 0;
    while i < |items|
      invariant i <= |items| && MapAll(items[..i], f) == Done(done)
    {
      MapAllStep(items, i, f, done);
      var x := f(items[i]);
      if !x.Done? {
        MapAllStop(items, i, f);
        return x.PropagateFailure();
      }
      done := done + [x.value];
      i := i + 1;
    }
    assert items[..i] == items;
    return Done(done);
  }

  /** The loop of `Gather`. */
  method GatherLoop<T, R>(items: seq<T>, f: T -> Outcome<seq<R>>) returns (r: Outcome<seq<R>>)
    ensures r == Gather(items, f)
  {
    var done: seq<R> := [];
    var i := 0;
    while i < |items|
      invariant i <= |items| && Gather(items[..i], f) == Done(done)
    {
      GatherStep(items, i, f, done);
      var x := f(items[i]);
      if !x.Done? {
        GatherStop(items, i, f);
        return x.PropagateFailure();
      }
      done := done + x.value;
      i := i + 1;
    }
    assert items[..i] == items;
    return Done(done);
  }

  // ---------------------------------------------------------------------
  // Sums
  // ---------------------------------------------------------------------

  /** Item `k` is the first whose summand fails. */
  predicate FirstFailure<T, R>(items: seq<T>, f: T -> Outcome<R>, k: int) {
    0 <= k < |items| && !f(items[k]).Done? && forall j :: 0 <= j < k ==> f(items[j]).Done?
  }

  /** `sum(f(x) for x in items)`: the generator stops at the first item whose `f` raises. */
  function Sum<T>(items: seq<T>, f: T -> Outcome<int>): (r: Outcome<int>)
    ensures r.Done? <==> forall k :: 0 <= k < |items| ==> f(items[k]).Done?
    ensures r.Crash? ==> exists k :: 0 <= k < |items| && f(items[k]) == Crash(r.error)
    ensures r.Exit? ==> exists k :: 0 <= k < |items| && f(items[k]) == Exit(r.code)
    ensures !r.Done? ==> exists k :: FirstFailure(items, f, k) && f(items[k]) == r
  {
    if items == [] then Done(0)
    else
      var init := items[..|items| - 1];
      assert forall k :: 0 <= k < |init| ==> init[k] == items[k];
      match Sum(init, f)
      case Done(s) => (
        match f(items[|items| - 1])
        case Done(x) => Done(s + x)
        case Exit(c) => Exit(c)
        case Crash(e) => Crash(e))
      case Exit(c) => Exit(c)
      case Crash(e) => Crash(e)
  }

  /** The sum over two runs of items is the sum of their sums. */
  lemma {:induction false} SumAppend<T>(a: seq<T>, b: seq<T>, f: T -> Outcome<int>)
    requires Sum(a, f).Done? && Sum(b, f).Done?
    ensures Sum(a + b, f) == Done(Sum(a, f).value + Sum(b, f).value)
    decreases |b|
  {
    if b == [] {
      assert a + b == a;
    } else {
      var init := b[..|b| - 1];
      assert (a + b)[..|a + b| - 1] == a + init;
      assert (a + b)[|a + b| - 1] == b[|b| - 1];
      assert forall k :: 0 <= k < |init| ==> init[k] == b[k];
      SumAppend(a, init, f);
    }
  }

  /** Summands that agree on every item give the same sum. */
  lemma {:induction false} SumAgree<T>(items: seq<T>, f: T -> Outcome<int>, g: T -> Outcome<int>)
    requires forall k :: 0 <= k < |items| ==> f(items[k]) == g(items[k])
    ensures Sum(items, f) == Sum(items, g)
  {
    if items != [] {
      var init := items[..|items| - 1];
      assert forall k :: 0 <= k < |init| ==> init[k] == items[k];
      SumAgree(init, f, g);
    }
  }

  // ---------------------------------------------------------------------
  // Records that are dicts
  // ---------------------------------------------------------------------

  /** The records that are dicts, in order. */
  function Dicts(data: seq<Json>): (ds: seq<seq<(string, Json)>>)
    ensures |ds| <= |data|
  {
    if data == [] then []
    else
      var init := data[..|data| - 1];
      var ds := Dicts(init);
      if data[|data| - 1].JDict? then ds + [data[|data| - 1].fields] else ds
  }

  /** Every dict of the data is kept, and nothing else is. */
  lemma {:induction false} DictsMembers(data: seq<Json>)
    ensures forall k :: 0 <= k < |data| && data[k].JDict? ==> data[k].fields in Dicts(data)
    ensures forall k :: 0 <= k < |Dicts(data)| ==> JDict(Dicts(data)[k]) in data
  {
    if data != [] {
      var init := data[..|data| - 1];
      DictsMembers(init);
      assert forall k :: 0 <= k < |init| ==> init[k] == data[k];
      assert forall v :: v in init ==> v in data;
    }
  }

  lemma DictsStep(data: seq<Json>, i: nat)
    requires i < |data|
    ensures Dicts(data[..i + 1]) == if data[i].JDict? then Dicts(data[..i]) + [data[i].fields] else Dicts(data[..i])
  {
    assert data[..i + 1][..i] == data[..i];
  }

  /** `for rec in data: if not isinstance(rec, dict): continue; rows.append(f(rec))` */
  method KeepDicts<R>(data: seq<Json>, f: seq<(string, Json)> -> R) returns (rows: seq<R>)
    ensures |rows| == |Dicts(data)|
    ensures forall k :: 0 <= k < |rows| ==> rows[k] == f(Dicts(data)[k])
  {
    rows := [];
    var i := 0;
    while i < |data|
      invariant i <= |data| && |rows| == |Dicts(data[..i])|
      invariant forall k :: 0 <= k < |rows| ==> rows[k] == f(Dicts(data[..i])[k])
    {
      DictsStep(data, i);
      if data[i].JDict? {
        rows := rows + [f(data[i].fields)];
      }
      i := i + 1;
    }
    assert data[..i] == data;
  }
}
