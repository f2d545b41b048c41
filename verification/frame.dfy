/**
 * The part of a pandas DataFrame the report scripts rely on: a frame built from a list of
 * JSON objects (one column per key, in order of first appearance, a missing key read as a
 * missing value), column renaming, and the "preferred columns first, then every other column
 * in its original order" reordering.
 */
module Frame {
  import opened PyText
  import opened JsonValue
  import opened Report

  /** No name appears twice. */
  predicate Distinct(xs: seq<string>) {
    forall i, j :: 0 <= i < j < |xs| ==> xs[i] != xs[j]
  }

  /** `a` is `b` with some items left out, the rest in their order. */
  predicate Subsequence(a: seq<string>, b: seq<string>)
    decreases |b|
  {
    if a == [] then true
    else if b == [] then false
    else if a[0] == b[0] then Subsequence(a[1..], b[1..])
    else Subsequence(a, b[1..])
  }

  // ---------------------------------------------------------------------
  // Filters
  // ---------------------------------------------------------------------

  /** `[x for x in xs if x in ys]` */
  function Keep(xs: seq<string>, ys: seq<string>): (r: seq<string>)
    ensures forall x :: x in r <==> x in xs && x in ys
    ensures Distinct(xs) ==> Distinct(r)
  {
    if xs == [] then []
    else if xs[0] in ys then [xs[0]] + Keep(xs[1..], ys)
    else Keep(xs[1..], ys)
  }

  /** `[x for x in xs if x not in ys]` */
  function Drop(xs: seq<string>, ys: seq<string>): (r: seq<string>)
    ensures forall x :: x in r <==> x in xs && x !in ys
    ensures Distinct(xs) ==> Distinct(r)
  {
    if xs == [] then []
    else if xs[0] in ys then Drop(xs[1..], ys)
    else [xs[0]] + Drop(xs[1..], ys)
  }

  lemma {:induction false} KeepSubsequence(xs: seq<string>, ys: seq<string>)
    ensures Subsequence(Keep(xs, ys), xs)
  {
    if xs != [] {
      KeepSubsequence(xs[1..], ys);
      if xs[0] !in ys {
        SubsequenceSkip(Keep(xs[1..], ys), xs);
      }
    }
  }

  lemma {:induction false} DropSubsequence(xs: seq<string>, ys: seq<string>)
    ensures Subsequence(Drop(xs, ys), xs)
  {
    if xs != [] {
      DropSubsequence(xs[1..], ys);
      if xs[0] in ys {
        SubsequenceSkip(Drop(xs[1..], ys), xs);
      }
    }
  }

  /** Leaving out the first item of `b` keeps every subsequence of what remains. */
  lemma {:induction false} SubsequenceSkip(a: seq<string>, b: seq<string>)
    requires b != [] && Subsequence(a, b[1..])
    ensures Subsequence(a, b)
    decreases |b|, 1
  {
    if a != [] && a[0] == b[0] {
      SubsequenceTail(a, b[1..]);
    }
  }

  /** Dropping the first item of a subsequence keeps it a subsequence. */
  lemma {:induction false} SubsequenceTail(a: seq<string>, b: seq<string>)
    requires a != [] && Subsequence(a, b)
    ensures Subsequence(a[1..], b)
    decreases |b|, 2
  {
    if a[0] == b[0] {
      SubsequenceSkip(a[1..], b);
    } else {
      SubsequenceTail(a, b[1..]);
      SubsequenceSkip(a[1..], b);
    }
  }

  /** The kept and the dropped items of `xs` together are `xs`, counted with repetition. */
  lemma {:induction false} KeepDropSplit(xs: seq<string>, ys: seq<string>)
    ensures multiset(Keep(xs, ys)) + multiset(Drop(xs, ys)) == multiset(xs)
  {
    if xs != [] {
      KeepDropSplit(xs[1..], ys);
      assert xs == [xs[0]] + xs[1..];
    }
  }

  /** A sequence with no repeated item holds each of its items once. */
  lemma {:induction false} DistinctCount(xs: seq<string>, x: string)
    requires Distinct(xs)
    ensures multiset(xs)[x] == if x in xs then 1 else 0
  {
    if xs != [] {
      assert Distinct(xs[1..]) by {
        forall i, j | 0 <= i < j < |xs[1..]| ensures xs[1..][i] != xs[1..][j] {
          assert xs[1..][i] == xs[i + 1] && xs[1..][j] == xs[j + 1];
        }
      }
      DistinctCount(xs[1..], x);
      assert xs == [xs[0]] + xs[1..];
      assert xs[0] !in xs[1..] by {
        forall j | 0 <= j < |xs[1..]| ensures xs[1..][j] != xs[0] {
          assert xs[1..][j] == xs[j + 1];
        }
      }
    }
  }

  /** Two sequences without repetitions that hold the same items are permutations of each other. */
  lemma SameItems(a: seq<string>, b: seq<string>)
    requires Distinct(a) && Distinct(b)
    requires forall x :: x in a <==> x in b
    ensures multiset(a) == multiset(b)
  {
    forall x ensures multiset(a)[x] == multiset(b)[x] {
      DistinctCount(a, x);
      DistinctCount(b, x);
    }
  }

  // ---------------------------------------------------------------------
  // Preferred columns first
  // ---------------------------------------------------------------------

  /** `[c for c in preferred if c in columns] + [c for c in columns if c not in preferred]` */
  function PreferredFirst(preferred: seq<string>, columns: seq<string>): (r: seq<string>)
    ensures |Keep(preferred, columns)| <= |r|
    ensures r[..|Keep(preferred, columns)|] == Keep(preferred, columns)
  {
    Keep(preferred, columns) + Drop(columns, preferred)
  }

  /** The reordering loses no column and repeats none. */
  lemma PreferredFirstPermutes(preferred: seq<string>, columns: seq<string>)
    requires Distinct(preferred) && Distinct(columns)
    ensures multiset(PreferredFirst(preferred, columns)) == multiset(columns)
    ensures Distinct(PreferredFirst(preferred, columns))
  {
    var front, back := Keep(preferred, columns), Drop(columns, preferred);
    var r := front + back;
    SameItems(front, Keep(columns, preferred));
    KeepDropSplit(columns, preferred);
    forall i, j | 0 <= i < j < |r| ensures r[i] != r[j] {
      if j < |front| {
        assert r[i] == front[i] && r[j] == front[j];
      } else if |front| <= i {
        assert r[i] == back[i - |front|] && r[j] == back[j - |front|];
      } else {
        assert r[i] == front[i] && r[j] == back[j - |front|];
        assert r[i] in preferred && r[j] !in preferred;
      }
    }
  }

  /** The preferred columns that are present come first, in the preferred order, and every
      other column follows in its original order. */
  lemma PreferredFirstOrder(preferred: seq<string>, columns: seq<string>)
    ensures var n := |Keep(preferred, columns)|;
      Subsequence(PreferredFirst(preferred, columns)[..n], preferred) &&
      Subsequence(PreferredFirst(preferred, columns)[n..], columns)
  {
    var front, back := Keep(preferred, columns), Drop(columns, preferred);
    assert (front + back)[..|front|] == front && (front + back)[|front|..] == back;
    KeepSubsequence(preferred, columns);
    DropSubsequence(columns, preferred);
  }

  /** Exactly the first `|Keep(preferred, columns)|` columns are preferred ones. */
  lemma PreferredFirstBlocks(preferred: seq<string>, columns: seq<string>)
    ensures var r := PreferredFirst(preferred, columns);
      var n := |Keep(preferred, columns)|;
      (forall i :: 0 <= i < n ==> r[i] in preferred && r[i] in columns) &&
      (forall i :: n <= i < |r| ==> r[i] !in preferred)
  {
    var front, back := Keep(preferred, columns), Drop(columns, preferred);
    var r := front + back;
    forall i | 0 <= i < |front| ensures r[i] in preferred && r[i] in columns {
      assert r[i] == front[i];
    }
    forall i | |front| <= i < |r| ensures r[i] !in preferred {
      assert r[i] == back[i - |front|];
    }
  }

  // ---------------------------------------------------------------------
  // Frames
  // ---------------------------------------------------------------------

  /** Column labels and, for every row, one cell per name. */
  datatype Table = Table(columns: seq<string>, rows: seq<seq<Json>>)

  predicate Rectangular(t: Table) {
    forall r :: 0 <= r < |t.rows| ==> |t.rows[r]| == |t.columns|
  }

  /** The keys of `ks` that `seen` does not hold yet, in their order. */
  function NewKeys(seen: seq<string>, ks: seq<string>): (r: seq<string>)
    ensures Distinct(ks) ==> Distinct(r)
    ensures forall k :: k in r <==> k in ks && k !in seen
  {
    Drop(ks, seen)
  }

  /** The column labels of `pd.DataFrame(records)`: every key of every record, once, in the
      order it first appears. */
  function ColumnsOf(records: seq<seq<(string, Json)>>): (cols: seq<string>)
    ensures Distinct(cols)
    ensures forall k :: k in cols <==> exists r :: 0 <= r < |records| && k in Keys(records[r])
  {
    if records == [] then []
    else
      var init := records[..|records| - 1];
      var before := ColumnsOf(init);
      var added := NewKeys(before, Keys(records[|records| - 1]));
      assert forall r :: 0 <= r < |init| ==> init[r] == records[r];
      var cols := before + added;
      assert Distinct(cols) by {
        forall i, j | 0 <= i < j < |cols| ensures cols[i] != cols[j] {
          if j < |before| {
            assert cols[i] == before[i] && cols[j] == before[j];
          } else if i < |before| {
            assert cols[j] == added[j - |before|] && cols[i] == before[i];
            assert cols[i] in before && cols[j] !in before;
          } else {
            assert cols[j] == added[j - |before|] && cols[i] == added[i - |before|];
          }
        }
      }
      cols
  }

  /** The first position of `x` in `xs`. */
  function IndexOf(xs: seq<string>, x: string): (i: nat)
    requires x in xs
    ensures i < |xs| && xs[i] == x
    ensures forall j :: 0 <= j < i ==> xs[j] != x
  {
    if xs[0] == x then 0 else 1 + IndexOf(xs[1..], x)
  }

  /** The cell of row `r` under `name`; pandas reads a missing one as a missing value. */
  function Cell(t: Table, r: nat, name: string): Json
  {
    if r < |t.rows| && name in t.columns && IndexOf(t.columns, name) < |t.rows[r]| then
      t.rows[r][IndexOf(t.columns, name)]
    else JNone
  }

  /** `pd.DataFrame(records)` of a list of JSON objects. */
  function FromRecords(records: seq<seq<(string, Json)>>): (t: Table)
    ensures t.columns == ColumnsOf(records) && |t.rows| == |records| && Rectangular(t)
    ensures forall r, l :: 0 <= r < |records| && l in t.columns ==> Cell(t, r, l) == Get(records[r], l)
  {
    var cols := ColumnsOf(records);
    Table(cols, seq(|records|, r requires 0 <= r < |records| =>
      seq(|cols|, c requires 0 <= c < |cols| => Get(records[r], cols[c]))))
  }

  /** A decoded document as a list of records, when it is a list of JSON objects. */
  function RecordList(doc: Json): (r: Option<seq<seq<(string, Json)>>>)
    ensures r.Some? <==> doc.JList? && forall k :: 0 <= k < |doc.items| ==> doc.items[k].JDict?
    ensures r.Some? ==> |r.value| == |doc.items| && forall k :: 0 <= k < |doc.items| ==> r.value[k] == doc.items[k].fields
  {
    if doc.JList? && forall k :: 0 <= k < |doc.items| ==> doc.items[k].JDict? then
      Some(seq(|doc.items|, k requires 0 <= k < |doc.items| => doc.items[k].fields))
    else None
  }

  // ---------------------------------------------------------------------
  // Renaming
  // ---------------------------------------------------------------------

  /** The new name of `name` under `renames`, or `name` itself when it is not renamed. */
  function Renamed(renames: seq<(string, string)>, name: string): (r: string)
    ensures (forall i :: 0 <= i < |renames| ==> renames[i].0 != name) ==> r == name
    ensures r == name || exists i :: 0 <= i < |renames| && renames[i] == (name, r)
  {
    if renames == [] then name
    else if renames[0].0 == name then renames[0].1
    else Renamed(renames[1..], name)
  }

  /** A name that `renames` maps gets its new name. */
  lemma {:induction false} RenamedKey(renames: seq<(string, string)>, i: nat)
    requires i < |renames| && Distinct(Sources(renames))
    ensures Renamed(renames, renames[i].0) == renames[i].1
  {
    if i > 0 {
      assert Sources(renames)[0] != Sources(renames)[i];
      assert Sources(renames[1..]) == Sources(renames)[1..];
      RenamedKey(renames[1..], i - 1);
    }
  }

  /** The labels `renames` maps. */
  function Sources(renames: seq<(string, string)>): (r: seq<string>)
    ensures |r| == |renames| && forall i :: 0 <= i < |renames| ==> r[i] == renames[i].0
  {
    seq(|renames|, i requires 0 <= i < |renames| => renames[i].0)
  }

  /** `df.rename(columns=renames)`: every name is renamed in place, the cells stay. */
  function Rename(t: Table, renames: seq<(string, string)>): (r: Table)
    ensures |r.columns| == |t.columns| && r.rows == t.rows
    ensures forall c :: 0 <= c < |t.columns| ==> r.columns[c] == Renamed(renames, t.columns[c])
  {
    Table(seq(|t.columns|, c requires 0 <= c < |t.columns| => Renamed(renames, t.columns[c])), t.rows)
  }

  /** When no new name is itself renamed, renaming twice is renaming once. */
  lemma RenameIdempotent(t: Table, renames: seq<(string, string)>)
    requires forall i, j :: 0 <= i < |renames| && 0 <= j < |renames| ==> renames[i].1 != renames[j].0
    ensures Rename(Rename(t, renames), renames) == Rename(t, renames)
  {
    var once := Rename(t, renames);
    forall c | 0 <= c < |t.columns| ensures Renamed(renames, once.columns[c]) == once.columns[c] {
      var l := t.columns[c];
      if Renamed(renames, l) != l {
        var i :| 0 <= i < |renames| && renames[i] == (l, Renamed(renames, l));
        assert forall j :: 0 <= j < |renames| ==> renames[j].0 != renames[i].1;
      }
    }
  }

  /** When the new labels are all different, every cell is found under the new name of its
      old column. */
  lemma RenameCells(t: Table, renames: seq<(string, string)>, k: nat, name: string)
    requires Distinct(Rename(t, renames).columns) && name in t.columns
    ensures Renamed(renames, name) in Rename(t, renames).columns
    ensures Cell(Rename(t, renames), k, Renamed(renames, name)) == Cell(t, k, name)
  {
    var i := IndexOf(t.columns, name);
    var r := Rename(t, renames);
    assert r.columns[i] == Renamed(renames, name);
    assert IndexOf(r.columns, Renamed(renames, name)) == i;
  }

  /** Two columns renamed to one name leave the frame with a repeated label. */
  lemma RenameClash(t: Table, renames: seq<(string, string)>, a: string, b: string)
    requires a in t.columns && b in t.columns && a != b
    requires Renamed(renames, a) == Renamed(renames, b)
    ensures !Distinct(Rename(t, renames).columns)
  {
    var i, j := IndexOf(t.columns, a), IndexOf(t.columns, b);
    assert Rename(t, renames).columns[i] == Rename(t, renames).columns[j];
  }

  // ---------------------------------------------------------------------
  // Reindexing
  // ---------------------------------------------------------------------

  /** The frame with the columns `order`, each carrying its cells; an absent name gets
      missing values. */
  function Project(t: Table, order: seq<string>): (r: Table)
    ensures r.columns == order && |r.rows| == |t.rows| && Rectangular(r)
  {
    Table(order, seq(|t.rows|, k requires 0 <= k < |t.rows| =>
      seq(|order|, c requires 0 <= c < |order| => Cell(t, k, order[c]))))
  }

  /** Every row keeps the cell it had under each name. */
  lemma ProjectCells(t: Table, order: seq<string>, k: nat, name: string)
    requires Distinct(order) && name in order
    ensures Cell(Project(t, order), k, name) == Cell(t, k, name)
  {
  }

  /** `df.reindex(columns=order)`, which pandas refuses with ValueError when the frame has a
      name twice. */
  function Reindex(t: Table, order: seq<string>): (r: Outcome<Table>)
    ensures r.Done? <==> Distinct(t.columns)
    ensures !r.Done? ==> r == Crash("ValueError")
    ensures r.Done? ==> r.value.columns == order && |r.value.rows| == |t.rows|
  {
    if Distinct(t.columns) then Done(Project(t, order)) else Crash("ValueError")
  }
}
