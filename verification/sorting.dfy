/**
 * Python's ordering of strings and of key tuples, its stable `sorted(..., key=...)` /
 * `list.sort(key=...)`, and `sorted(set(...))` over strings.
 *
 * A sort key is a tuple of integers and strings (`Key`). The sort is specified by what Python
 * guarantees: the result is ordered by key, is a permutation of the input, and elements with
 * equal keys keep their input order. `SortBy` below is an insertion sort that has those three
 * properties, which together determine the result.
 */
module StableSort {

  // ---------------------------------------------------------------------
  // Strings
  // ---------------------------------------------------------------------

  /** Python's comparison of two strings: code point by code point, a proper prefix first. */
  function StrCmp(a: string, b: string): (c: int)
    ensures -1 <= c <= 1
  {
    if a == [] && b == [] then 0
    else if a == [] then -1
    else if b == [] then 1
    else if a[0] < b[0] then -1
    else if a[0] > b[0] then 1
    else StrCmp(a[1..], b[1..])
  }

  predicate StrLess(a: string, b: string) { StrCmp(a, b) < 0 }

  lemma {:induction false} StrCmpFlip(a: string, b: string)
    ensures StrCmp(b, a) == -StrCmp(a, b)
  {
    if a != [] && b != [] && a[0] == b[0] {
      StrCmpFlip(a[1..], b[1..]);
    }
  }

  lemma {:induction false} StrCmpSame(a: string, b: string)
    ensures StrCmp(a, b) == 0 <==> a == b
  {
    if a != [] && b != [] && a[0] == b[0] {
      StrCmpSame(a[1..], b[1..]);
      assert a == [a[0]] + a[1..] && b == [b[0]] + b[1..];
    }
  }

  lemma {:induction false} StrCmpTrans(a: string, b: string, c: string)
    requires StrCmp(a, b) < 0 && StrCmp(b, c) < 0
    ensures StrCmp(a, c) < 0
  {
    if a != [] && b != [] && c != [] && a[0] == b[0] && b[0] == c[0] {
      StrCmpTrans(a[1..], b[1..], c[1..]);
    }
  }

  // ---------------------------------------------------------------------
  // Key tuples
  // ---------------------------------------------------------------------

  /** One component of a sort key. */
  datatype Atom = AInt(i: int) | AStr(s: string)

  /** A sort key: a Python tuple of integers and strings. */
  type Key = seq<Atom>

  /** Integers order numerically and strings as Python orders them. The scripts never compare an
      integer with a string at the same position (Python would raise TypeError); the model puts
      integers first so that the order is total. */
  function AtomCmp(x: Atom, y: Atom): (c: int)
    ensures -1 <= c <= 1
  {
    match (x, y)
    case (AInt(i), AInt(j)) => if i < j then -1 else if i > j then 1 else 0
    case (AStr(s), AStr(t)) => StrCmp(s, t)
    case (AInt(_), AStr(_)) => -1
    case (AStr(_), AInt(_)) => 1
  }

  /** Python's comparison of two tuples. */
  function KeyCmp(a: Key, b: Key): (c: int)
    ensures -1 <= c <= 1
  {
    if a == [] && b == [] then 0
    else if a == [] then -1
    else if b == [] then 1
    else if AtomCmp(a[0], b[0]) != 0 then AtomCmp(a[0], b[0])
    else KeyCmp(a[1..], b[1..])
  }

  lemma AtomCmpFlip(x: Atom, y: Atom)
    ensures AtomCmp(y, x) == -AtomCmp(x, y)
  {
    if x.AStr? && y.AStr? { StrCmpFlip(x.s, y.s); }
  }

  lemma AtomCmpSame(x: Atom, y: Atom)
    ensures AtomCmp(x, y) == 0 <==> x == y
  {
    if x.AStr? && y.AStr? { StrCmpSame(x.s, y.s); }
  }

  lemma AtomCmpTrans(x: Atom, y: Atom, z: Atom)
    requires AtomCmp(x, y) <= 0 && AtomCmp(y, z) <= 0
    ensures AtomCmp(x, z) <= 0
    ensures AtomCmp(x, y) < 0 || AtomCmp(y, z) < 0 ==> AtomCmp(x, z) < 0
  {
    AtomCmpSame(x, y);
    AtomCmpSame(y, z);
    if x.AStr? && y.AStr? && z.AStr? && AtomCmp(x, y) < 0 && AtomCmp(y, z) < 0 {
      StrCmpTrans(x.s, y.s, z.s);
    }
  }

  lemma {:induction false} KeyCmpFlip(a: Key, b: Key)
    ensures KeyCmp(b, a) == -KeyCmp(a, b)
  {
    if a != [] && b != [] {
      AtomCmpFlip(a[0], b[0]);
      KeyCmpFlip(a[1..], b[1..]);
    }
  }

  lemma {:induction false} KeyCmpSame(a: Key, b: Key)
    ensures KeyCmp(a, b) == 0 <==> a == b
  {
    if a != [] && b != [] {
      AtomCmpSame(a[0], b[0]);
      KeyCmpSame(a[1..], b[1..]);
      assert a == [a[0]] + a[1..] && b == [b[0]] + b[1..];
    }
  }

  lemma {:induction false} KeyCmpTrans(a: Key, b: Key, c: Key)
    requires KeyCmp(a, b) <= 0 && KeyCmp(b, c) <= 0
    ensures KeyCmp(a, c) <= 0
  {
    if a != [] && b != [] && c != [] {
      AtomCmpSame(a[0], b[0]);
      AtomCmpSame(b[0], c[0]);
      AtomCmpTrans(a[0], b[0], c[0]);
      if AtomCmp(a[0], b[0]) == 0 && AtomCmp(b[0], c[0]) == 0 {
        KeyCmpTrans(a[1..], b[1..], c[1..]);
      }
    }
  }

  lemma KeyCmpTransStrict(a: Key, b: Key, c: Key)
    requires KeyCmp(a, b) < 0 && KeyCmp(b, c) <= 0
    ensures KeyCmp(a, c) < 0
  {
    KeyCmpTrans(a, b, c);
    KeyCmpSame(a, c);
    KeyCmpFlip(a, b);
  }

  // ---------------------------------------------------------------------
  // Stable sort by key
  // ---------------------------------------------------------------------

  predicate SortedBy<T>(s: seq<T>, key: T -> Key) {
    forall i, j :: 0 <= i < j < |s| ==> KeyCmp(key(s[i]), key(s[j])) <= 0
  }

  /** The elements of `s` whose key is `k`, in order. */
  function Select<T>(s: seq<T>, key: T -> Key, k: Key): seq<T>
  {
    if s == [] then [] else (if key(s[0]) == k then [s[0]] else []) + Select(s[1..], key, k)
  }

  /** `x` placed before the first element whose key is strictly greater. */
  function InsertBy<T>(x: T, s: seq<T>, key: T -> Key): (r: seq<T>)
    ensures |r| == |s| + 1
  {
    if s == [] then [x]
    else if KeyCmp(key(x), key(s[0])) < 0 then [x] + s
    else [s[0]] + InsertBy(x, s[1..], key)
  }

  /** `sorted(s, key=key)`: each element in turn is inserted after the ones already placed
      whose key is not greater. */
  function SortBy<T>(s: seq<T>, key: T -> Key): (r: seq<T>)
    ensures |r| == |s|
  {
    if s == [] then [] else InsertBy(s[|s| - 1], SortBy(s[..|s| - 1], key), key)
  }

  lemma {:induction false} InsertSorted<T>(x: T, s: seq<T>, key: T -> Key)
    requires SortedBy(s, key)
    ensures SortedBy(InsertBy(x, s, key), key)
    ensures forall i :: 0 <= i < |InsertBy(x, s, key)| ==>
      InsertBy(x, s, key)[i] == x || InsertBy(x, s, key)[i] in s
  {
    if s != [] {
      var r := InsertBy(x, s, key);
      if KeyCmp(key(x), key(s[0])) < 0 {
        forall i, j | 0 <= i < j < |r| ensures KeyCmp(key(r[i]), key(r[j])) <= 0 {
          if i == 0 && j > 1 {
            KeyCmpTrans(key(x), key(s[0]), key(s[j - 1]));
          }
        }
      } else {
        KeyCmpFlip(key(x), key(s[0]));
        InsertSorted(x, s[1..], key);
        var t := InsertBy(x, s[1..], key);
        forall i, j | 0 <= i < j < |r| ensures KeyCmp(key(r[i]), key(r[j])) <= 0 {
          if i == 0 {
            assert r[j] == t[j - 1];
            if t[j - 1] != x {
              assert t[j - 1] in s[1..];
              var m :| 0 <= m < |s[1..]| && s[1..][m] == t[j - 1];
              assert s[1 + m] == t[j - 1];
            }
          }
        }
      }
    }
  }

  lemma {:induction false} InsertMultiset<T>(x: T, s: seq<T>, key: T -> Key)
    ensures multiset(InsertBy(x, s, key)) == multiset(s) + multiset{x}
  {
    if s != [] && KeyCmp(key(x), key(s[0])) >= 0 {
      InsertMultiset(x, s[1..], key);
      assert s == [s[0]] + s[1..];
    }
  }

  lemma {:induction false} SelectAppend<T>(a: seq<T>, b: seq<T>, key: T -> Key, k: Key)
    ensures Select(a + b, key, k) == Select(a, key, k) + Select(b, key, k)
  {
    if a != [] {
      var head := if key(a[0]) == k then [a[0]] else [];
      assert (a + b)[0] == a[0];
      assert (a + b)[1..] == a[1..] + b;
      calc {
        Select(a + b, key, k);
        head + Select(a[1..] + b, key, k);
        { SelectAppend(a[1..], b, key, k); }
        head + (Select(a[1..], key, k) + Select(b, key, k));
        (head + Select(a[1..], key, k)) + Select(b, key, k);
        Select(a, key, k) + Select(b, key, k);
      }
    } else {
      assert a + b == b;
    }
  }

  /** Nothing in `s` has key `k` when every key in `s` is above `k`. */
  lemma {:induction false} SelectAbove<T>(s: seq<T>, key: T -> Key, k: Key)
    requires forall i :: 0 <= i < |s| ==> KeyCmp(k, key(s[i])) < 0
    ensures Select(s, key, k) == []
  {
    if s != [] {
      KeyCmpSame(k, key(s[0]));
      SelectAbove(s[1..], key, k);
    }
  }

  lemma {:induction false} InsertSelect<T>(x: T, s: seq<T>, key: T -> Key, k: Key)
    requires SortedBy(s, key)
    ensures Select(InsertBy(x, s, key), key, k) == Select(s, key, k) + (if key(x) == k then [x] else [])
  {
    if s != [] {
      if KeyCmp(key(x), key(s[0])) < 0 {
        assert InsertBy(x, s, key) == [x] + s;
        assert Select([x] + s, key, k) == (if key(x) == k then [x] else []) + Select(s, key, k);
        if key(x) == k {
          forall i | 0 <= i < |s| ensures KeyCmp(k, key(s[i])) < 0 {
            if i > 0 {
              KeyCmpTransStrict(key(x), key(s[0]), key(s[i]));
            }
          }
          SelectAbove(s, key, k);
        }
      } else {
        InsertSelect(x, s[1..], key, k);
      }
    }
  }

  /** The sort orders by key. */
  lemma {:induction false} SortBySorted<T>(s: seq<T>, key: T -> Key)
    ensures SortedBy(SortBy(s, key), key)
  {
    if s != [] {
      SortBySorted(s[..|s| - 1], key);
      InsertSorted(s[|s| - 1], SortBy(s[..|s| - 1], key), key);
    }
  }

  /** The sort neither loses nor duplicates an element. */
  lemma {:induction false} SortByPermutes<T>(s: seq<T>, key: T -> Key)
    ensures multiset(SortBy(s, key)) == multiset(s)
  {
    if s != [] {
      SortByPermutes(s[..|s| - 1], key);
      InsertMultiset(s[|s| - 1], SortBy(s[..|s| - 1], key), key);
      assert s == s[..|s| - 1] + [s[|s| - 1]];
    }
  }

  /** The sort is stable: the elements sharing any one key keep their input order. */
  lemma {:induction false} SortByStable<T>(s: seq<T>, key: T -> Key, k: Key)
    ensures Select(SortBy(s, key), key, k) == Select(s, key, k)
  {
    if s != [] {
      var init, last := s[..|s| - 1], s[|s| - 1];
      SortByStable(init, key, k);
      SortBySorted(init, key);
      InsertSelect(last, SortBy(init, key), key, k);
      assert s == init + [last];
      SelectAppend(init, [last], key, k);
    }
  }

  // ---------------------------------------------------------------------
  // sorted(set(xs)) for strings
  // ---------------------------------------------------------------------

  predicate StrictlyIncreasing(s: seq<string>) {
    forall i, j :: 0 <= i < j < |s| ==> StrLess(s[i], s[j])
  }

  function InsertStr(x: string, s: seq<string>): (r: seq<string>)
    ensures forall y :: y in r <==> y == x || y in s
  {
    if s == [] then [x]
    else if x == s[0] then s
    else if StrLess(x, s[0]) then [x] + s
    else [s[0]] + InsertStr(x, s[1..])
  }

  /** `sorted(set(xs))` */
  function SortedSet(xs: seq<string>): (r: seq<string>)
    ensures forall y :: y in r <==> y in xs
  {
    if xs == [] then []
    else
      var r := InsertStr(xs[|xs| - 1], SortedSet(xs[..|xs| - 1]));
      assert forall y :: y in xs <==> y in xs[..|xs| - 1] || y == xs[|xs| - 1] by {
        assert xs == xs[..|xs| - 1] + [xs[|xs| - 1]];
      }
      r
  }

  lemma {:induction false} InsertStrIncreasing(x: string, s: seq<string>)
    requires StrictlyIncreasing(s)
    ensures StrictlyIncreasing(InsertStr(x, s))
  {
    if s != [] && x != s[0] {
      var r := InsertStr(x, s);
      if StrLess(x, s[0]) {
        forall i, j | 0 <= i < j < |r| ensures StrLess(r[i], r[j]) {
          if i == 0 && j > 1 {
            StrCmpTrans(x, s[0], s[j - 1]);
          }
        }
      } else {
        StrCmpSame(x, s[0]);
        StrCmpFlip(x, s[0]);
        InsertStrIncreasing(x, s[1..]);
        forall i, j | 0 <= i < j < |r| ensures StrLess(r[i], r[j]) {
          if i == 0 {
            assert r[j] in InsertStr(x, s[1..]);
            if r[j] != x {
              assert r[j] in s[1..];
              var m :| 0 <= m < |s[1..]| && s[1..][m] == r[j];
              assert s[1 + m] == r[j];
            }
          }
        }
      }
    }
  }

  /** `sorted(set(xs))` is strictly increasing: sorted, with every value once. */
  lemma {:induction false} SortedSetIncreasing(xs: seq<string>)
    ensures StrictlyIncreasing(SortedSet(xs))
  {
    if xs != [] {
      SortedSetIncreasing(xs[..|xs| - 1]);
      InsertStrIncreasing(xs[|xs| - 1], SortedSet(xs[..|xs| - 1]));
    }
  }
}
