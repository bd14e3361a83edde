/**
 * The part of SQL that the onboarding queries and the generic table reader
 * rely on, over in-memory tables: a table is a sequence of rows in storage
 * order, WHERE is a filter, ORDER BY is a sort on one column and LIMIT keeps
 * a prefix.
 *
 * ORDER BY leaves the order of rows with equal keys to the database. The model
 * fixes one choice (a stable sort keeps storage order among equal keys); the
 * properties stated about a sorted result (sorted, a permutation of the matching
 * rows) hold for any other choice as well. Without ORDER BY the database
 * promises no order at all; the model then returns storage order, and only the
 * membership, permutation and count properties hold for every order.
 */
module Sql {
  import opened Wrappers

  /** A point in time, in the database's own unit. */
  type Instant = int

  /** Values that have an `isoformat` rendering: timestamps, dates and times of day. */
  datatype Moment = DateTime(ticks: int) | Date(days: int) | TimeOfDay(micros: int)

  /** One column value of a row. `Null` is SQL NULL. */
  datatype Cell = Bool(b: bool) | Int(i: int) | Num(r: real) | Text(s: string) | At(m: Moment) | Null

  /** A nullable timestamp column as a cell. */
  function TimestampCell(t: Option<Instant>): Cell {
    if t.Some? then At(DateTime(t.value)) else Null
  }

  /** A nullable text column as a cell. */
  function TextCell(s: Option<string>): Cell {
    if s.Some? then Text(s.value) else Null
  }

  datatype Direction = Asc | Desc

  // ---------------------------------------------------------------------------
  // The order of cells. NULL sorts after every other value, as in PostgreSQL:
  // last in ascending order, first in descending order. Cells of one column
  // have one kind, so the order between kinds only has to be total.

  function Rank(c: Cell): nat {
    match c
    case Bool(_) => 0
    case Int(_) => 1
    case Num(_) => 2
    case Text(_) => 3
    case At(_) => 4
    case Null => 5
  }

  function MomentRank(m: Moment): nat {
    match m
    case DateTime(_) => 0
    case Date(_) => 1
    case TimeOfDay(_) => 2
  }

  function Ticks(m: Moment): int {
    match m
    case DateTime(t) => t
    case Date(d) => d
    case TimeOfDay(u) => u
  }

  predicate MomentLe(a: Moment, b: Moment) {
    if MomentRank(a) != MomentRank(b) then MomentRank(a) < MomentRank(b) else Ticks(a) <= Ticks(b)
  }

  /** Text order by code point, as under the "C" collation; a locale collation orders text differently. */
  predicate TextLe(a: string, b: string)
    decreases |a|
  {
    a == [] || (b != [] && (a[0] < b[0] || (a[0] == b[0] && TextLe(a[1..], b[1..]))))
  }

  predicate CellLe(a: Cell, b: Cell) {
    if Rank(a) != Rank(b) then Rank(a) < Rank(b)
    else match (a, b)
      case (Bool(x), Bool(y)) => !x || y
      case (Int(x), Int(y)) => x <= y
      case (Num(x), Num(y)) => x <= y
      case (Text(x), Text(y)) => TextLe(x, y)
      case (At(x), At(y)) => MomentLe(x, y)
      case _ => true
  }

  /** `a` may come before `b` in a result ordered in direction `dir`. */
  predicate Before(a: Cell, b: Cell, dir: Direction) {
    if dir == Asc then CellLe(a, b) else CellLe(b, a)
  }

  lemma {:induction false} TextLeTotal(a: string, b: string)
    ensures TextLe(a, b) || TextLe(b, a)
    decreases |a|
  {
    if a != [] && b != [] && a[0] == b[0] {
      TextLeTotal(a[1..], b[1..]);
    }
  }

  lemma {:induction false} TextLeTransitive(a: string, b: string, c: string)
    requires TextLe(a, b) && TextLe(b, c)
    ensures TextLe(a, c)
    decreases |a|
  {
    if a != [] && a[0] == b[0] && b[0] == c[0] {
      TextLeTransitive(a[1..], b[1..], c[1..]);
    }
  }

  lemma CellLeTotal(a: Cell, b: Cell)
    ensures CellLe(a, b) || CellLe(b, a)
  {
    if a.Text? && b.Text? {
      TextLeTotal(a.s, b.s);
    }
  }

  lemma CellLeTransitive(a: Cell, b: Cell, c: Cell)
    requires CellLe(a, b) && CellLe(b, c)
    ensures CellLe(a, c)
  {
    if a.Text? && b.Text? && c.Text? {
      TextLeTransitive(a.s, b.s, c.s);
    }
  }

  lemma BeforeTotal(a: Cell, b: Cell, dir: Direction)
    ensures Before(a, b, dir) || Before(b, a, dir)
  {
    CellLeTotal(a, b);
  }

  lemma BeforeTransitive(a: Cell, b: Cell, c: Cell, dir: Direction)
    requires Before(a, b, dir) && Before(b, c, dir)
    ensures Before(a, c, dir)
  {
    if dir == Asc {
      CellLeTransitive(a, b, c);
    } else {
      CellLeTransitive(c, b, a);
    }
  }

  // ---------------------------------------------------------------------------
  // WHERE

  /** The rows of `s` that satisfy `p`, in storage order. */
  function Filter<T(!new)>(s: seq<T>, p: T -> bool): (r: seq<T>)
    ensures |r| <= |s|
    ensures forall x :: x in r <==> x in s && p(x)
    ensures forall x :: multiset(r)[x] == if p(x) then multiset(s)[x] else 0
  {
    if s == [] then []
    else
      assert s == [s[0]] + s[1..];
      (if p(s[0]) then [s[0]] else []) + Filter(s[1..], p)
  }

  /** Filtering by two predicates that agree on every row gives the same rows. */
  lemma {:induction false} FilterAgrees<T(!new)>(s: seq<T>, p: T -> bool, q: T -> bool)
    requires forall x :: x in s ==> p(x) == q(x)
    ensures Filter(s, p) == Filter(s, q)
  {
    if s != [] {
      FilterAgrees(s[1..], p, q);
    }
  }

  // ---------------------------------------------------------------------------
  // ORDER BY

  /** Every earlier row may come before every later row. */
  ghost predicate SortedBy<T>(s: seq<T>, key: T -> Cell, dir: Direction) {
    forall i, j | 0 <= i < j < |s| :: Before(key(s[i]), key(s[j]), dir)
  }

  /** Inserts `x` in front of the first row it may come before. */
  function Insert<T>(x: T, s: seq<T>, key: T -> Cell, dir: Direction): (r: seq<T>)
    ensures multiset(r) == multiset(s) + multiset{x}
  {
    if s == [] then [x]
    else if Before(key(x), key(s[0]), dir) then [x] + s
    else
      assert s == [s[0]] + s[1..];
      [s[0]] + Insert(x, s[1..], key, dir)
  }

  /** A row that may come before every row of a sorted sequence can be put in front of it. */
  lemma SortedCons<T>(x: T, s: seq<T>, key: T -> Cell, dir: Direction)
    requires SortedBy(s, key, dir)
    requires forall k :: 0 <= k < |s| ==> Before(key(x), key(s[k]), dir)
    ensures SortedBy([x] + s, key, dir)
  {
    var r := [x] + s;
    forall i, j | 0 <= i < j < |r| ensures Before(key(r[i]), key(r[j]), dir) {
      assert r[j] == s[j - 1];
      if i > 0 {
        assert r[i] == s[i - 1];
      }
    }
  }

  lemma {:induction false} InsertSorted<T>(x: T, s: seq<T>, key: T -> Cell, dir: Direction)
    requires SortedBy(s, key, dir)
    ensures SortedBy(Insert(x, s, key, dir), key, dir)
  {
    if s == [] {
    } else if Before(key(x), key(s[0]), dir) {
      forall k | 0 <= k < |s| ensures Before(key(x), key(s[k]), dir) {
        if k > 0 {
          BeforeTransitive(key(x), key(s[0]), key(s[k]), dir);
        }
      }
      SortedCons(x, s, key, dir);
    } else {
      var rest := s[1..];
      assert SortedBy(rest, key, dir) by {
        forall i, j | 0 <= i < j < |rest| ensures Before(key(rest[i]), key(rest[j]), dir) {
          assert rest[i] == s[i + 1] && rest[j] == s[j + 1];
        }
      }
      var t := Insert(x, rest, key, dir);
      InsertSorted(x, rest, key, dir);
      BeforeTotal(key(x), key(s[0]), dir);
      forall k | 0 <= k < |t| ensures Before(key(s[0]), key(t[k]), dir) {
        var y := t[k];
        assert y in multiset(t);
        if y != x {
          assert y in multiset(rest);
          var m :| 0 <= m < |rest| && rest[m] == y;
          assert s[m + 1] == y;
        }
      }
      SortedCons(s[0], t, key, dir);
    }
  }

  /**
   * A stable insertion sort: the rows of `s` ordered by `key` in direction
   * `dir`, rows with equal keys in storage order.
   */
  function SortBy<T(!new)>(s: seq<T>, key: T -> Cell, dir: Direction): (r: seq<T>)
    ensures multiset(r) == multiset(s)
    ensures forall x :: x in r <==> x in s
    ensures |r| == |s|
    ensures SortedBy(r, key, dir)
  {
    if s == [] then []
    else
      assert s == [s[0]] + s[1..];
      var rest := SortBy(s[1..], key, dir);
      InsertSorted(s[0], rest, key, dir);
      SameMembers(Insert(s[0], rest, key, dir), s);
      Insert(s[0], rest, key, dir)
  }

  /** Sequences with the same multiset of rows hold the same rows. */
  lemma SameMembers<T>(a: seq<T>, b: seq<T>)
    requires multiset(a) == multiset(b)
    ensures forall x :: x in a <==> x in b
  {
    forall x
      ensures x in a <==> x in b
    {
      assert x in a <==> x in multiset(a);
      assert x in b <==> x in multiset(b);
    }
  }

  // ---------------------------------------------------------------------------
  // LIMIT

  function Min(a: nat, b: nat): nat {
    if a < b then a else b
  }

  /** The first `n` rows, or all of them when there are fewer. */
  function Take<T>(s: seq<T>, n: nat): (r: seq<T>)
    ensures |r| == Min(n, |s|)
    ensures r == s[..|r|]
  {
    s[..Min(n, |s|)]
  }

  /** LIMIT keeps some of the rows, and all of them when they fit. */
  lemma TakeSubset<T>(s: seq<T>, n: nat)
    ensures multiset(Take(s, n)) <= multiset(s)
    ensures forall x :: x in Take(s, n) ==> x in s
    ensures |s| <= n ==> Take(s, n) == s
  {
    var t := Take(s, n);
    assert s == t + s[|t|..];
  }

  /**
   * ORDER BY followed by LIMIT returns the first rows of the ordering: the kept
   * rows are in order, and each row that LIMIT drops may come after every kept one.
   */
  lemma TakeOfSorted<T>(s: seq<T>, n: nat, key: T -> Cell, dir: Direction)
    requires SortedBy(s, key, dir)
    ensures SortedBy(Take(s, n), key, dir)
    ensures multiset(Take(s, n)) <= multiset(s)
    ensures forall x, k | x in multiset(s) - multiset(Take(s, n)) && 0 <= k < |Take(s, n)| ::
              Before(key(Take(s, n)[k]), key(x), dir)
  {
    var t := Take(s, n);
    var m := |t|;
    assert s == t + s[m..];
    forall x, k | x in multiset(s) - multiset(t) && 0 <= k < m
      ensures Before(key(t[k]), key(x), dir)
    {
      assert x in multiset(s[m..]);
      var i :| m <= i < |s| && s[i] == x;
      assert t[k] == s[k];
    }
  }
}
