/** The stable sort by date behind the dashboard's recent list (descending,
    app.js:499-500) and the ledger (ascending, app.js:609). JavaScript's
    `Array.prototype.sort` is stable, so entries with equal dates keep their
    relative order; the model sorts by insertion. */
module Sorting {
  import opened Seqs
  import opened Dates
  import opened Records

  datatype Direction = Ascending | Descending

  /** A date that may stand before another in a list sorted in direction `dir`. */
  predicate Precedes(dir: Direction, a: Date, b: Date) {
    match dir
    case Ascending => LexLe(a, b)
    case Descending => LexLe(b, a)
  }

  lemma PrecedesTotalOrder(dir: Direction, a: Date, b: Date, c: Date)
    ensures Precedes(dir, a, a)
    ensures Precedes(dir, a, b) || Precedes(dir, b, a)
    ensures Precedes(dir, a, b) && Precedes(dir, b, a) ==> a == b
    ensures Precedes(dir, a, b) && Precedes(dir, b, c) ==> Precedes(dir, a, c)
  {
    LexLeReflexive(a);
    LexLeTotal(a, b);
    if Precedes(dir, a, b) && Precedes(dir, b, a) {
      LexLeAntisymmetric(a, b);
    }
    if Precedes(dir, a, b) && Precedes(dir, b, c) {
      match dir
      case Ascending => LexLeTransitive(a, b, c);
      case Descending => LexLeTransitive(c, b, a);
    }
  }

  predicate SortedByDate(s: seq<Entry>, dir: Direction) {
    forall i, j :: 0 <= i < j < |s| ==> Precedes(dir, s[i].date, s[j].date)
  }

  /** Selects entries dated `d`. */
  function DateIs(d: Date): Entry -> bool {
    (e: Entry) => e.date == d
  }

  /** The entries of one day, in list order. Two lists with the same entries on
      every day hold the same entries in the same relative order per day. */
  function OnDate(s: seq<Entry>, d: Date): seq<Entry> {
    Filter(s, DateIs(d))
  }

  lemma OnDateCons(e: Entry, t: seq<Entry>, d: Date)
    ensures OnDate([e] + t, d) == if e.date == d then [e] + OnDate(t, d) else OnDate(t, d)
  {
    assert ([e] + t)[0] == e && ([e] + t)[1..] == t;
  }

  /** Places `e` before the first element it may precede. */
  function Insert(e: Entry, t: seq<Entry>, dir: Direction): seq<Entry> {
    if |t| == 0 || Precedes(dir, e.date, t[0].date) then [e] + t
    else [t[0]] + Insert(e, t[1..], dir)
  }

  lemma {:induction false} InsertPermutes(e: Entry, t: seq<Entry>, dir: Direction)
    ensures multiset(Insert(e, t, dir)) == multiset(t) + multiset{e}
    ensures |Insert(e, t, dir)| == |t| + 1
  {
    if !(|t| == 0 || Precedes(dir, e.date, t[0].date)) {
      InsertPermutes(e, t[1..], dir);
      assert t == [t[0]] + t[1..];
    }
  }

  /** A date that may stand before `e` and before all of `t` may stand before
      everything in `Insert(e, t, dir)`. */
  lemma {:induction false} InsertBounded(b: Date, e: Entry, t: seq<Entry>, dir: Direction)
    requires Precedes(dir, b, e.date)
    requires forall k :: 0 <= k < |t| ==> Precedes(dir, b, t[k].date)
    ensures forall k :: 0 <= k < |Insert(e, t, dir)| ==> Precedes(dir, b, Insert(e, t, dir)[k].date)
  {
    var r := Insert(e, t, dir);
    if |t| == 0 || Precedes(dir, e.date, t[0].date) {
      forall k | 0 <= k < |r|
        ensures Precedes(dir, b, r[k].date)
      {
        if k > 0 {
          assert r[k] == t[k - 1];
        }
      }
    } else {
      var rest := Insert(e, t[1..], dir);
      InsertBounded(b, e, t[1..], dir);
      forall k | 0 <= k < |r|
        ensures Precedes(dir, b, r[k].date)
      {
        if k > 0 {
          assert r[k] == rest[k - 1];
        }
      }
    }
  }

  lemma {:induction false} InsertSorted(e: Entry, t: seq<Entry>, dir: Direction)
    requires SortedByDate(t, dir)
    ensures SortedByDate(Insert(e, t, dir), dir)
  {
    var r := Insert(e, t, dir);
    if |t| == 0 || Precedes(dir, e.date, t[0].date) {
      forall i, j | 0 <= i < j < |r|
        ensures Precedes(dir, r[i].date, r[j].date)
      {
        if i == 0 {
          assert r[j] == t[j - 1];
          PrecedesTotalOrder(dir, e.date, t[0].date, t[j - 1].date);
        } else {
          assert r[i] == t[i - 1] && r[j] == t[j - 1];
        }
      }
    } else {
      var rest := Insert(e, t[1..], dir);
      InsertSorted(e, t[1..], dir);
      PrecedesTotalOrder(dir, e.date, t[0].date, e.date);
      InsertBounded(t[0].date, e, t[1..], dir);
      forall i, j | 0 <= i < j < |r|
        ensures Precedes(dir, r[i].date, r[j].date)
      {
        if i == 0 {
          assert r[j] == rest[j - 1];
        } else {
          assert r[i] == rest[i - 1] && r[j] == rest[j - 1];
        }
      }
    }
  }

  /** Insertion keeps every day's entries in order, with `e` first on its own
      day: everything `e` is placed after has a different date. */
  lemma {:induction false} InsertOnDate(e: Entry, t: seq<Entry>, dir: Direction, d: Date)
    ensures OnDate(Insert(e, t, dir), d) == if e.date == d then [e] + OnDate(t, d) else OnDate(t, d)
  {
    if |t| == 0 || Precedes(dir, e.date, t[0].date) {
      OnDateCons(e, t, d);
    } else {
      PrecedesTotalOrder(dir, e.date, t[0].date, e.date);
      assert t == [t[0]] + t[1..];
      InsertOnDate(e, t[1..], dir, d);
      OnDateCons(t[0], Insert(e, t[1..], dir), d);
      OnDateCons(t[0], t[1..], d);
    }
  }

  /** The stable sort by insertion. */
  function SortByDate(s: seq<Entry>, dir: Direction): (r: seq<Entry>)
    ensures SortedByDate(r, dir)
    ensures |r| == |s| && multiset(r) == multiset(s)
  {
    if |s| == 0 then []
    else
      var t := SortByDate(s[1..], dir);
      InsertSorted(s[0], t, dir);
      InsertPermutes(s[0], t, dir);
      assert s == [s[0]] + s[1..];
      Insert(s[0], t, dir)
  }

  /** Stability: on every day, the sorted list holds that day's entries in the
      order they had before sorting. */
  lemma {:induction false} SortByDateStable(s: seq<Entry>, dir: Direction, d: Date)
    ensures OnDate(SortByDate(s, dir), d) == OnDate(s, d)
  {
    if |s| > 0 {
      SortByDateStable(s[1..], dir, d);
      InsertOnDate(s[0], SortByDate(s[1..], dir), dir, d);
      assert s == [s[0]] + s[1..];
      OnDateCons(s[0], s[1..], d);
    }
  }

  lemma OnOwnDate(s: seq<Entry>, i: int)
    requires 0 <= i < |s|
    ensures s[i] in OnDate(s, s[i].date)
  {
  }

  /** Two sorted lists that agree on their head dates start with the same date. */
  lemma SortedHeadsShareDate(a: seq<Entry>, b: seq<Entry>, dir: Direction)
    requires SortedByDate(a, dir) && SortedByDate(b, dir) && |a| > 0 && |b| > 0
    requires OnDate(a, a[0].date) == OnDate(b, a[0].date)
    requires OnDate(a, b[0].date) == OnDate(b, b[0].date)
    ensures a[0].date == b[0].date
  {
    var x, y := a[0], b[0];
    OnOwnDate(a, 0);
    OnOwnDate(b, 0);
    assert x in OnDate(b, x.date);
    assert y in OnDate(a, y.date);
    var j :| 0 <= j < |b| && b[j] == x;
    var i :| 0 <= i < |a| && a[i] == y;
    PrecedesTotalOrder(dir, x.date, y.date, x.date);
    if i > 0 {
      assert Precedes(dir, x.date, y.date);
    }
    if j > 0 {
      assert Precedes(dir, y.date, x.date);
    }
  }

  lemma HeadsEqual(x: Entry, a: seq<Entry>, y: Entry, b: seq<Entry>)
    requires x.date == y.date
    requires OnDate([x] + a, x.date) == OnDate([y] + b, x.date)
    ensures x == y
  {
    OnDateCons(x, a, x.date);
    OnDateCons(y, b, x.date);
    assert ([x] + OnDate(a, x.date))[0] == x;
    assert ([y] + OnDate(b, x.date))[0] == y;
  }

  lemma TailsAgree(x: Entry, a: seq<Entry>, b: seq<Entry>)
    requires forall d :: OnDate([x] + a, d) == OnDate([x] + b, d)
    ensures forall d :: OnDate(a, d) == OnDate(b, d)
  {
    forall d
      ensures OnDate(a, d) == OnDate(b, d)
    {
      assert OnDate([x] + a, d) == OnDate([x] + b, d);
      OnDateCons(x, a, d);
      OnDateCons(x, b, d);
      if d == x.date {
        assert OnDate(a, d) == OnDate([x] + a, d)[1..];
        assert OnDate(b, d) == OnDate([x] + b, d)[1..];
      }
    }
  }

  /** A list sorted by date is determined by what it holds on each day. */
  lemma {:induction false} SortedUnique(a: seq<Entry>, b: seq<Entry>, dir: Direction)
    requires SortedByDate(a, dir) && SortedByDate(b, dir)
    requires forall d :: OnDate(a, d) == OnDate(b, d)
    ensures a == b
    decreases |a|
  {
    if |a| == 0 || |b| == 0 {
      if |a| > 0 {
        OnOwnDate(a, 0);
        assert false;
      } else if |b| > 0 {
        OnOwnDate(b, 0);
        assert false;
      }
    } else {
      var x, y := a[0], b[0];
      assert OnDate(a, x.date) == OnDate(b, x.date);
      assert OnDate(a, y.date) == OnDate(b, y.date);
      SortedHeadsShareDate(a, b, dir);
      assert a == [x] + a[1..] && b == [y] + b[1..];
      HeadsEqual(x, a[1..], y, b[1..]);
      TailsAgree(x, a[1..], b[1..]);
      assert SortedByDate(a[1..], dir) && SortedByDate(b[1..], dir);
      SortedUnique(a[1..], b[1..], dir);
    }
  }

  /** Sorting two lists that agree on every day yields the same list. */
  lemma SortAgreesOnDays(p: seq<Entry>, q: seq<Entry>, dir: Direction)
    requires forall d :: OnDate(p, d) == OnDate(q, d)
    ensures SortByDate(p, dir) == SortByDate(q, dir)
  {
    forall d
      ensures OnDate(SortByDate(p, dir), d) == OnDate(SortByDate(q, dir), d)
    {
      SortByDateStable(p, dir, d);
      SortByDateStable(q, dir, d);
    }
    SortedUnique(SortByDate(p, dir), SortByDate(q, dir), dir);
  }

  /** Sorting a list that is already in order leaves it as it is. */
  lemma SortKeepsSorted(s: seq<Entry>, dir: Direction)
    requires SortedByDate(s, dir)
    ensures SortByDate(s, dir) == s
  {
    forall d
      ensures OnDate(SortByDate(s, dir), d) == OnDate(s, d)
    {
      SortByDateStable(s, dir, d);
    }
    SortedUnique(SortByDate(s, dir), s, dir);
  }

  /** A selection from a sorted list is sorted. */
  lemma {:induction false} FilterKeepsSorted(s: seq<Entry>, dir: Direction, p: Entry -> bool)
    requires SortedByDate(s, dir)
    ensures SortedByDate(Filter(s, p), dir)
  {
    if |s| > 0 {
      assert SortedByDate(s[1..], dir);
      FilterKeepsSorted(s[1..], dir, p);
      var t := Filter(s[1..], p);
      if p(s[0]) {
        forall i, j | 0 <= i < j < |[s[0]] + t|
          ensures Precedes(dir, ([s[0]] + t)[i].date, ([s[0]] + t)[j].date)
        {
          var y := t[j - 1];
          assert ([s[0]] + t)[j] == y;
          if i == 0 {
            assert y in s[1..];
            var k :| 0 <= k < |s[1..]| && s[1..][k] == y;
            assert s[k + 1] == y;
          } else {
            assert ([s[0]] + t)[i] == t[i - 1];
          }
        }
      }
    }
  }

  /** Selecting after sorting is sorting after selecting: a filter applied to
      the sorted list keeps the sorted order of exactly the selected entries. */
  lemma SortCommutesWithFilter(s: seq<Entry>, dir: Direction, p: Entry -> bool)
    ensures Filter(SortByDate(s, dir), p) == SortByDate(Filter(s, p), dir)
  {
    var sorted := SortByDate(s, dir);
    FilterKeepsSorted(sorted, dir, p);
    forall d
      ensures OnDate(Filter(sorted, p), d) == OnDate(SortByDate(Filter(s, p), dir), d)
    {
      FilterCommute(sorted, p, DateIs(d));
      SortByDateStable(s, dir, d);
      FilterCommute(s, p, DateIs(d));
      SortByDateStable(Filter(s, p), dir, d);
    }
    SortedUnique(Filter(sorted, p), SortByDate(Filter(s, p), dir), dir);
  }

  /** Sorting twice is sorting once. */
  lemma SortIdempotent(s: seq<Entry>, dir: Direction)
    ensures SortByDate(SortByDate(s, dir), dir) == SortByDate(s, dir)
  {
    SortKeepsSorted(SortByDate(s, dir), dir);
  }
}
