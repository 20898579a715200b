/** The stable sort by entry date that both the dashboard (ascending) and the
    journal listing (descending) apply to a copy of the entries. JavaScript's
    `Array.prototype.sort` is stable, and both comparators subtract the two
    dates' times, so entries on the same date keep their relative order. */
module DateSort {
  import opened Types

  datatype Direction = Ascending | Descending

  /** The comparator allows `a` before `b`: `a` is on or before `b` when
      ascending, on or after it when descending. */
  predicate InOrder(dir: Direction, a: HabitEntry, b: HabitEntry)
  {
    if dir == Ascending then OnOrBefore(a.date, b.date) else OnOrBefore(b.date, a.date)
  }

  predicate Sorted(dir: Direction, s: seq<HabitEntry>)
  {
    forall i, j :: 0 <= i < j < |s| ==> InOrder(dir, s[i], s[j])
  }

  /** The entries of `s` dated `d`, in the order of `s`. */
  function OnDate(s: seq<HabitEntry>, d: CalDate): seq<HabitEntry>
  {
    if s == [] then []
    else (if s[0].date == d then [s[0]] else []) + OnDate(s[1..], d)
  }

  /** Inserts `x` into `r` just before the first entry that `x` strictly
      precedes, i.e. after every entry it may follow. */
  function Insert(dir: Direction, x: HabitEntry, r: seq<HabitEntry>): (res: seq<HabitEntry>)
    ensures |res| == |r| + 1
  {
    if r == [] then [x]
    else if !InOrder(dir, r[0], x) then [x] + r
    else [r[0]] + Insert(dir, x, r[1..])
  }

  /** The stable sort of `s` in direction `dir` (insertion sort, taking the
      input's entries from first to last). */
  function Sort(dir: Direction, s: seq<HabitEntry>): (r: seq<HabitEntry>)
    ensures |r| == |s|
  {
    if s == [] then [] else Insert(dir, s[|s| - 1], Sort(dir, s[..|s| - 1]))
  }

  /** The comparator is a total preorder. */
  lemma InOrderTotal(dir: Direction, a: HabitEntry, b: HabitEntry)
    ensures InOrder(dir, a, b) || InOrder(dir, b, a)
  {
  }

  lemma InOrderTransitive(dir: Direction, a: HabitEntry, b: HabitEntry, c: HabitEntry)
    requires InOrder(dir, a, b) && InOrder(dir, b, c)
    ensures InOrder(dir, a, c)
  {
  }

  lemma {:induction false} InsertPermutes(dir: Direction, x: HabitEntry, r: seq<HabitEntry>)
    ensures multiset(Insert(dir, x, r)) == multiset(r) + multiset{x}
  {
    if r != [] && InOrder(dir, r[0], x) {
      InsertPermutes(dir, x, r[1..]);
      assert r == [r[0]] + r[1..];
    }
  }

  /** Putting an entry that may precede every entry of a sorted sequence in
      front of it keeps it sorted. */
  lemma ConsSorted(dir: Direction, h: HabitEntry, t: seq<HabitEntry>)
    requires Sorted(dir, t)
    requires forall k :: 0 <= k < |t| ==> InOrder(dir, h, t[k])
    ensures Sorted(dir, [h] + t)
  {
    var res := [h] + t;
    forall i, j | 0 <= i < j < |res| ensures InOrder(dir, res[i], res[j]) {
      if i == 0 {
        assert res[j] == t[j - 1];
      } else {
        assert res[i] == t[i - 1] && res[j] == t[j - 1];
      }
    }
  }

  lemma {:induction false} InsertSorted(dir: Direction, x: HabitEntry, r: seq<HabitEntry>)
    requires Sorted(dir, r)
    ensures Sorted(dir, Insert(dir, x, r))
  {
    if r == [] {
    } else if !InOrder(dir, r[0], x) {
      InOrderTotal(dir, r[0], x);
      forall k | 0 <= k < |r| ensures InOrder(dir, x, r[k]) {
        if k > 0 {
          InOrderTransitive(dir, x, r[0], r[k]);
        }
      }
      ConsSorted(dir, x, r);
    } else {
      var tail := Insert(dir, x, r[1..]);
      SortedTail(dir, r);
      InsertSorted(dir, x, r[1..]);
      InsertPermutes(dir, x, r[1..]);
      forall k | 0 <= k < |tail| ensures InOrder(dir, r[0], tail[k]) {
        var y := tail[k];
        assert y in multiset(tail);
        if y != x {
          assert y in multiset(r[1..]);
          var m :| 0 <= m < |r| - 1 && r[1..][m] == y;
          assert r[m + 1] == y;
        }
      }
      ConsSorted(dir, r[0], tail);
    }
  }

  /** The sort permutes its input. */
  lemma {:induction false} SortPermutes(dir: Direction, s: seq<HabitEntry>)
    ensures multiset(Sort(dir, s)) == multiset(s)
  {
    if s != [] {
      SortPermutes(dir, s[..|s| - 1]);
      InsertPermutes(dir, s[|s| - 1], Sort(dir, s[..|s| - 1]));
      assert s == s[..|s| - 1] + [s[|s| - 1]];
    }
  }

  /** The sort orders its output by date in the requested direction. */
  lemma {:induction false} SortSorted(dir: Direction, s: seq<HabitEntry>)
    ensures Sorted(dir, Sort(dir, s))
  {
    if s != [] {
      SortSorted(dir, s[..|s| - 1]);
      InsertSorted(dir, s[|s| - 1], Sort(dir, s[..|s| - 1]));
    }
  }

  lemma {:induction false} OnDateConcat(a: seq<HabitEntry>, b: seq<HabitEntry>, d: CalDate)
    ensures OnDate(a + b, d) == OnDate(a, d) + OnDate(b, d)
  {
    if a != [] {
      var ab := a + b;
      assert ab[0] == a[0] && ab[1..] == a[1..] + b;
      OnDateConcat(a[1..], b, d);
      assert OnDate(ab, d) == (if a[0].date == d then [a[0]] else []) + OnDate(a[1..] + b, d);
    } else {
      assert a + b == b;
    }
  }

  lemma {:induction false} OnDateMembers(s: seq<HabitEntry>, d: CalDate)
    ensures forall x :: x in OnDate(s, d) <==> x in s && x.date == d
  {
    if s != [] {
      OnDateMembers(s[1..], d);
      assert s == [s[0]] + s[1..];
    }
  }

  lemma {:induction false} OnDateNone(s: seq<HabitEntry>, d: CalDate)
    requires forall k :: 0 <= k < |s| ==> s[k].date != d
    ensures OnDate(s, d) == []
  {
    if s != [] {
      OnDateNone(s[1..], d);
    }
  }

  lemma SortedTail(dir: Direction, r: seq<HabitEntry>)
    requires Sorted(dir, r) && r != []
    ensures Sorted(dir, r[1..])
  {
    forall i, j | 0 <= i < j < |r| - 1 ensures InOrder(dir, r[1..][i], r[1..][j]) {
      assert r[1..][i] == r[i + 1] && r[1..][j] == r[j + 1];
    }
  }

  /** When `x` goes in front, no entry of `r` shares its date. */
  lemma InsertInFrontStable(dir: Direction, x: HabitEntry, r: seq<HabitEntry>, d: CalDate)
    requires Sorted(dir, r) && r != [] && !InOrder(dir, r[0], x)
    ensures OnDate([x] + r, d) == OnDate(r, d) + (if x.date == d then [x] else [])
  {
    OnDateCons(x, r, d);
    if x.date == d {
      forall k | 0 <= k < |r| ensures r[k].date != d {
        if k > 0 {
          assert InOrder(dir, r[0], r[k]);
        }
      }
      OnDateNone(r, d);
    }
  }

  lemma OnDateCons(h: HabitEntry, t: seq<HabitEntry>, d: CalDate)
    ensures OnDate([h] + t, d) == (if h.date == d then [h] else []) + OnDate(t, d)
  {
    assert ([h] + t)[0] == h && ([h] + t)[1..] == t;
  }

  lemma {:induction false} InsertStable(dir: Direction, x: HabitEntry, r: seq<HabitEntry>, d: CalDate)
    requires Sorted(dir, r)
    ensures OnDate(Insert(dir, x, r), d) == OnDate(r, d) + (if x.date == d then [x] else [])
  {
    if r == [] {
      OnDateCons(x, [], d);
    } else if !InOrder(dir, r[0], x) {
      InsertInFrontStable(dir, x, r, d);
    } else {
      SortedTail(dir, r);
      InsertStable(dir, x, r[1..], d);
      OnDateCons(r[0], Insert(dir, x, r[1..]), d);
      OnDateCons(r[0], r[1..], d);
      assert [r[0]] + r[1..] == r;
    }
  }

  /** Stability: for every date, the entries of that date appear in the
      sorted sequence in the same order as in the input. */
  lemma {:induction false} SortStable(dir: Direction, s: seq<HabitEntry>, d: CalDate)
    ensures OnDate(Sort(dir, s), d) == OnDate(s, d)
  {
    if s != [] {
      var init, last := s[..|s| - 1], s[|s| - 1];
      SortStable(dir, init, d);
      SortSorted(dir, init);
      InsertStable(dir, last, Sort(dir, init), d);
      assert s == init + [last];
      OnDateConcat(init, [last], d);
      assert OnDate([last], d) == (if last.date == d then [last] else []);
    }
  }

  lemma OnDateOfFirst(s: seq<HabitEntry>)
    ensures s != [] ==> OnDate(s, s[0].date) != []
  {
  }

  /** The head of a sorted sequence may precede every member of it. */
  lemma SortedHeadFirst(dir: Direction, s: seq<HabitEntry>, y: HabitEntry)
    requires Sorted(dir, s) && y in s
    ensures InOrder(dir, s[0], y)
  {
    var k :| 0 <= k < |s| && s[k] == y;
    if k > 0 {
      assert InOrder(dir, s[0], s[k]);
    }
  }

  lemma InOrderAntisymmetric(dir: Direction, a: HabitEntry, b: HabitEntry)
    requires InOrder(dir, a, b) && InOrder(dir, b, a)
    ensures a.date == b.date
  {
  }

  /** An entry of `s` on the date of `s[0]` is the first one listed for
      that date. */
  lemma OnDateHead(s: seq<HabitEntry>)
    requires s != []
    ensures OnDate(s, s[0].date) != [] && OnDate(s, s[0].date)[0] == s[0]
  {
    OnDateCons(s[0], s[1..], s[0].date);
    assert [s[0]] + s[1..] == s;
  }

  /** Two date-sorted sequences with the same entries on every date start
      with the same entry. */
  lemma SameHead(dir: Direction, a: seq<HabitEntry>, b: seq<HabitEntry>)
    requires Sorted(dir, a) && Sorted(dir, b) && a != [] && b != []
    requires forall d :: OnDate(a, d) == OnDate(b, d)
    ensures a[0] == b[0]
  {
    var da, db := a[0].date, b[0].date;
    OnDateHead(a);
    OnDateHead(b);
    assert OnDate(b, da)[0] == a[0];
    assert OnDate(a, db)[0] == b[0];
    OnDateMembers(b, da);
    OnDateMembers(a, db);
    SortedHeadFirst(dir, b, a[0]);
    SortedHeadFirst(dir, a, b[0]);
    InOrderAntisymmetric(dir, a[0], b[0]);
  }

  lemma TailsAgree(a: seq<HabitEntry>, b: seq<HabitEntry>, d: CalDate)
    requires a != [] && b != [] && a[0] == b[0]
    requires OnDate(a, d) == OnDate(b, d)
    ensures OnDate(a[1..], d) == OnDate(b[1..], d)
  {
    OnDateCons(a[0], a[1..], d);
    OnDateCons(b[0], b[1..], d);
    assert [a[0]] + a[1..] == a && [b[0]] + b[1..] == b;
    var n := if a[0].date == d then 1 else 0;
    assert OnDate(a[1..], d) == OnDate(a, d)[n..];
    assert OnDate(b[1..], d) == OnDate(b, d)[n..];
  }

  /** A date-sorted sequence that agrees with another on every date's
      entries is that sequence: the order of a stable sort is determined. */
  lemma {:induction false} SortedStableUnique(dir: Direction, a: seq<HabitEntry>, b: seq<HabitEntry>)
    requires Sorted(dir, a) && Sorted(dir, b)
    requires forall d :: OnDate(a, d) == OnDate(b, d)
    ensures a == b
  {
    OnDateOfFirst(a);
    OnDateOfFirst(b);
    if a == [] || b == [] {
      // One is empty, so the other has no entry on any date either.
    } else {
      SameHead(dir, a, b);
      forall d | true ensures OnDate(a[1..], d) == OnDate(b[1..], d) {
        TailsAgree(a, b, d);
      }
      SortedTail(dir, a);
      SortedTail(dir, b);
      SortedStableUnique(dir, a[1..], b[1..]);
      assert a == [a[0]] + a[1..] && b == [b[0]] + b[1..];
    }
  }

  /** Any stable sort of `s` by date yields `Sort(dir, s)`; in particular
      the engine's built-in sort does. */
  lemma StableSortIsSort(dir: Direction, s: seq<HabitEntry>, r: seq<HabitEntry>)
    requires Sorted(dir, r)
    requires forall d :: OnDate(r, d) == OnDate(s, d)
    ensures r == Sort(dir, s)
  {
    forall d | true ensures OnDate(r, d) == OnDate(Sort(dir, s), d) {
      SortStable(dir, s, d);
    }
    SortSorted(dir, s);
    SortedStableUnique(dir, r, Sort(dir, s));
  }
}
