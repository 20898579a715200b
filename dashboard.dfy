/** The dashboard's derived views (components/Dashboard.tsx): the 14-entry
    trend, the averages, the three most recent reflections, the axis labels
    and the bar colours. */
module Dashboard {
  import opened Types
  import opened Text
  import opened Slices
  import opened DateSort

  /** How many entries the mood and screen-time charts show. */
  const TREND_SIZE: nat := 14
  /** How many reflections the "Recent Reflections" section shows. */
  const RECENT_SIZE: nat := 3
  /** Bars above this many hours of screen time are drawn in the warning colour. */
  const SCREEN_LIMIT: real := 6.0
  const WARNING_FILL := "#f43f5e"
  const NORMAL_FILL := "#6366f1"

  /** The chart data: a copy of the entries sorted by date, then its last 14. */
  function TrendEntries(entries: seq<HabitEntry>): seq<HabitEntry>
  {
    Last(Sort(Ascending, entries), TREND_SIZE)
  }

  /** The trend has min(14, n) entries, is ordered by date, and is drawn
      from the entries. */
  lemma TrendShape(entries: seq<HabitEntry>)
    ensures |TrendEntries(entries)| == Min(TREND_SIZE, |entries|)
    ensures Sorted(Ascending, TrendEntries(entries))
    ensures multiset(TrendEntries(entries)) <= multiset(entries)
  {
    var t := Sort(Ascending, entries);
    var r := TrendEntries(entries);
    SortSorted(Ascending, entries);
    SortPermutes(Ascending, entries);
    assert t == t[..|t| - |r|] + r;
    assert multiset(t) == multiset(t[..|t| - |r|]) + multiset(r);
    forall i, j | 0 <= i < j < |r| ensures InOrder(Ascending, r[i], r[j]) {
      assert r[i] == t[|t| - |r| + i] && r[j] == t[|t| - |r| + j];
    }
  }

  /** The trend keeps the latest-dated entries: every entry left out is
      dated on or before every entry shown. */
  lemma TrendKeepsLatest(entries: seq<HabitEntry>, x: HabitEntry, y: HabitEntry)
    requires x in TrendEntries(entries)
    requires y in multiset(entries) - multiset(TrendEntries(entries))
    ensures OnOrBefore(y.date, x.date)
  {
    var t := Sort(Ascending, entries);
    var r := TrendEntries(entries);
    var m := |t| - |r|;
    SortPermutes(Ascending, entries);
    SortSorted(Ascending, entries);
    assert t == t[..m] + r;
    assert multiset(entries) - multiset(r) == multiset(t[..m]);
    PrefixPrecedesSuffix(t, m, x, y);
  }

  lemma PrefixPrecedesSuffix(t: seq<HabitEntry>, m: nat, x: HabitEntry, y: HabitEntry)
    requires Sorted(Ascending, t) && m <= |t|
    requires x in t[m..] && y in t[..m]
    ensures OnOrBefore(y.date, x.date)
  {
    var i :| 0 <= i < m && t[..m][i] == y;
    var j :| 0 <= j < |t| - m && t[m..][j] == x;
    assert t[i] == y && t[m + j] == x;
  }

  /** Entries on the same date keep their insertion order in the trend: for
      each date, the trend shows the last entries of that date as they were
      added. */
  lemma TrendStable(entries: seq<HabitEntry>, d: CalDate)
    ensures |OnDate(TrendEntries(entries), d)| <= |OnDate(entries, d)|
    ensures OnDate(TrendEntries(entries), d) ==
            OnDate(entries, d)[|OnDate(entries, d)| - |OnDate(TrendEntries(entries), d)|..]
  {
    var t := Sort(Ascending, entries);
    var r := TrendEntries(entries);
    assert t == t[..|t| - |r|] + r;
    OnDateConcat(t[..|t| - |r|], r, d);
    SortStable(Ascending, entries, d);
  }

  /** Sum of the mood scores, folded left to right. */
  function MoodSum(s: seq<HabitEntry>): int
  {
    if s == [] then 0 else MoodSum(s[..|s| - 1]) + s[|s| - 1].moodScore
  }

  /** Sum of the screen times, folded left to right. */
  function ScreenSum(s: seq<HabitEntry>): real
  {
    if s == [] then 0.0 else ScreenSum(s[..|s| - 1]) + s[|s| - 1].screenTime
  }

  /** The mean mood, 0 with no entries. */
  function AverageMood(entries: seq<HabitEntry>): (r: real)
    ensures |entries| == 0 ==> r == 0.0
    ensures |entries| > 0 ==> r * (|entries| as real) == MoodSum(entries) as real
  {
    if |entries| > 0 then MoodSum(entries) as real / |entries| as real else 0.0
  }

  /** The mean screen time, 0 with no entries. */
  function AverageScreen(entries: seq<HabitEntry>): (r: real)
    ensures |entries| == 0 ==> r == 0.0
    ensures |entries| > 0 ==> r * (|entries| as real) == ScreenSum(entries)
  {
    if |entries| > 0 then ScreenSum(entries) / |entries| as real else 0.0
  }

  predicate MoodsOnScale(s: seq<HabitEntry>)
  {
    forall k :: 0 <= k < |s| ==> 1 <= s[k].moodScore <= 10
  }

  lemma {:induction false} MoodSumBounds(s: seq<HabitEntry>)
    requires MoodsOnScale(s)
    ensures |s| <= MoodSum(s) <= 10 * |s|
  {
    if s != [] {
      MoodSumBounds(s[..|s| - 1]);
    }
  }

  /** With every mood on the slider's 1..10 scale, so is their average. */
  lemma AverageMoodOnScale(entries: seq<HabitEntry>)
    requires |entries| > 0
    requires MoodsOnScale(entries)
    ensures 1.0 <= AverageMood(entries) <= 10.0
  {
    MoodSumBounds(entries);
    var n := |entries| as real;
    var sum := MoodSum(entries) as real;
    assert n <= sum <= 10.0 * n;
    AverageBounds(AverageMood(entries), n, sum);
  }

  lemma AverageBounds(a: real, n: real, sum: real)
    requires n > 0.0 && a * n == sum && n <= sum <= 10.0 * n
    ensures 1.0 <= a <= 10.0
  {
    if a < 1.0 {
      ScaleStrict(a, 1.0, n);
    }
    if a > 10.0 {
      ScaleStrict(10.0, a, n);
    }
  }

  lemma ScaleStrict(a: real, b: real, n: real)
    requires a < b && n > 0.0
    ensures a * n < b * n
  {
    assert b * n - a * n == (b - a) * n;
  }

  /** The "Recent Reflections" cards: the last three entries appended, the
      most recent first. */
  function RecentReflections(entries: seq<HabitEntry>): (r: seq<HabitEntry>)
    ensures |r| == Min(RECENT_SIZE, |entries|)
    ensures forall k :: 0 <= k < |r| ==> r[k] == entries[|entries| - 1 - k]
  {
    Reverse(Last(entries, RECENT_SIZE))
  }

  /** The "No entries yet" message is shown exactly when there is no recent
      reflection to show. */
  predicate ShowsNoEntriesMessage(entries: seq<HabitEntry>)
  {
    |entries| == 0
  }

  lemma NoEntriesMessageIffNoRecent(entries: seq<HabitEntry>)
    ensures ShowsNoEntriesMessage(entries) <==> RecentReflections(entries) == []
  {
    if RecentReflections(entries) == [] {
      assert |RecentReflections(entries)| == 0;
    }
  }

  /** The x-axis label of a date: drop the first `-` field and join the rest
      with `/`. */
  function TickLabel(val: string): string
  {
    Join(Split(val, '-')[1..], "/")
  }

  /** The label of `YYYY-MM-DD` is `MM/DD`. */
  lemma TickLabelOfDate(d: CalDate)
    requires WellFormed(d)
    ensures TickLabel(IsoDate(d)) == Digits(d.month, 2) + "/" + Digits(d.day, 2)
  {
    IsoDateFields(d);
    var rest := [Digits(d.month, 2), Digits(d.day, 2)];
    assert Split(IsoDate(d), '-')[1..] == rest;
    assert rest[1..] == [Digits(d.day, 2)];
    assert Join(rest[1..], "/") == Digits(d.day, 2);
  }

  /** The fill of a screen-time bar. */
  function BarFill(e: HabitEntry): string
  {
    if e.screenTime > SCREEN_LIMIT then WARNING_FILL else NORMAL_FILL
  }

  /** One bar per trend entry, in trend order, highlighted exactly when its
      screen time exceeds six hours. */
  function BarFills(trend: seq<HabitEntry>): (r: seq<string>)
    ensures |r| == |trend|
    ensures forall k :: 0 <= k < |r| ==> (r[k] == WARNING_FILL <==> trend[k].screenTime > SCREEN_LIMIT)
  {
    if trend == [] then [] else [BarFill(trend[0])] + BarFills(trend[1..])
  }
}
