/** The journal listing (components/JournalList.tsx): every entry, newest
    date first, one card per entry with its day badge, the sections that
    have text and a delete button. */
module JournalList {
  import opened Types
  import opened Text
  import opened DateSort

  /** The listing order: a copy of the entries sorted by date, latest first. */
  function Listing(entries: seq<HabitEntry>): seq<HabitEntry>
  {
    Sort(Descending, entries)
  }

  /** The listing shows each entry exactly once, latest date first, and
      entries of one date in the order they were added. */
  lemma ListingIsStableDescending(entries: seq<HabitEntry>)
    ensures multiset(Listing(entries)) == multiset(entries)
    ensures forall i, j :: 0 <= i < j < |Listing(entries)| ==>
              OnOrBefore(Listing(entries)[j].date, Listing(entries)[i].date)
    ensures forall d :: OnDate(Listing(entries), d) == OnDate(entries, d)
  {
    SortPermutes(Descending, entries);
    SortSorted(Descending, entries);
    forall d | true ensures OnDate(Listing(entries), d) == OnDate(entries, d) {
      SortStable(Descending, entries, d);
    }
  }

  /** The noun after the entry count. */
  function CountNoun(n: nat): (r: string)
    ensures r == "Entry" <==> n == 1
    ensures r == "Entries" <==> n != 1
  {
    if n == 1 then "Entry" else "Entries"
  }

  /** The count badge: the number, a space, the noun. */
  function CountLabel(n: nat): string
  {
    Decimal(n) + " " + CountNoun(n)
  }

  /** The count badge reads back as the number of entries and the noun. */
  lemma CountLabelReadsBack(n: nat)
    ensures Split(CountLabel(n), ' ') == [Decimal(n), CountNoun(n)]
    ensures DigitsValue(Decimal(n)) == n
  {
    var parts := [Decimal(n), CountNoun(n)];
    assert IsDigits(parts[0]);
    assert ' ' !in parts[0];
    assert ' ' !in parts[1];
    assert parts[1..] == [CountNoun(n)];
    assert Join(parts, " ") == CountLabel(n);
    SplitJoin(parts, ' ');
    DecimalRoundTrip(n);
  }

  /** The big number on a card: the third `-` field of the date string, if
      there is one. */
  function DayBadge(date: string): Option<string>
  {
    var fields := Split(date, '-');
    if |fields| > 2 then Some(fields[2]) else None
  }

  /** The badge of `YYYY-MM-DD` is `DD`, the entry's day of month. */
  lemma DayBadgeOfDate(d: CalDate)
    requires WellFormed(d)
    ensures DayBadge(IsoDate(d)) == Some(Digits(d.day, 2))
    ensures DigitsValue(DayBadge(IsoDate(d)).value) == d.day
  {
    IsoDateFields(d);
  }

  /** The labelled sections of a card. */
  datatype Section = Highlights | Tension | Focus | Growth

  /** Highlights always; Tension, Focus and Growth only when the anger,
      improvement or learnings text is non-empty, in that order. */
  function Sections(e: HabitEntry): (r: seq<Section>)
    ensures |r| >= 1 && r[0] == Highlights && Highlights !in r[1..]
    ensures Tension in r <==> e.angerReason != ""
    ensures Focus in r <==> e.thingsToImprove != ""
    ensures Growth in r <==> e.newLearnings != ""
    ensures forall i, j :: 0 <= i < j < |r| ==> SectionRank(r[i]) < SectionRank(r[j])
  {
    [Highlights]
      + (if e.angerReason != "" then [Tension] else [])
      + (if e.thingsToImprove != "" then [Focus] else [])
      + (if e.newLearnings != "" then [Growth] else [])
  }

  /** Position of a section in the card's layout. */
  function SectionRank(s: Section): nat
  {
    match s
    case Highlights => 0
    case Tension => 1
    case Focus => 2
    case Growth => 3
  }

  /** One rendered card: its entry, day badge, sections, and the id its
      delete button passes to the delete handler. */
  datatype Card = Card(entry: HabitEntry, dayBadge: Option<string>, sections: seq<Section>, deleteId: string)

  function CardOf(e: HabitEntry): Card
  {
    Card(e, DayBadge(IsoDate(e.date)), Sections(e), e.id)
  }

  /** One card per listed entry, in listing order; each delete button
      emits its own entry's id. */
  function Cards(listing: seq<HabitEntry>): (r: seq<Card>)
    ensures |r| == |listing|
    ensures forall k :: 0 <= k < |r| ==> r[k].entry == listing[k] && r[k].deleteId == listing[k].id
  {
    if listing == [] then [] else [CardOf(listing[0])] + Cards(listing[1..])
  }

  /** "Your journal is empty" is shown exactly when there are no entries. */
  predicate ShowsEmptyState(entries: seq<HabitEntry>)
  {
    |entries| == 0
  }

  lemma EmptyStateIffNoCards(entries: seq<HabitEntry>)
    ensures ShowsEmptyState(entries) <==> Cards(Listing(entries)) == []
  {
    if Cards(Listing(entries)) == [] {
      assert |Listing(entries)| == 0;
    }
  }
}
