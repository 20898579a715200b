/** The records the journal works on: a day's reflection, the four screens
    and the AI summary (types.ts). */
module Types {
  import opened Text

  datatype Option<T> = None | Some(value: T)

  /** A calendar date as written in an ISO 8601 `YYYY-MM-DD` string
      (the value of an `<input type="date">`). */
  datatype CalDate = CalDate(year: nat, month: nat, day: nat)

  /** The dates the date input produces: a four-digit year, a month and a
      day of month. */
  predicate WellFormed(d: CalDate)
  {
    d.year < 10000 && 1 <= d.month <= 12 && 1 <= d.day <= 31
  }

  /** Chronological order of calendar dates: lexicographic on
      (year, month, day). */
  predicate OnOrBefore(a: CalDate, b: CalDate)
  {
    a.year < b.year
    || (a.year == b.year && (a.month < b.month || (a.month == b.month && a.day <= b.day)))
  }

  /** The extended ISO 8601 calendar-date string `YYYY-MM-DD`
      (section 4.1.2.2 of ISO 8601:2004). */
  function IsoDate(d: CalDate): string
  {
    Digits(d.year, 4) + "-" + Digits(d.month, 2) + "-" + Digits(d.day, 2)
  }

  /** Splitting a date string at `-` gives back its year, month and day
      fields, and they read back as the date's numbers. */
  lemma IsoDateFields(d: CalDate)
    requires WellFormed(d)
    ensures Split(IsoDate(d), '-') == [Digits(d.year, 4), Digits(d.month, 2), Digits(d.day, 2)]
    ensures DigitsValue(Digits(d.year, 4)) == d.year
    ensures DigitsValue(Digits(d.month, 2)) == d.month
    ensures DigitsValue(Digits(d.day, 2)) == d.day
  {
    var parts := [Digits(d.year, 4), Digits(d.month, 2), Digits(d.day, 2)];
    forall k | 0 <= k < |parts| ensures '-' !in parts[k] {
      assert IsDigits(parts[k]);
    }
    assert parts[1..][1..] == [parts[2]];
    assert Join(parts[1..], "-") == parts[1] + "-" + parts[2];
    assert Join(parts, "-") == IsoDate(d);
    SplitJoin(parts, '-');
    DigitsRoundTrip(d.year, 4);
    DigitsRoundTrip(d.month, 2);
    DigitsRoundTrip(d.day, 2);
  }

  /** One day's reflection. `screenTime` is in hours, `moodScore` on the
      1..10 scale, `createdAt` in epoch milliseconds. */
  datatype HabitEntry = HabitEntry(
    id: string,
    date: CalDate,
    happyReason: string,
    angerReason: string,
    thingsToImprove: string,
    screenTime: real,
    newLearnings: string,
    moodScore: int,
    createdAt: int)

  /** The four screens of the application. */
  datatype ViewMode = DASHBOARD | JOURNAL | NEW_ENTRY | INSIGHTS

  /** The AI-generated reflection. The number of suggestions is whatever the
      service returned. */
  datatype AIInsight = AIInsight(summary: string, suggestions: seq<string>, affirmation: string)
}
