# ZenHabit journal — a verified model of its entry list, derived views and insight request

ZenHabit is a small browser journaling app. A user records one reflection per
day (a date, a 1..10 mood, what made them happy or angry, what to improve,
hours of screen time, what they learned). The app keeps the list in browser
storage. It shows a dashboard of trends, a journal listing and a form, and it
asks a generative-text service for a short summary with suggestions.

This project models the logic under those screens in Dafny:

- **Types** (`types.dfy`): `HabitEntry`, `ViewMode`, `AIInsight`. A date is a
  `CalDate(year, month, day)` ordered lexicographically. `IsoDate` renders it as
  the ISO 8601 extended calendar date `YYYY-MM-DD` (section 4.1.2.2 of
  ISO 8601:2004).
- **Text** and **Slices** (`text.dfy`, `slices.dfy`): JavaScript's `split`,
  `join`, `slice(-n)` and `reverse`, plus zero-padded and plain decimal digits.
  `split` and `join` are proved inverse to each other.
- **DateSort** (`date_sort.dfy`): the stable sort by date that both views apply
  to a copy of the list. It is proved to permute its input, to order it, and to
  keep entries of one date in insertion order. Any sequence with these three
  properties equals it, so the engine's own stable sort gives the same result.
- **Dashboard** (`dashboard.dfy`): the 14-entry trend, the mood and screen-time
  averages, the three most recent reflections, the `MM/DD` axis labels and the
  bar highlight for more than six hours.
- **JournalList** (`journal_list.dfy`): the listing, latest date first; the
  count badge; the day badge; the optional sections; and the id each delete
  button emits.
- **GeminiService** (`gemini_service.dfy`): the seven-entry analysis window,
  the prompt with one block per entry in order, and the request. Any failure
  inside the `try` gives the fixed fallback insight.
- **InsightsView** (`insights_view.dfy`): a class with the `insight` and
  `loading` state. `fetchInsights` is gated on three entries and raises
  `loading` around the request. The screen shows the locked notice, the
  spinner, the cards or nothing.
- **JournalForm** (`journal_form.dfy`): a class holding the form record. Each
  input replaces exactly its own field. Submit copies the record into a new
  entry with the given id and timestamp.
- **App** (`app.dfy`): a class with the entry list, the active screen and the
  stored value. It models mounting (load, then save), adding, confirmed
  deletion by id, cancel and navigation.

Values are immutable in Dafny, so "the views sort a copy and leave the list
as it was" holds by construction. The external completion call, JSON parsing,
`confirm()`, the clock, `crypto.randomUUID()` and the engine's number-to-text
conversion are parameters.

Behaviour of the code worth noting:

- In the journal listing, entries with the same date keep their insertion
  order, because the sort is stable and the comparator returns 0.
- Adding an entry does not validate it. Only the form's HTML attributes
  constrain the input: the browser submits only with a non-empty happy reason
  (`required`, components/JournalForm.tsx:74-75) and a mood from the 1..10
  slider. The model states both as preconditions of `Submit` and `SaveForm`.
- A failing storage write is not handled, and ids are not checked for
  uniqueness.
- On mount both effects run in the first commit, before the load's
  `setEntries` takes effect: the save effect first writes the initial empty
  list, and the loaded list is written after the re-render. `App.Mount`
  models the state once both effects have run. A stored value that does not
  parse is therefore replaced by the empty list.

## Model

| member | source | states |
|---|---|---|
| `Types.IsoDateFields` | types.ts:4 | Splitting a `YYYY-MM-DD` date at `-` gives exactly its year, month and day fields, and they read back as the date's numbers |
| `DateSort.SortPermutes` | components/Dashboard.tsx:11 | The sorted copy is a permutation of the entries |
| `DateSort.SortSorted` | components/Dashboard.tsx:11 | The sorted copy is ordered by date in the comparator's direction |
| `DateSort.SortStable` | components/Dashboard.tsx:11 | For every date, the entries of that date keep their insertion order (stable sort, comparator 0 on equal dates) |
| `DateSort.SortedStableUnique` | components/Dashboard.tsx:11 | Two date-ordered sequences with the same entries in the same order on every date are equal |
| `DateSort.StableSortIsSort` | components/JournalList.tsx:11 | Every date-ordered sequence that keeps each date's insertion order is the model's sort, so the engine's stable sort agrees with it |
| `Dashboard.TrendShape` | components/Dashboard.tsx:11 | The trend has min(14, n) entries, is non-decreasing by date, and its entries are drawn from the list |
| `Dashboard.TrendKeepsLatest` | components/Dashboard.tsx:11 | Every entry left out of the trend is dated on or before every entry in it |
| `Dashboard.TrendStable` | components/Dashboard.tsx:11 | For every date, the trend's entries of that date are the last ones added on that date, in insertion order |
| `Dashboard.AverageMood` | components/Dashboard.tsx:13-15 | The average mood is 0 for no entries, else the one value that times the count gives the sum of the mood scores |
| `Dashboard.AverageMoodOnScale` | components/Dashboard.tsx:13-15 | With at least one entry and every mood in 1..10, the average lies in 1..10 |
| `Dashboard.AverageScreen` | components/Dashboard.tsx:17-19 | The average screen time is 0 for no entries, else the sum of screen times divided by the count |
| `Dashboard.RecentReflections` | components/Dashboard.tsx:111 | The recent cards are the last min(3, n) entries appended, most recent first |
| `Dashboard.NoEntriesMessageIffNoRecent` | components/Dashboard.tsx:126-131 | The "No entries yet" message is shown exactly when there are no recent cards |
| `Dashboard.TickLabelOfDate` | components/Dashboard.tsx:56 | The axis label of `YYYY-MM-DD` is `MM/DD` |
| `Dashboard.BarFills` | components/Dashboard.tsx:98-100 | One bar per trend entry in order, in the warning colour exactly when screen time is above 6 hours |
| `JournalList.ListingIsStableDescending` | components/JournalList.tsx:11 | The listing is a permutation of the entries, non-increasing by date, with each date's entries in insertion order |
| `JournalList.CountNoun` | components/JournalList.tsx:18 | The noun is "Entry" exactly when there is one entry, and "Entries" otherwise |
| `JournalList.CountLabelReadsBack` | components/JournalList.tsx:18 | The count badge splits into the decimal count, which reads back as n, and the noun |
| `JournalList.DayBadgeOfDate` | components/JournalList.tsx:28 | The day badge of `YYYY-MM-DD` is its third field `DD`, the entry's day of month |
| `JournalList.Sections` | components/JournalList.tsx:58-86 | Highlights always comes first; Tension, Focus and Growth appear exactly when their text is non-empty, in layout order |
| `JournalList.Cards` | components/JournalList.tsx:23-45 | One card per listed entry in listing order; each card's delete button emits that entry's id |
| `JournalList.EmptyStateIffNoCards` | components/JournalList.tsx:92-97 | The empty-journal message is shown exactly when there are no cards |
| `GeminiService.AnalysisWindow` | services/geminiService.ts:8 | The window is the last min(7, n) entries, in their original order |
| `GeminiService.Blocks` | services/geminiService.ts:16-24 | One prompt block per window entry |
| `GeminiService.BlockAt` | services/geminiService.ts:16-24 | Block k of the joined entries is the template filled with entry k's date, mood, reasons, screen time and learnings |
| `GeminiService.PromptHoldsBlocksInOrder` | services/geminiService.ts:16-24 | Each entry's block occurs whole in the prompt, and each ends before the next begins |
| `GeminiService.ReplyText` | services/geminiService.ts:48 | An absent or empty reply text is parsed as `{}`; any other text is parsed as it is |
| `GeminiService.GetAIInsights` | services/geminiService.ts:5-56 | The request rejects exactly when constructing the client fails, which is outside the `try`; otherwise it always resolves |
| `GeminiService.FailureGivesFallback` | services/geminiService.ts:49-55 | A throwing call or parse resolves with the fallback: the literal summary, the three literal suggestions in order, the literal affirmation |
| `GeminiService.SuccessReturnsParsed` | services/geminiService.ts:48 | A reply that parses is returned exactly as parsed, whatever its number of suggestions |
| `InsightsView.SelectScreen` | components/InsightsView.tsx:32-104 | Locked with fewer than 3 entries; else the spinner while loading; else the cards when there is an insight; else nothing |
| `InsightsView.Settle` | components/InsightsView.tsx:17-21 | A resolved request replaces the insight; a rejected one leaves the previous insight |
| `InsightsView.NumberedTips` | components/InsightsView.tsx:93-96 | Suggestion i is shown numbered i + 1, in order, for any number of suggestions |
| `InsightsView.InsightsView.constructor` | components/InsightsView.tsx:11-12 | Initially no insight and not loading |
| `InsightsView.InsightsView.BeginFetch` | components/InsightsView.tsx:15-16 | With fewer than 3 entries nothing changes; otherwise loading is raised, the spinner shows and refresh is disabled |
| `InsightsView.InsightsView.EndFetch` | components/InsightsView.tsx:18-24 | The outcome settles the insight and loading is lowered whatever happened |
| `InsightsView.InsightsView.FetchInsights` | components/InsightsView.tsx:14-25 | Below 3 entries a no-op; otherwise loading ends false and the insight is the settled outcome of the request |
| `InsightsView.ShownAfterFetch` | components/InsightsView.tsx:63-104 | After a request on 3 or more entries the screen shows the fallback after a failed call, cards whenever the client was built, and the previous insight after a rejection |
| `JournalForm.InitialForm` | components/JournalForm.tsx:11-19 | The form starts at today's date, with empty texts, screen time 0 and mood 5 |
| `JournalForm.ScreenTimeOf` | components/JournalForm.tsx:121 | Input that does not parse is stored as 0; a parsed number is stored as it is |
| `JournalForm.NewEntryCopiesForm` | components/JournalForm.tsx:23-27 | The new entry carries every form field unchanged, with the supplied id and timestamp |
| `JournalForm.EntryIsNewEntryOfItsForm` | components/JournalForm.tsx:23-27 | Every entry is the submit of its own form fields |
| `JournalForm.JournalForm.constructor` | components/JournalForm.tsx:11-19 | The form record starts as the initial form and the mood is on the 1..10 scale |
| `JournalForm.JournalForm.ChangeDate` | components/JournalForm.tsx:49 | Only the date field changes |
| `JournalForm.JournalForm.ChangeMoodScore` | components/JournalForm.tsx:62 | Only the mood changes, and it stays in 1..10 |
| `JournalForm.JournalForm.ChangeHappyReason` | components/JournalForm.tsx:79 | Only the happy-reason field changes |
| `JournalForm.JournalForm.ChangeAngerReason` | components/JournalForm.tsx:92 | Only the anger-reason field changes |
| `JournalForm.JournalForm.ChangeThingsToImprove` | components/JournalForm.tsx:107 | Only the things-to-improve field changes |
| `JournalForm.JournalForm.ChangeScreenTime` | components/JournalForm.tsx:121 | Only the screen time changes, to the parsed value or 0 |
| `JournalForm.JournalForm.ChangeNewLearnings` | components/JournalForm.tsx:135 | Only the learnings field changes |
| `JournalForm.JournalForm.Submit` | components/JournalForm.tsx:21-29 | Fired only when the `required` happy reason is non-empty; the entry passed to save is the form copied with the given id and time, with its mood in 1..10 and a non-empty happy reason |
| `App.Restored` | App.tsx:17-26 | A stored list that parses is loaded; a missing or unparseable value leaves the list empty |
| `App.RemoveId` | App.tsx:40 | The entries kept are exactly those whose id differs from the deleted id |
| `App.RemoveIdConcat` | App.tsx:40 | Deleting distributes over concatenation, so the kept entries stay in their original order |
| `App.RemoveAbsentId` | App.tsx:40 | Deleting an id that no entry has changes nothing |
| `App.RemoveIdIdempotent` | App.tsx:40 | Deleting twice equals deleting once |
| `App.RemoveAfterAdd` | App.tsx:33-42 | Adding an entry and then deleting its id restores the list when the id was new |
| `App.RemovePresentUniqueId` | App.tsx:40 | With distinct ids, deleting a present id removes exactly one entry |
| `App.DeleteButtonRemovesItsEntry` | components/JournalList.tsx:45 | The delete button of a journal card removes that card's entry and shrinks the list |
| `App.PageFor` | App.tsx:44-57 | Each screen renders its own page: dashboard, journal listing, form or insights |
| `App.App.constructor` | App.tsx:13-14 | Initially no entries and the dashboard is shown |
| `App.App.Mount` | App.tsx:17-31 | Mounting loads a parsed stored list (else keeps the empty list) and then stores the current list |
| `App.App.AddEntry` | App.tsx:33-36 | The new list is the old list followed by the entry; it is stored and the journal opens, whatever the previous screen |
| `App.App.DeleteEntry` | App.tsx:38-42 | A confirmed delete keeps the entries with another id and stores them; a declined one changes nothing; the screen never changes |
| `App.App.CancelForm` | App.tsx:51 | Cancelling the form shows the dashboard |
| `App.App.ViewChange` | App.tsx:60 | Navigation shows exactly the chosen screen |
| `App.App.SaveForm` | components/JournalForm.tsx:28 | Submitting the form appends its entry exactly once and opens the journal |
| `App.App.Restart` | App.tsx:17-31 | Reloading from the stored value reproduces the same list, in the same order |

## Left out

- Dates outside four-digit years: an entry's date is a `CalDate`, and `IsoDate` renders it as the source's date string only when it is `WellFormed` (year below 10000, month 1..12, day 1..31), as the date input produces. For a five-digit year `IsoDate` keeps only the last four digits, while the source would store and print all five. The prompt's `Date:` line (`EntryBlock`) and the journal card (`CardOf`) therefore assume well-formed dates.
- Browser storage and JSON (App.tsx:18-30): the stored value is the abstract `StoredValue`, and `console.error` diagnostics are dropped.
- The generative-text client, model name, response schema and API key (services/geminiService.ts:6, 28-46): the call is the oracle `generate`, parsing is the oracle `parse`, and whether the client constructor throws is the input `clientConstructed`.
- GetAIInsights: assumes the parsed reply has the `AIInsight` shape. The source casts it without any check, so a reply missing fields is outside the model. In particular an empty reply is parsed as `{}`, an object with no fields; the insights screen treats it as an insight and calls `.map` on its missing `suggestions` (components/InsightsView.tsx:71 and 93), which throws while rendering.
- `async`/`await`, effect scheduling and overlapping requests: `FetchInsights` is one run of the handler, split at the `await` into `BeginFetch` and `EndFetch`. The mount effect that calls it is not modelled separately.
- Floating point: averages are exact reals, with no `toFixed(1)` rounding. `parseFloat` is abstracted to `NumberInput`, and the engine's printing of the screen time is the parameter `showReal`.
- `crypto.randomUUID()`, `Date.now()` and today's date: these are parameters.
- `new Date(...)` parsing and locale formatting (the month abbreviation and weekday on journal cards). Dates are `CalDate` values, compared by calendar order. For the date-only ISO strings the date input produces, this is the order of their timestamps.
- `confirm()`: modelled as the boolean `confirmed`.
- JSX markup, CSS classes, recharts and Layout.tsx, which only lists the four screens and forwards clicks to `ViewChange`.
- JournalForm.JournalForm.ChangeMoodScore: requires 1..10, the range the slider's `min`/`max` attributes allow; `parseInt` of other text is not modelled.
