/** The application root (App.tsx): the entry list and the active screen,
    kept in browser storage under one key, changed by adding, deleting and
    navigating. */
module App {
  import opened Types
  import opened JournalList
  import JournalForm

  /** What storage holds under the entries key, as the load step sees it:
      nothing (or an empty string), text that does not parse, or a parsed
      list. */
  datatype StoredValue = NoValue | Unparseable | Serialized(list: seq<HabitEntry>)

  /** The load step: a parsed stored list replaces the empty initial list;
      a missing or unparseable value leaves it empty. */
  function Restored(saved: StoredValue): (r: seq<HabitEntry>)
    ensures saved.Serialized? ==> r == saved.list
    ensures !saved.Serialized? ==> r == []
  {
    if saved.Serialized? then saved.list else []
  }

  /** `prev.filter(e => e.id !== id)`: the entries with another id, in
      their original order. */
  function RemoveId(entries: seq<HabitEntry>, id: string): (r: seq<HabitEntry>)
    ensures |r| <= |entries|
    ensures forall e :: e in r <==> e in entries && e.id != id
  {
    if entries == [] then []
    else (if entries[0].id != id then [entries[0]] else []) + RemoveId(entries[1..], id)
  }

  /** Filtering distributes over concatenation, so the kept entries stay in
      their original relative order. */
  lemma {:induction false} RemoveIdConcat(a: seq<HabitEntry>, b: seq<HabitEntry>, id: string)
    ensures RemoveId(a + b, id) == RemoveId(a, id) + RemoveId(b, id)
  {
    if a == [] {
      assert a + b == b;
    } else {
      var ab := a + b;
      assert ab[0] == a[0] && ab[1..] == a[1..] + b;
      RemoveIdConcat(a[1..], b, id);
    }
  }

  /** Deleting an id no entry has changes nothing. */
  lemma {:induction false} RemoveAbsentId(entries: seq<HabitEntry>, id: string)
    requires forall k :: 0 <= k < |entries| ==> entries[k].id != id
    ensures RemoveId(entries, id) == entries
  {
    if entries != [] {
      RemoveAbsentId(entries[1..], id);
      assert entries == [entries[0]] + entries[1..];
    }
  }

  /** Deleting twice is deleting once. */
  lemma RemoveIdIdempotent(entries: seq<HabitEntry>, id: string)
    ensures RemoveId(RemoveId(entries, id), id) == RemoveId(entries, id)
  {
    var r := RemoveId(entries, id);
    forall k | 0 <= k < |r| ensures r[k].id != id {
      assert r[k] in r;
    }
    RemoveAbsentId(r, id);
  }

  /** Adding an entry and then deleting its id restores the list, when no
      earlier entry shared that id. */
  lemma RemoveAfterAdd(entries: seq<HabitEntry>, e: HabitEntry)
    requires forall k :: 0 <= k < |entries| ==> entries[k].id != e.id
    ensures RemoveId(entries + [e], e.id) == entries
  {
    RemoveIdConcat(entries, [e], e.id);
    RemoveAbsentId(entries, e.id);
    assert RemoveId([e], e.id) == [] + RemoveId([e][1..], e.id);
  }

  predicate UniqueIds(entries: seq<HabitEntry>)
  {
    forall i, j :: 0 <= i < j < |entries| ==> entries[i].id != entries[j].id
  }

  /** With distinct ids, deleting a present id removes exactly one entry. */
  lemma {:induction false} RemovePresentUniqueId(entries: seq<HabitEntry>, id: string)
    requires UniqueIds(entries)
    requires exists k :: 0 <= k < |entries| && entries[k].id == id
    ensures |RemoveId(entries, id)| == |entries| - 1
  {
    var k :| 0 <= k < |entries| && entries[k].id == id;
    if k == 0 {
      RemoveAbsentId(entries[1..], id);
    } else {
      assert entries[1..][k - 1].id == id;
      RemovePresentUniqueId(entries[1..], id);
    }
  }

  /** The delete button of a journal card removes that card's entry. */
  lemma DeleteButtonRemovesItsEntry(entries: seq<HabitEntry>, k: nat)
    requires k < |Listing(entries)|
    ensures Cards(Listing(entries))[k].entry in entries
    ensures Cards(Listing(entries))[k].entry !in RemoveId(entries, Cards(Listing(entries))[k].deleteId)
    ensures |RemoveId(entries, Cards(Listing(entries))[k].deleteId)| < |entries|
  {
    ListingIsStableDescending(entries);
    var e := Listing(entries)[k];
    assert e in multiset(Listing(entries));
    var i :| 0 <= i < |entries| && entries[i] == e;
    RemoveIdShrinks(entries, e.id, i);
  }

  lemma {:induction false} RemoveIdShrinks(entries: seq<HabitEntry>, id: string, i: nat)
    requires i < |entries| && entries[i].id == id
    ensures |RemoveId(entries, id)| < |entries|
  {
    if i > 0 {
      RemoveIdShrinks(entries[1..], id, i - 1);
    }
  }

  /** The page `renderContent` shows for each screen. */
  datatype Page = DashboardPage | JournalListPage | JournalFormPage | InsightsPage

  function PageFor(view: ViewMode): (p: Page)
    ensures p == JournalListPage <==> view == JOURNAL
    ensures p == JournalFormPage <==> view == NEW_ENTRY
    ensures p == InsightsPage <==> view == INSIGHTS
    ensures p == DashboardPage <==> view == DASHBOARD
  {
    match view
    case DASHBOARD => DashboardPage
    case JOURNAL => JournalListPage
    case NEW_ENTRY => JournalFormPage
    case INSIGHTS => InsightsPage
  }

  class App {
    var entries: seq<HabitEntry>
    var activeView: ViewMode
    /** The storage value under the entries key. */
    var storage: StoredValue

    /** Storage holds the current list, as the save effect leaves it after
      mounting and after every change of the list. */
    ghost predicate Synced()
      reads this
    {
      storage == Serialized(entries)
    }

    /** The first render: no entries, the dashboard, storage as the browser
      has it. */
    constructor (saved: StoredValue)
      ensures entries == [] && activeView == DASHBOARD && storage == saved
    {
      entries := [];
      activeView := DASHBOARD;
      storage := saved;
    }

    /** The state once both mount effects have run: load replaces the list
      with the stored one when it parses, and storage holds the current list.
      (In the first commit the save effect writes the initial empty list;
      the loaded list is written after the re-render.) A value that does not
      parse is therefore overwritten by the empty list. */
    method Mount()
      modifies this
      ensures entries == if old(storage).Serialized? then old(storage).list else old(entries)
      ensures old(entries) == [] ==> entries == Restored(old(storage))
      ensures activeView == old(activeView)
      ensures Synced()
    {
      match storage {
        case Serialized(list) =>
          entries := list;
        case NoValue =>
        case Unparseable =>
      }
      storage := Serialized(entries);
    }

    /** `handleAddEntry`: append, save, and open the journal. */
    method AddEntry(entry: HabitEntry)
      modifies this
      ensures entries == old(entries) + [entry]
      ensures activeView == JOURNAL && PageFor(activeView) == JournalListPage
      ensures Synced()
    {
      entries := entries + [entry];
      storage := Serialized(entries);
      activeView := JOURNAL;
    }

    /** `handleDeleteEntry`: if the user confirms, keep the entries with
      another id and save; the screen never changes. */
    method DeleteEntry(id: string, confirmed: bool)
      requires Synced()
      modifies this
      ensures entries == if confirmed then RemoveId(old(entries), id) else old(entries)
      ensures activeView == old(activeView)
      ensures Synced()
    {
      if confirmed {
        entries := RemoveId(entries, id);
        storage := Serialized(entries);
      }
    }

    /** The form's cancel button returns to the dashboard. */
    method CancelForm()
      modifies this`activeView
      ensures activeView == DASHBOARD
    {
      activeView := DASHBOARD;
    }

    /** Navigation selects exactly the chosen screen. */
    method ViewChange(view: ViewMode)
      modifies this`activeView
      ensures activeView == view
    {
      activeView := view;
    }

    /** The form's save: the submitted entry is appended once. It is only
        reached through a submit that passed the form's validation. */
    method SaveForm(form: JournalForm.JournalForm, id: string, now: int)
      requires form.Valid()
      requires form.formData.happyReason != ""
      modifies this
      ensures entries == old(entries) + [JournalForm.NewEntry(form.formData, id, now)]
      ensures activeView == JOURNAL
      ensures Synced()
    {
      var entry := form.Submit(id, now);
      AddEntry(entry);
    }

    /** A restart against the same storage reproduces the list. */
    method Restart() returns (next: App)
      requires Synced()
      ensures next.entries == entries
      ensures next.activeView == DASHBOARD && next.Synced()
    {
      next := new App(storage);
      next.Mount();
    }
  }
}
