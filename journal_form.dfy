/** The reflection form (components/JournalForm.tsx): a record of field
    values, each input replacing exactly its own field, and the entry built
    from it on submit. The current date, the fresh id and the clock are
    inputs. */
module JournalForm {
  import opened Types

  /** The form's fields: those of an entry without its id and timestamp. */
  datatype FormData = FormData(
    date: CalDate,
    happyReason: string,
    angerReason: string,
    thingsToImprove: string,
    screenTime: real,
    newLearnings: string,
    moodScore: int)

  /** The slider's default mood. */
  const DEFAULT_MOOD: int := 5

  /** The form as first shown: today's date (the UTC date of the clock),
      empty texts, no screen time, mood 5. */
  function InitialForm(today: CalDate): (f: FormData)
    ensures f.date == today && f.screenTime == 0.0 && f.moodScore == DEFAULT_MOOD
    ensures f.happyReason == "" && f.angerReason == "" && f.thingsToImprove == "" && f.newLearnings == ""
  {
    FormData(today, "", "", "", 0.0, "", DEFAULT_MOOD)
  }

  /** What the number input's text parses to. */
  datatype NumberInput = NotANumber | Number(value: real)

  /** `parseFloat(text) || 0`: a value that does not parse, or parses to
      zero, is stored as zero. */
  function ScreenTimeOf(input: NumberInput): (r: real)
    ensures input.NotANumber? ==> r == 0.0
    ensures input.Number? ==> r == input.value
  {
    match input
    case NotANumber => 0.0
    // JavaScript's `|| 0` replaces a falsy number (0, -0) by 0; over the
    // reals this leaves every value as it is.
    case Number(v) => if v == 0.0 then 0.0 else v
  }

  /** The entry a submit builds: every form field, the fresh id and the
      creation time. */
  function NewEntry(f: FormData, id: string, createdAt: int): HabitEntry
  {
    HabitEntry(id, f.date, f.happyReason, f.angerReason, f.thingsToImprove,
               f.screenTime, f.newLearnings, f.moodScore, createdAt)
  }

  /** The form fields of an entry. */
  function FormOf(e: HabitEntry): FormData
  {
    FormData(e.date, e.happyReason, e.angerReason, e.thingsToImprove, e.screenTime, e.newLearnings, e.moodScore)
  }

  /** Submitting copies the form: its fields read back unchanged, and the id
      and timestamp are the ones supplied. */
  lemma NewEntryCopiesForm(f: FormData, id: string, createdAt: int)
    ensures FormOf(NewEntry(f, id, createdAt)) == f
    ensures NewEntry(f, id, createdAt).id == id && NewEntry(f, id, createdAt).createdAt == createdAt
  {
  }

  /** Every entry is the submit of its own form fields. */
  lemma EntryIsNewEntryOfItsForm(e: HabitEntry)
    ensures NewEntry(FormOf(e), e.id, e.createdAt) == e
  {
  }

  class JournalForm {
    var formData: FormData

    /** The mood slider spans 1..10. */
    ghost predicate Valid()
      reads this
    {
      1 <= formData.moodScore <= 10
    }

    constructor (today: CalDate)
      ensures Valid()
      ensures formData == InitialForm(today)
    {
      formData := InitialForm(today);
    }

    method ChangeDate(value: CalDate)
      requires Valid()
      modifies this
      ensures Valid()
      ensures formData == old(formData).(date := value)
    {
      formData := formData.(date := value);
    }

    /** The range input only produces whole numbers from 1 to 10. */
    method ChangeMoodScore(value: int)
      requires Valid()
      requires 1 <= value <= 10
      modifies this
      ensures Valid()
      ensures formData == old(formData).(moodScore := value)
    {
      formData := formData.(moodScore := value);
    }

    method ChangeHappyReason(value: string)
      requires Valid()
      modifies this
      ensures Valid()
      ensures formData == old(formData).(happyReason := value)
    {
      formData := formData.(happyReason := value);
    }

    method ChangeAngerReason(value: string)
      requires Valid()
      modifies this
      ensures Valid()
      ensures formData == old(formData).(angerReason := value)
    {
      formData := formData.(angerReason := value);
    }

    method ChangeThingsToImprove(value: string)
      requires Valid()
      modifies this
      ensures Valid()
      ensures formData == old(formData).(thingsToImprove := value)
    {
      formData := formData.(thingsToImprove := value);
    }

    method ChangeScreenTime(input: NumberInput)
      requires Valid()
      modifies this
      ensures Valid()
      ensures formData == old(formData).(screenTime := ScreenTimeOf(input))
    {
      formData := formData.(screenTime := ScreenTimeOf(input));
    }

    method ChangeNewLearnings(value: string)
      requires Valid()
      modifies this
      ensures Valid()
      ensures formData == old(formData).(newLearnings := value)
    {
      formData := formData.(newLearnings := value);
    }

    /** `handleSubmit`: the entry passed, once, to `onSave`. The browser
        fires it only once constraint validation passes, so the `required`
        happy-reason text is non-empty. */
    method Submit(id: string, now: int) returns (entry: HabitEntry)
      requires Valid()
      requires formData.happyReason != ""
      ensures entry == NewEntry(formData, id, now)
      ensures FormOf(entry) == formData
      ensures 1 <= entry.moodScore <= 10
      ensures entry.happyReason != ""
    {
      entry := NewEntry(formData, id, now);
    }
  }
}
