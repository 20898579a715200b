/** The insight request (services/geminiService.ts): the last seven entries
    become a prompt, the completion service is asked for a structured
    reply, and any failure inside the request is replaced by a fixed,
    supportive fallback.

    The completion call and JSON parsing are oracles given as parameters:
    `generate` maps the prompt to the service's reply, `parse` maps the
    reply text to the parsed object. */
module GeminiService {
  import opened Types
  import opened Text
  import opened Slices

  /** How many of the latest entries are analysed. */
  const WINDOW_SIZE: nat := 7

  const FALLBACK_SUMMARY := "I'm having trouble analyzing your entries right now, but keep up the great work of journaling!"
  const FALLBACK_SUGGESTIONS := ["Stay consistent with your daily log", "Reflect on your small wins", "Ensure you get enough rest"]
  const FALLBACK_AFFIRMATION := "You are making progress every single day."

  /** The insight returned when the request fails. */
  const FALLBACK := AIInsight(FALLBACK_SUMMARY, FALLBACK_SUGGESTIONS, FALLBACK_AFFIRMATION)

  /** The prompt text before and after the entry blocks. */
  const PROMPT_HEAD :=
    "\n    Analyze the following habit journal entries from the last 7 days and provide:"
    + "\n    1. A short, supportive summary of the user's current mental state and habits."
    + "\n    2. Three actionable suggestions for improvement based on their 'things to improve' and 'new learnings'."
    + "\n    3. A personalized daily affirmation."
    + "\n\n    Entries:\n    "
  const PROMPT_TAIL := "\n  "

  /** The entries analysed: the last seven appended, in the order they were
      added. */
  function AnalysisWindow(entries: seq<HabitEntry>): (r: seq<HabitEntry>)
    ensures |r| == Min(WINDOW_SIZE, |entries|)
    ensures r == entries[|entries| - |r|..]
  {
    Last(entries, WINDOW_SIZE)
  }

  /** The prompt block of one entry. `showReal` is the engine's conversion
      of a number to text, used for the screen time. */
  function EntryBlock(e: HabitEntry, showReal: real -> string): string
  {
    "\n      Date: " + IsoDate(e.date)
    + "\n      Mood Score: " + IntText(e.moodScore) + "/10"
    + "\n      Happy: " + e.happyReason
    + "\n      Anger: " + e.angerReason
    + "\n      Improvement Focus: " + e.thingsToImprove
    + "\n      Screen Time: " + showReal(e.screenTime) + "h"
    + "\n      Learnings: " + e.newLearnings
    + "\n    "
  }

  /** One block per window entry, in window order. */
  function Blocks(window: seq<HabitEntry>, showReal: real -> string): (r: seq<string>)
    ensures |r| == |window|
  {
    if window == [] then [] else [EntryBlock(window[0], showReal)] + Blocks(window[1..], showReal)
  }

  lemma {:induction false} BlockAt(window: seq<HabitEntry>, showReal: real -> string, k: nat)
    requires k < |window|
    ensures Blocks(window, showReal)[k] == EntryBlock(window[k], showReal)
  {
    if k > 0 {
      BlockAt(window[1..], showReal, k - 1);
    }
  }

  /** The blocks of the analysis window. */
  function WindowBlocks(entries: seq<HabitEntry>, showReal: real -> string): (r: seq<string>)
    ensures |r| == |AnalysisWindow(entries)|
  {
    Blocks(AnalysisWindow(entries), showReal)
  }

  /** The entry part of the prompt: the blocks joined by newlines. */
  function PromptBody(entries: seq<HabitEntry>, showReal: real -> string): string
  {
    Join(WindowBlocks(entries, showReal), "\n")
  }

  /** The full prompt: the instructions, then the entry part. */
  function Prompt(entries: seq<HabitEntry>, showReal: real -> string): string
  {
    PROMPT_HEAD + PromptBody(entries, showReal) + PROMPT_TAIL
  }

  /** Where the block of window entry `i` starts in the entry part. */
  function BlockOffset(entries: seq<HabitEntry>, showReal: real -> string, i: nat): nat
    requires i <= |AnalysisWindow(entries)|
  {
    JoinOffset(WindowBlocks(entries, showReal), "\n", i)
  }

  /** Every window entry's block occurs whole in the entry part of the
      prompt, and each block ends before the next one starts. */
  lemma PromptHoldsBlocksInOrder(entries: seq<HabitEntry>, showReal: real -> string, i: nat)
    requires i < |AnalysisWindow(entries)|
    ensures BlockOffset(entries, showReal, i) + |WindowBlocks(entries, showReal)[i]| <= |PromptBody(entries, showReal)|
    ensures PromptBody(entries, showReal)[BlockOffset(entries, showReal, i)..
              BlockOffset(entries, showReal, i) + |WindowBlocks(entries, showReal)[i]|]
            == WindowBlocks(entries, showReal)[i]
    ensures i + 1 < |AnalysisWindow(entries)| ==>
              BlockOffset(entries, showReal, i) + |WindowBlocks(entries, showReal)[i]|
              < BlockOffset(entries, showReal, i + 1)
  {
    var blocks := WindowBlocks(entries, showReal);
    JoinAt(blocks, "\n", i);
  }

  /** What the completion call does: it throws (network, quota, schema),
      or answers with a reply whose text may be absent. */
  datatype Reply = CallThrew | Answered(text: Option<string>)

  /** What `JSON.parse` does with the reply text. */
  datatype Parsed = ParseThrew | ParsedValue(value: AIInsight)

  /** The promise `getAIInsights` returns: it resolves with an insight, or
      rejects when the client cannot be constructed (outside the `try`). */
  datatype Outcome = Resolved(insight: AIInsight) | Rejected

  /** `response.text || "{}"`: an absent or empty text is read as `{}`. */
  function ReplyText(text: Option<string>): (r: string)
    ensures r != ""
    ensures text.Some? && text.value != "" ==> r == text.value
    ensures text.None? || text.value == "" ==> r == "{}"
  {
    if text.Some? && text.value != "" then text.value else "{}"
  }

  /** The whole request. `clientConstructed` says whether constructing the
      client succeeded. */
  function GetAIInsights(entries: seq<HabitEntry>, clientConstructed: bool, showReal: real -> string,
                         generate: string -> Reply, parse: string -> Parsed): (r: Outcome)
    ensures r.Rejected? <==> !clientConstructed
  {
    if !clientConstructed then Rejected
    else
      match generate(Prompt(entries, showReal))
      case CallThrew => Resolved(FALLBACK)
      case Answered(text) =>
        match parse(ReplyText(text))
        case ParseThrew => Resolved(FALLBACK)
        case ParsedValue(v) => Resolved(v)
  }

  /** A failing call or parse yields the fallback word for word, with its
      three suggestions in order. */
  lemma FailureGivesFallback(entries: seq<HabitEntry>, showReal: real -> string, prompt: string,
                             generate: string -> Reply, parse: string -> Parsed)
    requires prompt == Prompt(entries, showReal)
    requires generate(prompt).CallThrew? || parse(ReplyText(generate(prompt).text)).ParseThrew?
    ensures GetAIInsights(entries, true, showReal, generate, parse) == Resolved(FALLBACK)
    ensures FALLBACK.summary == "I'm having trouble analyzing your entries right now, but keep up the great work of journaling!"
    ensures FALLBACK.suggestions
            == ["Stay consistent with your daily log", "Reflect on your small wins", "Ensure you get enough rest"]
    ensures FALLBACK.affirmation == "You are making progress every single day."
  {
  }

  /** A reply that parses is returned as parsed: the number of suggestions
      is not checked. An absent or empty reply text is parsed as `{}`. */
  lemma SuccessReturnsParsed(entries: seq<HabitEntry>, showReal: real -> string, prompt: string,
                             generate: string -> Reply, parse: string -> Parsed, v: AIInsight)
    requires prompt == Prompt(entries, showReal)
    requires generate(prompt).Answered?
    requires parse(ReplyText(generate(prompt).text)) == ParsedValue(v)
    ensures GetAIInsights(entries, true, showReal, generate, parse) == Resolved(v)
  {
  }
}
