/** The AI insights screen (components/InsightsView.tsx): a `loading` flag
    and the last insight, updated around one request, and the choice of
    what the screen shows. */
module InsightsView {
  import opened Types
  import opened GeminiService

  /** Fewer entries than this and the screen stays locked. */
  const MIN_ENTRIES: nat := 3

  /** What the screen shows below its header. */
  datatype Screen = Locked | Spinner | InsightCards(insight: AIInsight) | Blank

  /** The render choice: locked with fewer than three entries, else the
      spinner while loading, else the cards when there is an insight. */
  function SelectScreen(entryCount: nat, loading: bool, insight: Option<AIInsight>): (s: Screen)
    ensures s == Locked <==> entryCount < MIN_ENTRIES
    ensures s == Spinner <==> entryCount >= MIN_ENTRIES && loading
    ensures s.InsightCards? <==> entryCount >= MIN_ENTRIES && !loading && insight.Some?
    ensures s.InsightCards? ==> s.insight == insight.value
    ensures s == Blank <==> entryCount >= MIN_ENTRIES && !loading && insight.None?
  {
    if entryCount < MIN_ENTRIES then Locked
    else if loading then Spinner
    else if insight.Some? then InsightCards(insight.value)
    else Blank
  }

  /** The `try`/`catch` around the request: a resolved insight replaces the
      old one, a rejection keeps it. */
  function Settle(previous: Option<AIInsight>, outcome: Outcome): (r: Option<AIInsight>)
    ensures outcome.Resolved? ==> r == Some(outcome.insight)
    ensures outcome.Rejected? ==> r == previous
  {
    match outcome
    case Resolved(v) => Some(v)
    case Rejected => previous
  }

  /** The suggestions as rendered: numbered from `start` in order. */
  function NumberedFrom(tips: seq<string>, start: nat): (r: seq<(nat, string)>)
    ensures |r| == |tips|
    ensures forall i :: 0 <= i < |r| ==> r[i] == (start + i, tips[i])
  {
    if tips == [] then [] else [(start, tips[0])] + NumberedFrom(tips[1..], start + 1)
  }

  /** The growth tips list: suggestion `i` is shown with the number `i + 1`,
      however many suggestions there are. */
  function NumberedTips(tips: seq<string>): (r: seq<(nat, string)>)
    ensures |r| == |tips|
    ensures forall i :: 0 <= i < |r| ==> r[i].0 == i + 1 && r[i].1 == tips[i]
  {
    NumberedFrom(tips, 1)
  }

  class InsightsView {
    var insight: Option<AIInsight>
    var loading: bool

    constructor ()
      ensures insight == None && !loading
    {
      insight := None;
      loading := false;
    }

    /** The refresh button is enabled only while no request is in flight. */
    function RefreshEnabled(): bool
      reads this
    {
      !loading
    }

    function Shown(entryCount: nat): Screen
      reads this
    {
      SelectScreen(entryCount, loading, insight)
    }

    /** First half of `fetchInsights`: with fewer than three entries it
      returns at once; otherwise it raises `loading` before the call. */
    method BeginFetch(entryCount: nat) returns (started: bool)
      modifies this
      ensures started <==> entryCount >= MIN_ENTRIES
      ensures insight == old(insight)
      ensures loading == if started then true else old(loading)
      ensures started ==> Shown(entryCount) == Spinner && !RefreshEnabled()
    {
      if entryCount < MIN_ENTRIES {
        return false;
      }
      loading := true;
      started := true;
    }

    /** Second half: record the outcome, and in every case lower `loading`. */
    method EndFetch(outcome: Outcome)
      requires loading
      modifies this
      ensures insight == Settle(old(insight), outcome)
      ensures !loading
    {
      match outcome {
        case Resolved(v) =>
          insight := Some(v);
        case Rejected =>
      }
      loading := false;
    }

    /** `fetchInsights`: the gate, then the request with `loading` raised
      around it. */
    method FetchInsights(entries: seq<HabitEntry>, clientConstructed: bool, showReal: real -> string,
                         generate: string -> Reply, parse: string -> Parsed)
      modifies this
      ensures |entries| < MIN_ENTRIES ==> insight == old(insight) && loading == old(loading)
      ensures |entries| >= MIN_ENTRIES ==>
                !loading
                && insight == Settle(old(insight), GetAIInsights(entries, clientConstructed, showReal, generate, parse))
    {
      var started := BeginFetch(|entries|);
      if started {
        var outcome := GetAIInsights(entries, clientConstructed, showReal, generate, parse);
        EndFetch(outcome);
      }
    }
  }

  /** After a request on three or more entries the screen shows cards: the
      parsed insight, the fallback after a failed call, or the previous
      insight after a rejection. */
  lemma ShownAfterFetch(entries: seq<HabitEntry>, previous: Option<AIInsight>, clientConstructed: bool,
                        showReal: real -> string, generate: string -> Reply, parse: string -> Parsed)
    requires |entries| >= MIN_ENTRIES
    ensures var s := SelectScreen(|entries|, false,
                       Settle(previous, GetAIInsights(entries, clientConstructed, showReal, generate, parse)));
            (clientConstructed && generate(Prompt(entries, showReal)).CallThrew? ==> s == InsightCards(FALLBACK))
            && (!clientConstructed ==> s == if previous.Some? then InsightCards(previous.value) else Blank)
            && (clientConstructed ==> s.InsightCards?)
  {
    if clientConstructed && generate(Prompt(entries, showReal)).CallThrew? {
      FailureGivesFallback(entries, showReal, Prompt(entries, showReal), generate, parse);
    }
  }
}
