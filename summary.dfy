/** `GeminiSuggestions`: fetches a freshly generated summary whenever the
    credential changes and shows it. */
module Summary {
  import opened Wrappers
  import opened Api

  const SummaryError := "Could not load summary."
  const NoSummary := "No summary available."

  datatype Screen = Loading | ErrorShown(message: string) | SummaryShown(text: string)

  /** The render: the loading text first, then a non-empty error, then the
      summary, or the fallback text for a missing or empty summary. */
  function Display(loading: bool, error: string, summary: Option<string>): (d: Screen)
    ensures loading <==> d == Loading
    ensures !loading && error != "" ==> d == ErrorShown(error)
    ensures d.SummaryShown? <==> !loading && error == ""
    ensures d.SummaryShown? && summary.Some? && summary.value != "" ==> d.text == summary.value
    ensures d.SummaryShown? && (summary.None? || summary.value == "") ==> d.text == NoSummary
    ensures d.SummaryShown? ==> d.text != ""
  {
    if loading then Loading
    else if error != "" then ErrorShown(error)
    else if summary.Some? && summary.value != "" then SummaryShown(summary.value)
    else SummaryShown(NoSummary)
  }

  class GeminiSuggestions {
    /** `None` once a response without a `summary` key was stored. */
    var summary: Option<string>
    var loading: bool
    var error: string

    constructor ()
      ensures summary == Some("") && loading && error == ""
    {
      summary := Some("");
      loading := true;
      error := "";
    }

    /** What the panel currently shows. */
    function Screen(): Screen
      reads this
    {
      Display(loading, error, summary)
    }

    /** The synchronous start of `fetchSummary`. */
    method BeginFetch()
      modifies this`loading, this`error
      ensures loading && error == ""
      ensures Screen() == Loading
    {
      loading := true;
      error := "";
    }

    /** The rest of `fetchSummary`: the summary on success, the fixed error
        otherwise (a missing credential throws inside the `try`), the summary
        kept on failure, and `loading` cleared either way. */
    method FinishFetch(tokens: Option<Tokens>, reply: Axios<SummaryReply>)
      modifies this`summary, this`loading, this`error
      ensures !loading
      ensures tokens.Some? && reply.Succeeded? ==> summary == reply.data.summary && error == old(error)
      ensures tokens.None? || reply.Failed? ==> summary == old(summary) && error == SummaryError
    {
      if tokens.Some? && reply.Succeeded? {
        summary := reply.data.summary;
      } else {
        error := SummaryError;
      }
      loading := false;
    }

    /** One whole `fetchSummary` run. */
    method FetchSummary(tokens: Option<Tokens>, reply: Axios<SummaryReply>)
      modifies this`summary, this`loading, this`error
      ensures !loading
      ensures tokens.Some? && reply.Succeeded? ==> summary == reply.data.summary && error == ""
      ensures tokens.None? || reply.Failed? ==> summary == old(summary) && error == SummaryError
      ensures Screen() != Loading
      ensures tokens.Some? && reply.Succeeded? ==> Screen().SummaryShown?
      ensures tokens.None? || reply.Failed? ==> Screen() == ErrorShown(SummaryError)
    {
      BeginFetch();
      FinishFetch(tokens, reply);
    }
  }
}
