/** `CommunicationImprovements`: fetches the latest improvement scores
    whenever the credential changes and shows them as bars. */
module Scores {
  import opened Wrappers
  import opened Api

  const ScoresError := "Could not load scores."

  /** What the panel shows below its heading. */
  datatype Screen = Loading | ErrorShown(message: string) | Bars(scores: map<string, real>) | Empty

  /** `!scores || Object.keys(scores).length === 0`: nothing to draw. */
  predicate NoBars(scores: Option<map<string, real>>) {
    scores.None? || |scores.value| == 0
  }

  /** The render: the loading text first, then a non-empty error, then one
      bar per score, and nothing at all when there are no scores. */
  function Display(loading: bool, error: string, scores: Option<map<string, real>>): (d: Screen)
    ensures loading <==> d == Loading
    ensures !loading && error != "" ==> d == ErrorShown(error)
    ensures d.Bars? <==> !loading && error == "" && !NoBars(scores)
    ensures d.Bars? ==> d.scores == scores.value && d.scores != map[]
    ensures d == Empty <==> !loading && error == "" && NoBars(scores)
  {
    if loading then Loading
    else if error != "" then ErrorShown(error)
    else if NoBars(scores) then Empty
    else Bars(scores.value)
  }

  class CommunicationImprovements {
    /** `None` once a response without a `scores` key was stored. */
    var scores: Option<map<string, real>>
    var loading: bool
    var error: string

    constructor ()
      ensures scores == Some(map[]) && loading && error == ""
    {
      scores := Some(map[]);
      loading := true;
      error := "";
    }

    /** What the panel currently shows. */
    function Screen(): Screen
      reads this
    {
      Display(loading, error, scores)
    }

    /** The synchronous start of `fetchScores`. */
    method BeginFetch()
      modifies this`loading, this`error
      ensures loading && error == ""
      ensures Screen() == Loading
    {
      loading := true;
      error := "";
    }

    /** The rest of `fetchScores`, once the request settled. Reading
        `authTokens.access` without a credential throws inside the `try`, so
        that case ends like a failed request. `finally` clears `loading`. */
    method FinishFetch(tokens: Option<Tokens>, reply: Axios<ScoresReply>)
      modifies this`scores, this`loading, this`error
      ensures !loading
      ensures tokens.Some? && reply.Succeeded? ==> scores == reply.data.scores && error == old(error)
      ensures tokens.None? || reply.Failed? ==> scores == old(scores) && error == ScoresError
    {
      if tokens.Some? && reply.Succeeded? {
        scores := reply.data.scores;
      } else {
        error := ScoresError;
      }
      loading := false;
    }

    /** One whole `fetchScores` run. */
    method FetchScores(tokens: Option<Tokens>, reply: Axios<ScoresReply>)
      modifies this`scores, this`loading, this`error
      ensures !loading
      ensures tokens.Some? && reply.Succeeded? ==> scores == reply.data.scores && error == ""
      ensures tokens.None? || reply.Failed? ==> scores == old(scores) && error == ScoresError
      ensures Screen() != Loading
      ensures tokens.None? || reply.Failed? ==> Screen() == ErrorShown(ScoresError)
    {
      BeginFetch();
      FinishFetch(tokens, reply);
    }
  }
}
