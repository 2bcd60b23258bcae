/** What the client's analysis request means to the server that receives it,
    and the end-to-end scenarios of the main page. */
module Integration {
  import opened Wrappers
  import opened Api
  import opened AuthContext
  import opened Pipeline
  import Views

  /** The Analyze button is enabled exactly when the server will accept the
      request's text rather than answer 400. */
  lemma AnalyzeEnabledIffAccepted(p: TranscribeAndAnalyze)
    ensures !AnalyzeDisabled(p.transcription) <==> Views.HasText(p.AnalyzeRequest())
  {
  }

  /** Without an identity the client asks not to save, so the server inserts
      no session whether or not it authenticates the caller's token. */
  lemma AnonymousAnalysisNeverSaved(p: TranscribeAndAnalyze, requester: Option<int>, primary: Option<string>, fallback: Option<string>)
    requires p.auth.user.None?
    ensures Views.AnalyzeText(p.AnalyzeRequest(), requester, primary, fallback).insert.None?
  {
    assert p.AnalyzeRequest().save == Some("false");
  }

  /** With an identity, an accepted request from a caller the server
      authenticates is saved, with the client's transcription and context,
      unless both models raised. */
  lemma SignedInAnalysisSaved(p: TranscribeAndAnalyze, requester: int, primary: Option<string>, fallback: Option<string>)
    requires p.auth.user.Some? && !AnalyzeDisabled(p.transcription)
    ensures var r := Views.AnalyzeText(p.AnalyzeRequest(), Some(requester), primary, fallback);
      (r.insert.Some? <==> primary.Some? || fallback.Some?) &&
      (r.insert.Some? ==>
        r.insert.value.transcription == p.transcription.value &&
        r.insert.value.context == ContextObject(p.listener, p.situation, p.speakerTrait, p.topicPriority))
  {
    assert p.AnalyzeRequest().save == Some("true");
  }

  /** The client always sends all four context keys, so the server's "N/A"
      defaults never apply to its requests: empty inputs reach the prompt as
      empty strings. */
  lemma ClientContextBypassesDefaults(p: TranscribeAndAnalyze)
    ensures Views.ContextHeader(p.AnalyzeRequest()) ==
      Views.PromptHeader(p.speakerTrait, p.listener, p.situation, p.topicPriority)
  {
    var c := ContextObject(p.listener, p.situation, p.speakerTrait, p.topicPriority);
    assert Views.ContextField(c, "speaker_trait") == p.speakerTrait;
    assert Views.ContextField(c, "listener") == p.listener;
    assert Views.ContextField(c, "situation") == p.situation;
    assert Views.ContextField(c, "topic_priority") == p.topicPriority;
  }

  /** When a model answered, the server's source is never empty, so the
      client shows it as sent and never falls back to the default label. */
  lemma ShownSourceIsServerSource(data: AnalyzeData, requester: Option<int>, primary: Option<string>, fallback: Option<string>)
    requires Views.HasText(data)
    ensures var body := Views.AnalyzeText(data, requester, primary, fallback).response.body;
      body.AnalysisBody? <==> primary.Some? || fallback.Some?
    ensures var body := Views.AnalyzeText(data, requester, primary, fallback).response.body;
      body.AnalysisBody? ==>
      AnalysisText(AnalyzeReply(Some(body.analysis), Some(body.source))) ==
        body.analysis + SourceSuffix(if primary.Some? then "gemini" else "local_llm")
  {
    var body := Views.AnalyzeText(data, requester, primary, fallback).response.body;
    if body.AnalysisBody? {
      var source := if primary.Some? then Views.Gemini else Views.LocalLlm;
      assert body.source == source;
      assert source != "";
      assert SourceLabel(Some(source)) == source;
    }
  }

  /** An anonymous user uploads a file, transcribes it and asks
      for an analysis with an empty context. */
  method ScenarioAnonymous(speech: AudioFile)
  {
    var auth := new AuthProvider(map[]);
    var page := new TranscribeAndAnalyze(auth);
    page.HandleFileChange([speech]);
    assert !TranscribeDisabled(page.audio);
    var sent := page.HandleTranscribe(Answered(true, Some(TranscribeReply(Some("hello world")))));
    assert sent == Some(speech) && page.transcription == Some("hello world");
    var request, authorization, refreshed :=
      page.HandleAnalyze(Answered(true, Some(AnalyzeReply(Some("Good pacing"), Some("gemini")))), Thrown);
    assert request.save == Some("false") && authorization == None && !refreshed;
    assert page.analysis == "Good pacing\n\n(Source: gemini)";
  }

  /** A signed-in user does the same; the request carries the
      bearer token and asks to save, and the session list is refreshed. */
  method ScenarioSignedIn(speech: AudioFile, tokens: Tokens, alice: User, saved: seq<SessionRecord>)
  {
    var auth := new AuthProvider(map[TokensKey := tokens]);
    var _ := auth.LookupIdentity(Answered(true, Some(alice)));
    var page := new TranscribeAndAnalyze(auth);
    page.HandleFileChange([speech]);
    var _ := page.HandleTranscribe(Answered(true, Some(TranscribeReply(Some("hello world")))));
    var request, authorization, refreshed :=
      page.HandleAnalyze(Answered(true, Some(AnalyzeReply(Some("Good pacing"), Some("gemini")))),
                         Answered(true, Some(saved)));
    assert request.save == Some("true") && authorization == Some("Bearer " + tokens.access);
    assert refreshed && page.sessions == saved;
  }

  /** A rejected login leaves an anonymous provider anonymous. */
  method ScenarioWrongPassword(name: string, password: string)
  {
    var auth := new AuthProvider(map[]);
    var result, _ := auth.LoginUser(name, password, Answered(false, None));
    assert result == Resolved(false) && auth.authTokens == None && auth.user == None;
  }

  /** An unreachable transcription service stores the failure
      text, which enables Analyze, and the server accepts that text. */
  method ScenarioTranscriptionDown(speech: AudioFile)
  {
    var auth := new AuthProvider(map[]);
    var page := new TranscribeAndAnalyze(auth);
    page.HandleFileChange([speech]);
    var _ := page.HandleTranscribe(Thrown);
    assert page.transcription == Some(TranscriptionFailed);
    assert !TranscribeDisabled(page.audio) && !AnalyzeDisabled(page.transcription);
    AnalyzeEnabledIffAccepted(page);
    assert Views.HasText(page.AnalyzeRequest());
  }

  /** Logging out clears the identity, so the session refresh that follows
      empties the list without a request. */
  method ScenarioLogout(tokens: Tokens, alice: User, saved: seq<SessionRecord>)
  {
    var auth := new AuthProvider(map[TokensKey := tokens]);
    var _ := auth.LookupIdentity(Answered(true, Some(alice)));
    var page := new TranscribeAndAnalyze(auth);
    var requested := page.FetchSessions(Answered(true, Some(saved)));
    assert requested && page.sessions == saved;
    var target := auth.LogoutUser();
    assert TokensKey !in auth.storage && target == "/";
    requested := page.FetchSessions(Answered(true, Some(saved)));
    assert !requested && page.sessions == [];
  }
}
