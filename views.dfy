/** The request handling of the Django views: `analyze_text`,
    `generate_improvements`, `get_improvements` and `profile_view`. The
    model calls and the database are abstract: a model call is a parameter
    (`Some(text)` when it answered, `None` when it raised), and the database
    is a class holding the rows the views insert and read. */
module Views {
  import opened Wrappers
  import opened Api
  import opened Text
  import opened Helpers

  const NotApplicable := "N/A"
  /** The opening sentence of the prompt. */
  const Intro := "\n    You are a communication coach. Evaluate the following speech based on the provided context.\n\n"
  const NoText := "No text provided"
  const Closing := "Keep the response helpful and clear."
  const NotEnoughData := "Not enough data to analyze"
  const ModelUnavailable := "Not enough data or model unavailable."
  const NoImprovements := "No improvement data yet"
  const Gemini := "gemini"
  const LocalLlm := "local_llm"

  datatype Body =
    | ErrorBody(error: string)
    | MessageBody(message: string)
    | AnalysisBody(analysis: string, source: string)
    | ImprovementBody(summary: string, scores: map<string, real>)
    | LatestBody(summary: string, clarity: real, emotion: real, pacing: real)
    | ProfileBody(userId: Option<int>, bio: Option<string>, avatarUrl: Option<string>)
    /** The framework's own answer to an exception the view does not catch. */
    | ServerErrorBody

  datatype Response = Response(status: int, body: Body)

  /** A row of `speech_sessions`. */
  datatype SessionRow = SessionRow(userId: int, transcription: string, analysis: string, context: Context)
  /** A row of `user_improvements`. */
  datatype ImprovementRow = ImprovementRow(userId: int, summary: string, scores: map<string, real>)
  /** A row of `user_profiles`; either column may be NULL. */
  datatype ProfileRow = ProfileRow(bio: Option<string>, avatarUrl: Option<string>)

  // ---------------------------------------------------------------- analyze_text

  /** `context.get(key, 'N/A')`. */
  function ContextField(context: Context, key: string): string
  {
    if key in context then context[key] else NotApplicable
  }

  /** The f-string the prompt starts from. */
  function PromptHeader(speakerTrait: string, listener: string, situation: string, topicPriority: string): string
  {
    Intro + "    - Speaker Traits: " + speakerTrait + "\n" +
    "    - Listener Type: " + listener + "\n" +
    "    - Situation: " + situation + "\n" +
    "    - Priority Topics: " + topicPriority + "\n    "
  }

  /** The line `prompt +=` adds for a (stripped) feedback type; none when it
      is empty. */
  function TypeLine(feedbackType: string): (line: string)
    ensures line == "" <==> feedbackType == ""
  {
    if feedbackType == "" then "" else "Give " + Lower(feedbackType) + " feedback.\n"
  }

  /** The line `prompt +=` adds for a (stripped) feedback goal. */
  function GoalLine(feedbackGoal: string): (line: string)
    ensures line == "" <==> feedbackGoal == ""
  {
    if feedbackGoal == "" then "" else "Focus especially on " + Lower(feedbackGoal) + ".\n"
  }

  /** `request.data.get('feedback_type', '').strip()` and its goal twin. */
  function StrippedField(field: Option<string>): string
  {
    Strip(field.GetOr(""))
  }

  /** The f-string header for the request's context, each missing key read
      as "N/A". */
  function ContextHeader(data: AnalyzeData): string
  {
    var context := data.context.GetOr(map[]);
    PromptHeader(ContextField(context, "speaker_trait"), ContextField(context, "listener"),
                 ContextField(context, "situation"), ContextField(context, "topic_priority"))
  }

  /** The prompt `analyze_text` sends to the primary model, grown by `+=`. */
  function AnalysisPrompt(data: AnalyzeData): string
  {
    var prompt := ContextHeader(data);
    var prompt := prompt + TypeLine(StrippedField(data.feedbackType));
    var prompt := prompt + GoalLine(StrippedField(data.feedbackGoal));
    prompt + Closing
  }

  /** `if not text`: a missing or empty text is refused. */
  predicate HasText(data: AnalyzeData) {
    data.text.Some? && data.text.value != ""
  }

  /** What `analyze_text` decides: its response, the prompt it sent to the
      primary model (if any), and the session row it inserts (if any). */
  datatype Analysis = Analysis(response: Response, prompt: Option<string>, insert: Option<SessionRow>)

  /** `analyze_text`. `requester` is the id of an authenticated caller;
      `primary` is the primary model's answer (`None` when it raised), and
      `fallback` what the local model produces when the primary one raised
      (`None` when it raised too, which the view does not catch). */
  function AnalyzeText(data: AnalyzeData, requester: Option<int>, primary: Option<string>, fallback: Option<string>): (r: Analysis)
    ensures !HasText(data) ==>
      r.response == Response(400, ErrorBody(NoText)) && r.prompt.None? && r.insert.None?
    ensures HasText(data) ==> r.prompt == Some(AnalysisPrompt(data))
    ensures HasText(data) ==> (r.response.status == 200 <==> primary.Some? || fallback.Some?)
    ensures HasText(data) && primary.Some? ==> r.response.body == AnalysisBody(primary.value, Gemini)
    ensures HasText(data) && primary.None? && fallback.Some? ==> r.response.body == AnalysisBody(fallback.value, LocalLlm)
    ensures HasText(data) && primary.None? && fallback.None? ==>
      r.response == Response(500, ServerErrorBody) && r.insert.None?
    ensures r.insert.Some? <==>
      HasText(data) && (primary.Some? || fallback.Some?) && requester.Some? && data.save.GetOr("false") == "true"
    ensures r.insert.Some? ==> (r.response.body.AnalysisBody? &&
      r.insert.value == SessionRow(requester.value, data.text.value, r.response.body.analysis, data.context.GetOr(map[])))
  {
    if !HasText(data) then
      Analysis(Response(400, ErrorBody(NoText)), None, None)
    else
      var prompt := AnalysisPrompt(data);
      if primary.None? && fallback.None? then
        Analysis(Response(500, ServerErrorBody), Some(prompt), None)
      else
        var analysis := if primary.Some? then primary.value else fallback.value;
        var source := if primary.Some? then Gemini else LocalLlm;
        var save := requester.Some? && data.save.GetOr("false") == "true";
        var row := if save then Some(SessionRow(requester.value, data.text.value, analysis, data.context.GetOr(map[]))) else None;
        Analysis(Response(200, AnalysisBody(analysis, source)), Some(prompt), row)
  }

  /** The prompt starts with the header for the context and ends with the
      closing sentence; between them sit the two feedback lines. */
  lemma PromptLayout(data: AnalyzeData)
    ensures var header := ContextHeader(data);
      var t := TypeLine(StrippedField(data.feedbackType));
      var g := GoalLine(StrippedField(data.feedbackGoal));
      var p := AnalysisPrompt(data);
      |p| == |header| + |t| + |g| + |Closing| &&
      p[..|header|] == header &&
      p[|p| - |Closing|..] == Closing
  {
    ConcatSlices(AnalysisPrompt(data), ContextHeader(data), TypeLine(StrippedField(data.feedbackType)),
                 GoalLine(StrippedField(data.feedbackGoal)), Closing);
  }

  /** After the header come the type line, then the goal line, then the
      closing sentence. */
  lemma PromptFeedbackOrder(data: AnalyzeData)
    ensures var header := ContextHeader(data);
      var t := TypeLine(StrippedField(data.feedbackType));
      var g := GoalLine(StrippedField(data.feedbackGoal));
      AnalysisPrompt(data)[|header|..] == t + g + Closing
  {
    ConcatSlices(AnalysisPrompt(data), ContextHeader(data), TypeLine(StrippedField(data.feedbackType)),
                 GoalLine(StrippedField(data.feedbackGoal)), Closing);
  }

  /** Each feedback line is added exactly when its field is present and not
      blank. */
  lemma FeedbackLinesIffNotBlank(data: AnalyzeData)
    ensures TypeLine(StrippedField(data.feedbackType)) != "" <==> !IsBlank(data.feedbackType.GetOr(""))
    ensures GoalLine(StrippedField(data.feedbackGoal)) != "" <==> !IsBlank(data.feedbackGoal.GetOr(""))
  {
    StripEmptyIffBlank(data.feedbackType.GetOr(""));
    StripEmptyIffBlank(data.feedbackGoal.GetOr(""));
  }

  /** Where each of four concatenated strings sits in the result. */
  lemma ConcatSlices(p: string, a: string, b: string, c: string, d: string)
    requires p == a + b + c + d
    ensures |p| == |a| + |b| + |c| + |d| &&
      p[..|a|] == a && p[|a|..] == b + c + d && p[|p| - |d|..] == d
  {
    assert p == a + (b + c + d);
  }

  /** A blank feedback type adds no line: the prompt is the one built without
      the field. */
  lemma BlankFeedbackTypeIgnored(data: AnalyzeData, blank: string)
    requires IsBlank(blank)
    ensures AnalysisPrompt(data.(feedbackType := Some(blank))) == AnalysisPrompt(data.(feedbackType := None))
  {
    StripEmptyIffBlank(blank);
  }

  /** The feedback words enter the prompt lower-cased, so their case does not
      matter. */
  lemma FeedbackCaseIgnored(data: AnalyzeData, a: string, b: string)
    requires Lower(Strip(a)) == Lower(Strip(b))
    ensures AnalysisPrompt(data.(feedbackType := Some(a))) == AnalysisPrompt(data.(feedbackType := Some(b)))
    ensures AnalysisPrompt(data.(feedbackGoal := Some(a))) == AnalysisPrompt(data.(feedbackGoal := Some(b)))
  {
  }

  /** "N/A" stands in for a context key only when the key is absent (or holds
      "N/A" itself): an empty value is used as it is. */
  lemma DefaultOnlyForMissingKey(context: Context, key: string)
    ensures ContextField(context, key) == NotApplicable <==> key !in context || context[key] == NotApplicable
    ensures key in context ==> ContextField(context, key) == context[key]
  {
  }

  // -------------------------------------------------------- generate_improvements

  /** The scores saved when the model answered, and when it raised. */
  const ModelScores: map<string, real> := map["clarity" := 4.1, "emotion" := 3.9, "pacing" := 4.3, "structure" := 4.0]
  const ZeroScores: map<string, real> := map["clarity" := 0.0, "emotion" := 0.0, "pacing" := 0.0, "structure" := 0.0]

  /** What `generate_improvements` decides for a user whose saved
      transcriptions, newest first, are `transcriptions`. */
  datatype Improvement = Improvement(response: Response, prompt: Option<string>, insert: Option<ImprovementRow>)

  function GenerateImprovements(userId: int, transcriptions: seq<string>, primary: Option<string>): (r: Improvement)
    ensures transcriptions == [] ==>
      r.response == Response(400, ErrorBody(NotEnoughData)) && r.prompt.None? && r.insert.None?
    ensures transcriptions != [] ==>
      r.prompt.Some? && |r.prompt.value| >= |Head| + |Tail| &&
      r.prompt.value[..|Head|] == Head && r.prompt.value[|r.prompt.value| - |Tail|..] == Tail &&
      Embedded(r.prompt.value) == Join(transcriptions, Separator)
    ensures transcriptions != [] && primary.Some? ==>
      r.insert == Some(ImprovementRow(userId, primary.value, ModelScores))
    ensures transcriptions != [] && primary.None? ==>
      r.insert == Some(ImprovementRow(userId, ModelUnavailable, ZeroScores))
    ensures r.insert.Some? ==>
      r.response == Response(200, ImprovementBody(r.insert.value.summary, r.insert.value.scores))
  {
    if transcriptions == [] then
      Improvement(Response(400, ErrorBody(NotEnoughData)), None, None)
    else
      var sessions := seq(|transcriptions|, i requires 0 <= i < |transcriptions| => SessionText(transcriptions[i]));
      assert Transcriptions(sessions) == transcriptions;
      var prompt := ImprovementPrompt(sessions);
      EmbeddedRoundTrip(sessions);
      var summary := if primary.Some? then primary.value else ModelUnavailable;
      var scores := if primary.Some? then ModelScores else ZeroScores;
      Improvement(Response(200, ImprovementBody(summary, scores)), Some(prompt),
                  Some(ImprovementRow(userId, summary, scores)))
  }

  /** When the model raised, every score saved and returned is zero. */
  lemma FailedModelScoresZero(userId: int, transcriptions: seq<string>)
    requires transcriptions != []
    ensures var r := GenerateImprovements(userId, transcriptions, None);
      r.insert.Some? && r.insert.value.scores.Keys == ModelScores.Keys &&
      forall k :: k in r.insert.value.scores ==> r.insert.value.scores[k] == 0.0
  {
  }

  // ------------------------------------------------------------- database reads

  /** `scores.get(key, 0)`. */
  function ScoreOr(scores: map<string, real>, key: string): (score: real)
    ensures key in scores ==> score == scores[key]
    ensures key !in scores ==> score == 0.0
  {
    if key in scores then scores[key] else 0.0
  }

  /** The rows of `userId`, newest first (rows are kept in insertion order,
      which `ORDER BY created_at DESC` reverses). */
  function NewestFirst<R>(rows: seq<R>, owner: R -> int, userId: int): (r: seq<R>)
    ensures |r| <= |rows|
    ensures forall i :: 0 <= i < |r| ==> owner(r[i]) == userId && r[i] in rows
    ensures r == [] <==> forall i :: 0 <= i < |rows| ==> owner(rows[i]) != userId
  {
    if rows == [] then []
    else
      var last := rows[|rows| - 1];
      var rest := NewestFirst(rows[..|rows| - 1], owner, userId);
      assert forall i :: 0 <= i < |rows| - 1 ==> rows[..|rows| - 1][i] == rows[i];
      if owner(last) == userId then [last] + rest else rest
  }

  /** A newly inserted row of the user is the first one read back. */
  lemma NewestFirstAfterInsert<R>(rows: seq<R>, row: R, owner: R -> int, userId: int)
    ensures NewestFirst(rows + [row], owner, userId) ==
      (if owner(row) == userId then [row] else []) + NewestFirst(rows, owner, userId)
  {
    assert (rows + [row])[..|rows|] == rows;
  }

  /** Rows inserted later are read before rows inserted earlier, and every
      row of the user is read: the query over two batches is the later
      batch's rows followed by the earlier batch's. */
  lemma {:induction false} NewestFirstConcat<R>(a: seq<R>, b: seq<R>, owner: R -> int, userId: int)
    ensures NewestFirst(a + b, owner, userId) == NewestFirst(b, owner, userId) + NewestFirst(a, owner, userId)
    decreases |b|
  {
    if b == [] {
      assert a + b == a;
    } else {
      var init, last := b[..|b| - 1], b[|b| - 1];
      var newest := if owner(last) == userId then [last] else [];
      assert a + b == (a + init) + [last];
      assert b == init + [last];
      calc {
        NewestFirst(a + b, owner, userId);
        NewestFirst((a + init) + [last], owner, userId);
        { NewestFirstAfterInsert(a + init, last, owner, userId); }
        newest + NewestFirst(a + init, owner, userId);
        { NewestFirstConcat(a, init, owner, userId); }
        newest + (NewestFirst(init, owner, userId) + NewestFirst(a, owner, userId));
        (newest + NewestFirst(init, owner, userId)) + NewestFirst(a, owner, userId);
        { NewestFirstAfterInsert(init, last, owner, userId); }
        NewestFirst(init + [last], owner, userId) + NewestFirst(a, owner, userId);
      }
    }
  }

  function SessionOwner(row: SessionRow): int { row.userId }
  function ImprovementOwner(row: ImprovementRow): int { row.userId }

  /** `get_improvements` for the user's improvement rows, newest first:
      404 without a row, else the latest summary with three of its scores,
      each 0 when missing. */
  function GetImprovements(latestFirst: seq<ImprovementRow>): (r: Response)
    ensures latestFirst == [] <==> r == Response(404, MessageBody(NoImprovements))
    ensures latestFirst != [] ==> r.status == 200 && r.body.LatestBody? && r.body.summary == latestFirst[0].summary
    ensures latestFirst != [] && "clarity" in latestFirst[0].scores ==> r.body.clarity == latestFirst[0].scores["clarity"]
    ensures latestFirst != [] && "clarity" !in latestFirst[0].scores ==> r.body.clarity == 0.0
    ensures latestFirst != [] && "emotion" in latestFirst[0].scores ==> r.body.emotion == latestFirst[0].scores["emotion"]
    ensures latestFirst != [] && "emotion" !in latestFirst[0].scores ==> r.body.emotion == 0.0
    ensures latestFirst != [] && "pacing" in latestFirst[0].scores ==> r.body.pacing == latestFirst[0].scores["pacing"]
    ensures latestFirst != [] && "pacing" !in latestFirst[0].scores ==> r.body.pacing == 0.0
  {
    if latestFirst == [] then Response(404, MessageBody(NoImprovements))
    else
      var row := latestFirst[0];
      Response(200, LatestBody(row.summary, ScoreOr(row.scores, "clarity"), ScoreOr(row.scores, "emotion"),
                               ScoreOr(row.scores, "pacing")))
  }

  /** `profile_view`: the stored row, or empty strings when there is none. */
  function ProfileView(profiles: map<int, ProfileRow>, userId: int): (r: Response)
    ensures r.status == 200 && r.body.ProfileBody?
    ensures userId !in profiles ==> r.body == ProfileBody(None, Some(""), Some(""))
    ensures userId in profiles ==>
      r.body == ProfileBody(Some(userId), profiles[userId].bio, profiles[userId].avatarUrl)
  {
    if userId in profiles then
      Response(200, ProfileBody(Some(userId), profiles[userId].bio, profiles[userId].avatarUrl))
    else
      Response(200, ProfileBody(None, Some(""), Some("")))
  }

  /** The tables the views use. */
  class Database {
    var sessions: seq<SessionRow>
    var improvements: seq<ImprovementRow>
    var profiles: map<int, ProfileRow>

    constructor (sessions: seq<SessionRow>, improvements: seq<ImprovementRow>, profiles: map<int, ProfileRow>)
      ensures this.sessions == sessions && this.improvements == improvements && this.profiles == profiles
    {
      this.sessions, this.improvements, this.profiles := sessions, improvements, profiles;
    }

    /** `get_user_sessions`: the user's own rows, none of anyone else's. */
    function UserSessions(userId: int): (r: seq<SessionRow>)
      reads this
      ensures forall i :: 0 <= i < |r| ==> r[i].userId == userId && r[i] in sessions
      ensures r == [] <==> forall i :: 0 <= i < |sessions| ==> sessions[i].userId != userId
    {
      NewestFirst(sessions, SessionOwner, userId)
    }

    /** The view `analyze_text`, with its insert applied. */
    method AnalyzeTextView(data: AnalyzeData, requester: Option<int>, primary: Option<string>, fallback: Option<string>)
      returns (response: Response)
      modifies this`sessions
      ensures response == AnalyzeText(data, requester, primary, fallback).response
      ensures var row := AnalyzeText(data, requester, primary, fallback).insert;
        sessions == old(sessions) + (if row.Some? then [row.value] else [])
      ensures requester.Some? && AnalyzeText(data, requester, primary, fallback).insert.Some? ==>
        UserSessions(requester.value)[0].transcription == data.text.value
    {
      var r := AnalyzeText(data, requester, primary, fallback);
      response := r.response;
      if r.insert.Some? {
        NewestFirstAfterInsert(sessions, r.insert.value, SessionOwner, requester.value);
        sessions := sessions + [r.insert.value];
      }
    }

    /** The view `generate_improvements`: reads every saved transcription of
        the user, newest first, and appends the improvement row it decided. */
    method GenerateImprovementsView(userId: int, primary: Option<string>) returns (response: Response)
      modifies this`improvements
      ensures var texts := seq(|old(UserSessions(userId))|, i requires 0 <= i < |old(UserSessions(userId))| =>
                                 old(UserSessions(userId))[i].transcription);
        var r := GenerateImprovements(userId, texts, primary);
        response == r.response &&
        improvements == old(improvements) + (if r.insert.Some? then [r.insert.value] else [])
      ensures old(UserSessions(userId)) == [] ==>
        response.status == 400 && improvements == old(improvements)
    {
      var rows := UserSessions(userId);
      var texts := seq(|rows|, i requires 0 <= i < |rows| => rows[i].transcription);
      var r := GenerateImprovements(userId, texts, primary);
      response := r.response;
      if r.insert.Some? {
        improvements := improvements + [r.insert.value];
      }
    }

    /** The view `get_improvements`. */
    function GetImprovementsView(userId: int): (r: Response)
      reads this
      ensures r == Response(404, MessageBody(NoImprovements)) <==>
        forall i :: 0 <= i < |improvements| ==> improvements[i].userId != userId
      ensures r.status == 200 ==>
        r.body.LatestBody? &&
        exists i :: 0 <= i < |improvements| && improvements[i].userId == userId && r.body.summary == improvements[i].summary
    {
      GetImprovements(NewestFirst(improvements, ImprovementOwner, userId))
    }

    /** The view `profile_view`. */
    function ProfileViewOf(userId: int): (r: Response)
      reads this
      ensures r.status == 200 && r.body.ProfileBody?
      ensures userId in profiles ==> r.body.bio == profiles[userId].bio && r.body.avatarUrl == profiles[userId].avatarUrl
      ensures userId !in profiles ==> r.body.bio == Some("") && r.body.avatarUrl == Some("")
    {
      ProfileView(profiles, userId)
    }
  }

  /** The improvement row a successful generation saves is the one
      `get_improvements` reads next. */
  lemma GeneratedRowIsLatest(improvements: seq<ImprovementRow>, userId: int, transcriptions: seq<string>, primary: Option<string>)
    requires transcriptions != []
    ensures var r := GenerateImprovements(userId, transcriptions, primary);
      r.insert.Some? &&
      GetImprovements(NewestFirst(improvements + [r.insert.value], ImprovementOwner, userId)).body.summary ==
        r.insert.value.summary
  {
    var r := GenerateImprovements(userId, transcriptions, primary);
    NewestFirstAfterInsert(improvements, r.insert.value, ImprovementOwner, userId);
  }
}
