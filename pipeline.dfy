/** `TranscribeAndAnalyze`: audio acquisition, transcription, analysis and
    the saved-session list of the main page. */
module Pipeline {
  import opened Wrappers
  import opened Api
  import opened AuthContext

  const TranscriptionFailed := "Transcription failed."
  const AnalysisFailed := "Analysis failed."
  const DefaultSource := "gemini"

  /** What `recorder.stop().getMp3()` resolves to: the MP3 buffer and the
      media type of the blob. */
  datatype Recording = Recording(buffer: Bytes, blobType: string)

  /** The four context keys the analysis request carries. */
  const ContextKeys: set<string> := {"listener", "situation", "speaker_trait", "topic_priority"}

  /** `disabled={!audio}` on the Transcribe button. */
  predicate TranscribeDisabled(audio: Option<AudioFile>) {
    audio.None?
  }

  /** `disabled={!transcription}` on the Analyze button: `undefined` and the
      empty string are the falsy values the field can hold. */
  predicate AnalyzeDisabled(transcription: Option<string>) {
    transcription.None? || transcription.value == ""
  }

  /** A template literal's rendering of a possibly missing string. */
  function Shown(s: Option<string>): (r: string)
    ensures s.Some? ==> r == s.value
    ensures s.None? ==> r == "undefined"
  {
    if s.Some? then s.value else "undefined"
  }

  /** `data.source || 'gemini'`: a missing or empty source falls back. */
  function SourceLabel(source: Option<string>): (r: string)
    ensures r != ""
    ensures source.Some? && source.value != "" ==> r == source.value
    ensures source.None? || source.value == "" ==> r == DefaultSource
  {
    if source.Some? && source.value != "" then source.value else DefaultSource
  }

  function SourceSuffix(source: string): string {
    "\n\n(Source: " + source + ")"
  }

  /** The analysis text shown after a response that parsed as JSON, whatever
      its status. */
  function AnalysisText(reply: AnalyzeReply): (r: string)
    ensures r == Shown(reply.analysis) + SourceSuffix(SourceLabel(reply.source))
    ensures r != AnalysisFailed
  {
    var r := Shown(reply.analysis) + SourceSuffix(SourceLabel(reply.source));
    assert r[|r| - 1] == ')';
    r
  }

  /** The context object the client sends: the four context fields under
      their wire names, and no other key. */
  function ContextObject(listener: string, situation: string, speakerTrait: string, topicPriority: string): (c: Context)
    ensures c.Keys == ContextKeys
    ensures c["listener"] == listener && c["situation"] == situation
    ensures c["speaker_trait"] == speakerTrait && c["topic_priority"] == topicPriority
  {
    map["listener" := listener, "situation" := situation,
        "speaker_trait" := speakerTrait, "topic_priority" := topicPriority]
  }

  /** The save flag: the string "true" exactly when an identity is present. */
  function SaveFlag(user: Option<User>): (f: string)
    ensures f == "true" <==> user.Some?
    ensures f == "false" <==> user.None?
  {
    if user.Some? then "true" else "false"
  }

  /** The Authorization header, present exactly when a credential is. */
  function Authorization(tokens: Option<Tokens>): (h: Option<string>)
    ensures h.Some? <==> tokens.Some?
    ensures tokens.Some? ==> h.value == "Bearer " + tokens.value.access
  {
    if tokens.Some? then Some("Bearer " + tokens.value.access) else None
  }

  class TranscribeAndAnalyze {
    const auth: AuthProvider
    var audio: Option<AudioFile>
    /** `None` once a response without a `transcription` key was stored. */
    var transcription: Option<string>
    var analysis: string
    var listener: string
    var situation: string
    var speakerTrait: string
    var topicPriority: string
    var feedbackType: string
    var feedbackGoal: string
    var isRecording: bool
    var isRecordingAvailable: bool
    var sessions: seq<SessionRecord>

    constructor (auth: AuthProvider)
      ensures this.auth == auth
      ensures audio == None && transcription == Some("") && analysis == ""
      ensures listener == "" && situation == "" && speakerTrait == "" && topicPriority == ""
      ensures feedbackType == "" && feedbackGoal == ""
      ensures !isRecording && !isRecordingAvailable && sessions == []
    {
      this.auth := auth;
      audio, transcription, analysis := None, Some(""), "";
      listener, situation, speakerTrait, topicPriority := "", "", "", "";
      feedbackType, feedbackGoal := "", "";
      isRecording, isRecordingAvailable := false, false;
      sessions := [];
    }

    /** `handleFileChange`: the first chosen file replaces the audio, however
        the previous audio was obtained; an emptied picker clears it. The
        transcription and the analysis are left as they were. */
    method HandleFileChange(files: seq<AudioFile>)
      modifies this`audio
      ensures audio == (if |files| > 0 then Some(files[0]) else None)
    {
      audio := if |files| > 0 then Some(files[0]) else None;
    }

    /** `startRecording`: the flag is raised only once the recorder started. */
    method StartRecording(started: bool)
      modifies this`isRecording
      ensures isRecording == (started || old(isRecording))
    {
      if started {
        isRecording := true;
      }
    }

    /** `stopRecording`: a finished recording becomes the audio, named
        "recording.mp3" and typed by its blob, and the flags say that a
        recording is available and none is running; a failure changes nothing. */
    method StopRecording(result: Option<Recording>)
      modifies this`audio, this`isRecording, this`isRecordingAvailable
      ensures result.Some? ==> audio == Some(AudioFile("recording.mp3", result.value.blobType, result.value.buffer))
      ensures result.Some? ==> !isRecording && isRecordingAvailable
      ensures result.None? ==>
        audio == old(audio) && isRecording == old(isRecording) && isRecordingAvailable == old(isRecordingAvailable)
    {
      if result.Some? {
        audio := Some(AudioFile("recording.mp3", result.value.blobType, result.value.buffer));
        isRecording := false;
        isRecordingAvailable := true;
      }
    }

    /** The record button: stops a running recording, otherwise starts one. */
    method ToggleRecording(started: bool, result: Option<Recording>)
      modifies this`audio, this`isRecording, this`isRecordingAvailable
      ensures old(isRecording) && result.Some? ==>
        audio == Some(AudioFile("recording.mp3", result.value.blobType, result.value.buffer)) &&
        !isRecording && isRecordingAvailable
      ensures old(isRecording) && result.None? ==>
        audio == old(audio) && isRecording && isRecordingAvailable == old(isRecordingAvailable)
      ensures !old(isRecording) ==>
        isRecording == started && audio == old(audio) && isRecordingAvailable == old(isRecordingAvailable)
    {
      if isRecording {
        StopRecording(result);
      } else {
        StartRecording(started);
      }
    }

    /** The six inputs of the context panel, one setter each. */
    method SetListener(v: string)
      modifies this`listener
      ensures listener == v
    {
      listener := v;
    }

    method SetSituation(v: string)
      modifies this`situation
      ensures situation == v
    {
      situation := v;
    }

    method SetSpeakerTrait(v: string)
      modifies this`speakerTrait
      ensures speakerTrait == v
    {
      speakerTrait := v;
    }

    method SetTopicPriority(v: string)
      modifies this`topicPriority
      ensures topicPriority == v
    {
      topicPriority := v;
    }

    method SetFeedbackType(v: string)
      modifies this`feedbackType
      ensures feedbackType == v
    {
      feedbackType := v;
    }

    method SetFeedbackGoal(v: string)
      modifies this`feedbackGoal
      ensures feedbackGoal == v
    {
      feedbackGoal := v;
    }

    /** `handleTranscribe`. Without audio nothing is sent and nothing changes.
        Otherwise the current audio is sent without credentials; a thrown error
        (network, or a body that is not JSON) stores the failure text, and any
        JSON answer, whatever its status, stores its `transcription` field. */
    method HandleTranscribe(reply: Http<TranscribeReply>) returns (sent: Option<AudioFile>)
      modifies this`transcription
      ensures sent == audio
      ensures audio.None? ==> transcription == old(transcription)
      ensures audio.Some? && (reply.Thrown? || reply.body.None?) ==>
        transcription == Some(TranscriptionFailed) && !AnalyzeDisabled(transcription)
      ensures audio.Some? && reply.Answered? && reply.body.Some? ==>
        transcription == reply.body.value.transcription
    {
      sent := audio;
      if audio.None? {
        return;
      }
      if reply.Answered? && reply.body.Some? {
        transcription := reply.body.value.transcription;
      } else {
        transcription := Some(TranscriptionFailed);
      }
    }

    /** The body `handleAnalyze` posts for the current state. */
    function AnalyzeRequest(): (r: AnalyzeData)
      reads this, auth
      ensures r.text == transcription
      ensures r.feedbackType == Some(feedbackType) && r.feedbackGoal == Some(feedbackGoal)
      ensures r.context == Some(ContextObject(listener, situation, speakerTrait, topicPriority))
      ensures r.save == Some(SaveFlag(auth.user))
    {
      AnalyzeData(transcription, Some(feedbackType), Some(feedbackGoal),
                  Some(ContextObject(listener, situation, speakerTrait, topicPriority)),
                  Some(SaveFlag(auth.user)))
    }

    /** `fetchSessions`: with both a credential and an identity the list is
        requested and replaces `sessions` in the order received, or empties it
        when the request fails; otherwise it is emptied without a request. */
    method FetchSessions(reply: Http<seq<SessionRecord>>) returns (requested: bool)
      modifies this`sessions
      ensures requested <==> auth.authTokens.Some? && auth.user.Some?
      ensures !requested ==> sessions == []
      ensures requested && reply.Answered? && reply.body.Some? ==> sessions == reply.body.value
      ensures requested && (reply.Thrown? || reply.body.None?) ==> sessions == []
    {
      requested := auth.authTokens.Some? && auth.user.Some?;
      if requested && reply.Answered? && reply.body.Some? {
        sessions := reply.body.value;
      } else {
        sessions := [];
      }
    }

    /** `handleAnalyze`: posts the request, with the Authorization header
        exactly when a credential is present. A JSON answer of any status
        shows its analysis and source and, for a signed-in user, refreshes the
        sessions; a thrown error shows the failure text and refreshes nothing. */
    method HandleAnalyze(reply: Http<AnalyzeReply>, sessionsReply: Http<seq<SessionRecord>>)
      returns (request: AnalyzeData, authorization: Option<string>, refreshed: bool)
      modifies this`analysis, this`sessions
      ensures request == old(AnalyzeRequest())
      ensures authorization == Authorization(auth.authTokens)
      ensures reply.Thrown? || reply.body.None? ==>
        analysis == AnalysisFailed && !refreshed && sessions == old(sessions)
      ensures reply.Answered? && reply.body.Some? ==>
        analysis == AnalysisText(reply.body.value) && (refreshed <==> auth.user.Some?)
      ensures !refreshed ==> sessions == old(sessions)
      ensures refreshed && auth.authTokens.Some? && sessionsReply.Answered? && sessionsReply.body.Some? ==>
        sessions == sessionsReply.body.value
      ensures refreshed && (auth.authTokens.None? || sessionsReply.Thrown? || sessionsReply.body.None?) ==>
        sessions == []
    {
      request := AnalyzeRequest();
      authorization := Authorization(auth.authTokens);
      refreshed := false;
      if reply.Answered? && reply.body.Some? {
        analysis := AnalysisText(reply.body.value);
        if auth.user.Some? {
          var _ := FetchSessions(sessionsReply);
          refreshed := true;
        }
      } else {
        analysis := AnalysisFailed;
      }
    }
  }

  /** A failed transcription leaves both buttons enabled: the audio is still
      there, and the failure text is a non-empty transcription. */
  lemma FailureTextEnablesAnalyze(audio: AudioFile)
    ensures !TranscribeDisabled(Some(audio))
    ensures !AnalyzeDisabled(Some(TranscriptionFailed))
  {
  }

  /** An error body without an `analysis` key is shown as the word
      "undefined" followed by the default source. */
  lemma ErrorBodyShowsUndefined(error: AnalyzeReply)
    requires error.analysis.None? && error.source.None?
    ensures AnalysisText(error) == "undefined\n\n(Source: gemini)"
  {
  }
}
