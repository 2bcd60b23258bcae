/** `generate_improvement_prompt`: the prompt that asks the model to summarise
    a user's progress over their saved transcriptions. */
module Helpers {
  import opened Text

  const Separator := "\n\n---\n\n"

  /** The template text before and after the joined transcriptions. */
  const Head := "\n    You are an expert communication coach. Analyze the following conversation transcripts over time.\n\n    "
  const Tail := "\n\n    Provide a concise summary on how the speaker's communication has improved \n    Also give constructive tips for further improvement.\n\n    Keep it under 50 words. Output in plain text.\n    "

  /** One element of the list the view builds: `{"transcription": r[0]}`. */
  datatype SessionText = SessionText(transcription: string)

  /** `[s["transcription"] for s in sessions]`. */
  function Transcriptions(sessions: seq<SessionText>): (ts: seq<string>)
    ensures |ts| == |sessions|
    ensures forall i :: 0 <= i < |sessions| ==> ts[i] == sessions[i].transcription
  {
    seq(|sessions|, i requires 0 <= i < |sessions| => sessions[i].transcription)
  }

  function JoinedTexts(sessions: seq<SessionText>): string
  {
    Join(Transcriptions(sessions), Separator)
  }

  /** The prompt: the fixed head, the joined transcriptions, the fixed tail. */
  function ImprovementPrompt(sessions: seq<SessionText>): (p: string)
    ensures |p| == |Head| + |JoinedTexts(sessions)| + |Tail|
    ensures p[..|Head|] == Head && p[|p| - |Tail|..] == Tail
  {
    var p := Head + JoinedTexts(sessions) + Tail;
    assert p[..|Head|] == Head;
    assert p[|p| - |Tail|..] == Tail;
    p
  }

  /** The text between the template's head and tail. */
  function Embedded(prompt: string): string
    requires |prompt| >= |Head| + |Tail|
  {
    prompt[|Head|..|prompt| - |Tail|]
  }

  /** The joined text sits once between head and tail, and can be read back
      from the prompt. */
  lemma EmbeddedRoundTrip(sessions: seq<SessionText>)
    ensures Embedded(ImprovementPrompt(sessions)) == JoinedTexts(sessions)
  {
    var j := JoinedTexts(sessions);
    assert (Head + j + Tail)[|Head|..|Head| + |j|] == j;
  }

  /** Different joined texts give different prompts: nothing in the template
      depends on the sessions except the embedded text. */
  lemma PromptDeterminesJoinedTexts(a: seq<SessionText>, b: seq<SessionText>)
    requires ImprovementPrompt(a) == ImprovementPrompt(b)
    ensures JoinedTexts(a) == JoinedTexts(b)
  {
    EmbeddedRoundTrip(a);
    EmbeddedRoundTrip(b);
  }

  /** No sessions join to the empty text (the view rejects this case first). */
  lemma NoSessionsJoinEmpty()
    ensures JoinedTexts([]) == ""
  {
  }

  /** One session joins to its own transcription, without a separator. */
  lemma OneSessionJoinsToItself(s: SessionText)
    ensures JoinedTexts([s]) == s.transcription
  {
    assert Transcriptions([s]) == [s.transcription];
  }

  /** Sessions are joined in the order given: the last one comes last, after
      one separator. */
  lemma LastSessionComesLast(sessions: seq<SessionText>, last: SessionText)
    requires |sessions| > 0
    ensures JoinedTexts(sessions + [last]) == JoinedTexts(sessions) + Separator + last.transcription
  {
    assert Transcriptions(sessions + [last]) == Transcriptions(sessions) + [last.transcription];
    JoinSnoc(Transcriptions(sessions), last.transcription, Separator);
  }

  /** For n sessions the joined text is n transcriptions plus n - 1
      separators in length. */
  lemma JoinedLength(sessions: seq<SessionText>)
    requires |sessions| > 0
    ensures |JoinedTexts(sessions)| == TotalLength(Transcriptions(sessions)) + (|sessions| - 1) * |Separator|
  {
    JoinLength(Transcriptions(sessions), Separator);
  }

  /** When no transcription contains a dash, the joined text holds exactly
      three dashes per separator, that is 3 * (n - 1). */
  lemma {:induction false} DashesCountSeparators(parts: seq<string>)
    requires |parts| > 0
    requires forall i :: 0 <= i < |parts| ==> Count('-', parts[i]) == 0
    ensures Count('-', Join(parts, Separator)) == 3 * (|parts| - 1)
  {
    if |parts| > 1 {
      DashesCountSeparators(parts[1..]);
      CountConcat('-', parts[0], Separator);
      CountConcat('-', parts[0] + Separator, Join(parts[1..], Separator));
      SeparatorDashes();
    }
  }

  /** The separator holds three dashes. */
  lemma SeparatorDashes()
    ensures Count('-', Separator) == 3
  {
    assert Separator == "\n\n" + "---" + "\n\n";
    CountConcat('-', "\n\n", "---");
    CountConcat('-', "\n\n" + "---", "\n\n");
  }
}
