/** The values that cross the wire between the React client and the Django
    backend, and the outcomes of the client's remote calls. */
module Api {
  import opened Wrappers

  type Bytes = seq<bv8>

  /** What `fetch(...)` followed by `res.json()` produced: the fetch threw
      (network error), or a response arrived with its `ok` flag (a 2xx
      status) and its body, `None` when the body is not JSON so that
      `res.json()` throws. */
  datatype Http<T> = Thrown | Answered(ok: bool, body: Option<T>)

  /** What an axios request produced. Axios rejects on every non-2xx status,
      so a body reaches the caller only on success. */
  datatype Axios<T> = Failed | Succeeded(data: T)

  /** The JSON the token endpoint issues and the client keeps. */
  datatype Tokens = Tokens(access: string, refresh: string)

  /** The JSON the current-user endpoint returns. */
  datatype User = User(id: int, username: string, email: string)

  /** A browser `File`: the uploaded file or the packaged recording. */
  datatype AudioFile = AudioFile(name: string, mediaType: string, data: Bytes)

  /** A JSON object of strings, such as the analysis context. */
  type Context = map<string, string>

  /** The JSON body of a POST to the analysis endpoint. Every field is
      optional on the server side; `None` means the key is absent. */
  datatype AnalyzeData = AnalyzeData(
    text: Option<string>,
    feedbackType: Option<string>,
    feedbackGoal: Option<string>,
    context: Option<Context>,
    save: Option<string>)

  /** Response bodies the client reads; `None` marks a missing key. */
  datatype TranscribeReply = TranscribeReply(transcription: Option<string>)
  datatype AnalyzeReply = AnalyzeReply(analysis: Option<string>, source: Option<string>)
  datatype ScoresReply = ScoresReply(scores: Option<map<string, real>>)
  datatype SummaryReply = SummaryReply(summary: Option<string>)

  /** One saved session as the session-list endpoint returns it. */
  datatype SessionRecord = SessionRecord(
    id: int, createdAt: string, transcription: string, analysis: string, context: Context)
}
