/**
 * The foreign calls the core makes (OpenAI, DeepSeek, youtube-transcript,
 * youtubei.js, oEmbed, yt-dlp, the file system, S3). Each is a total function
 * in `World` that returns a value or throws; each call the model makes is
 * recorded as a `Call`, so that the order of effects, and their absence, can
 * be stated.
 */
module Effects {
  import opened Outcomes

  type Bytes = seq<bv8>

  /** The two chat back ends: OpenAI, and DeepSeek's OpenAI-compatible API at https://api.deepseek.com. */
  datatype ChatEndpoint = OpenAIApi | DeepSeekApi

  /** One chat-completion request: client endpoint and key, model id, system message, token budget, user prompt. */
  datatype ChatRequest = ChatRequest(
    endpoint: ChatEndpoint,
    apiKey: string,
    model: string,
    system: string,
    maxTokens: nat,
    prompt: string)

  /** A completion: the content of `choices[0].message` (missing or null as `None`), or a thrown error. */
  datatype ChatReply = Completion(firstContent: Option<string>) | ChatError(message: string)

  /** youtube-transcript's answer: the items' texts, or an error, flagged when it is its "not available" error. */
  datatype TranscriptReply = Items(texts: seq<string>) | TranscriptError(notAvailable: bool, message: string)

  /** The oEmbed lookup: `title` and `author_name` of the parsed JSON, or a failed fetch or parse. */
  datatype OEmbedReply = OEmbed(title: Option<string>, authorName: Option<string>) | OEmbedFailed

  /** A PutObject command: bucket, object key, content type; the ACL is always public-read. */
  datatype PutObject = PutObject(bucket: string, key: string, contentType: string)

  datatype Call =
    | FetchTranscript(videoId: string)
    | DownloadAudio(url: string, path: string)
    | Transcribe(apiKey: string, path: string)
    | Chat(request: ChatRequest)
    | Speech(apiKey: string, text: string)
    | WriteFile(path: string)
    | ReadFile(path: string)
    | Put(object: PutObject)
    | FetchOEmbed(url: string)

  datatype World = World(
    youtubeTranscript: string -> TranscriptReply,   // YoutubeTranscript.fetchTranscript(videoId)
    innertube: string -> Reply<seq<string>>,        // youtubei.js: snippet texts of the initial segments
    oEmbed: string -> OEmbedReply,                   // fetch(oEmbedUrl) then response.json()
    ytDlp: (string, string) -> bool,                 // audio of url written to path (and the file exists)
    whisper: (string, string) -> Reply<string>,      // transcription of the file at path, with key
    chat: ChatRequest -> ChatReply,
    speech: (string, string) -> Reply<Bytes>,        // tts-1 with key, text
    writeFile: (string, Bytes) -> Reply<()>,
    readFile: string -> Reply<Bytes>,
    putObject: PutObject -> Reply<()>,
    pdf: Bytes -> Reply<string>,                     // pdf-parse
    docx: Bytes -> Reply<string>,                    // mammoth.extractRawText
    utf8: Bytes -> string)                           // buffer.toString('utf-8')

  /** A value together with the calls made to compute it. */
  datatype Traced<+T> = Traced(value: T, calls: seq<Call>)

  /** A computation that may fail, with the calls it made. */
  datatype Run<+T> = Run(result: Result<T>, calls: seq<Call>)

  predicate IsTextStageCall(c: Call) {
    c.Chat? || c.Speech? || c.WriteFile? || c.ReadFile? || c.Put?
  }

  /** Only summarization, speech and storage calls: no transcript fetch, no download, no transcription. */
  predicate TextStageOnly(calls: seq<Call>) {
    forall i :: 0 <= i < |calls| ==> IsTextStageCall(calls[i])
  }

  predicate NoTranscriptFetch(calls: seq<Call>) {
    forall i :: 0 <= i < |calls| ==> !calls[i].FetchTranscript?
  }

  predicate IsStorageCall(c: Call) {
    c.ReadFile? || c.Put?
  }
}
