/**
 * `SummarizationService` of `src/summarization/summarization.service.ts`: the
 * order of checks, the choice between the transcript and the audio path, the
 * provider and key choice, and how each failure reaches the caller.
 *
 * The service imports `extractVideoId`, `isValidYouTubeUrl`, `getApiKey` and
 * `extractYouTubeVideoMetadata` under the name of the summarization utility
 * module; the definitions used are those of `video.util.ts` and
 * `api-key.util.ts`. Its `uploadAudioToS3` is `uploadTTSAudioToS3`, and its
 * private `convertTextToSpeech` and `extractTextFromFile` are copies of the
 * utility functions, so those models are used.
 */
module SummarizationService {
  import opened Outcomes
  import opened Strings
  import opened Options
  import opened Effects
  import opened Constants
  import opened SummarizationUtil
  import opened VideoUtil
  import opened ApiKeyUtil
  import opened FilesUtil
  import opened TtsUtil

  const InvalidUrl := "Invalid YouTube URL"
  const SlowOnlyOpenAi := "Slow mode is only supported with OpenAI. Please select OpenAI as the summarization model."
  const TtsOnlyOpenAi := "Text-to-speech is only supported with OpenAI. Please select OpenAI as the summarization model."
  const InvalidKeyGiven := "The api key you provided is invalid"
  /** Built from two pieces so that its first character is visible to the verifier. */
  const NoYouTubeTranscript := "This video" + " does not have a YouTube transcript. Please use SLOW mode instead."
  const NetworkProblem := "There is a problem with network connection"
  const AudioPathFailed := "Failed to summarize video using audio: "
  const DownloadFailed := "Failed to download audio"
  const TranscribeFailed := "Failed to transcribe audio: "
  const NoText := "Could not extract text from the file."
  const ServiceSystemPrompt := "You are a summarization expert who extracts key details from long texts."
  const ServiceMaxTokens: nat := 150
  /** `MAX_TOKENS` of the service. */
  const MaxTokens: nat := 15000
  /** `Math.floor(this.MAX_TOKENS / 4)` */
  const TranscriptWordBudget: nat := MaxTokens / 4

  // ---------------------------------------------------------------------------
  // Results

  /** What `summarizeText` returns: `{ summary, text }`, plus `audioFilePath` when there is one. */
  datatype TextSummary = TextSummary(summary: string, text: string, audioFilePath: Option<string>)

  /**
   * What `summarizeYouTubeVideo` returns. On the transcript path `summary` is
   * the summary string; on the audio path it is the whole object `summarizeText`
   * returned.
   */
  datatype VideoSummary =
    | FromTranscript(summary: string, transcript: string, videoMetadata: VideoMetadata, audioFilePath: Option<string>)
    | FromAudio(textSummary: TextSummary, transcript: string, videoMetadata: VideoMetadata, audioFilePath: Option<string>)

  // ---------------------------------------------------------------------------
  // Policies and choices

  /** A user key with a non-OpenAI model asks for slow mode. */
  predicate SlowModePolicy(userKey: Option<string>, o: Options) {
    Truthy(userKey) && o.model != Member(Model.OpenAI) && o.speed == Member(Speed.Slow)
  }

  /** A user key with a non-OpenAI model asks for speech. */
  predicate SpeechPolicy(userKey: Option<string>, o: Options) {
    Truthy(userKey) && Listens(o) && o.model != Member(Model.OpenAI)
  }

  /** DeepSeek when the model is DEEPSEEK; OpenAI for anything else, missing or not a member included. */
  function Provider(o: Options): (r: ChatEndpoint)
    ensures r == DeepSeekApi <==> o.model == Member(Model.DeepSeek)
  {
    if o.model == Member(Model.DeepSeek) then DeepSeekApi else OpenAIApi
  }

  /** The service's own key for a provider. */
  function DefaultKey(env: Env, provider: ChatEndpoint): Option<string> {
    match provider
    case OpenAIApi => env.defaultOpenAiKey
    case DeepSeekApi => env.defaultDeepSeekKey
  }

  /** The chat request of the service's adapters: the short system prompt and 150 tokens. */
  function ServiceRequest(provider: ChatEndpoint, apiKey: string, prompt: string): (r: ChatRequest)
    ensures r.endpoint == provider && r.apiKey == apiKey && r.prompt == prompt
    ensures r.maxTokens == ServiceMaxTokens && r.system == ServiceSystemPrompt
    ensures r.model == (if provider == OpenAIApi then "gpt-4o" else "deepseek-chat")
  {
    ChatRequest(provider, apiKey, if provider == OpenAIApi then "gpt-4o" else "deepseek-chat",
      ServiceSystemPrompt, ServiceMaxTokens, prompt)
  }

  // ---------------------------------------------------------------------------
  // The service's prompt

  const LengthTypo := " lenght"
  const TextBreak := ":\n\n"

  /**
   * The prompt of `summarizeText`: three templates chosen on the options as
   * passed (format and language DEFAULT, format DEFAULT, anything else),
   * filled with the defaulted values, the text appended as it is.
   */
  function ServicePrompt(labels: DefaultLabels, o: Options, text: string): string {
    var length, format, lang := LengthOf(o), FormatOf(labels, o), LangOf(labels, o);
    if IsDefaultFormat(o) && IsDefaultLang(o) then
      Lead + InA + length + LengthWord + TextBreak + text
    else if IsDefaultFormat(o) then
      Lead + InA + length + LengthTypo + CommaIn + lang + TextBreak + text
    else
      Lead + InA + length + LengthTypo + CommaIn + format + StyleWord + In + lang + TextBreak + text
  }

  /** The part of the service prompt between the length and the text. */
  function ServiceClauses(labels: DefaultLabels, o: Options): string {
    if IsDefaultFormat(o) && IsDefaultLang(o) then LengthWord
    else if IsDefaultFormat(o) then LengthTypo + CommaIn + LangOf(labels, o)
    else LengthTypo + CommaIn + FormatOf(labels, o) + StyleWord + In + LangOf(labels, o)
  }

  /**
   * Every service prompt asks for the defaulted length, then has the format
   * clause only when the format is not DEFAULT and a language clause unless
   * both are DEFAULT, then the text verbatim, untruncated.
   */
  lemma ServicePromptShape(labels: DefaultLabels, o: Options, text: string)
    ensures ServicePrompt(labels, o, text) == Lead + InA + LengthOf(o) + ServiceClauses(labels, o) + TextBreak + text
    ensures StartsWith(ServicePrompt(labels, o, text), Lead + InA + LengthOf(o))
    ensures EndsWith(ServicePrompt(labels, o, text), TextBreak + text)
  {
    ServicePromptByClauses(labels, o, text);
    Frame(Lead + InA + LengthOf(o), ServiceClauses(labels, o), TextBreak + text);
  }

  /** The three templates differ only in the clauses between the length and the text. */
  lemma ServicePromptByClauses(labels: DefaultLabels, o: Options, text: string)
    ensures ServicePrompt(labels, o, text) == Lead + InA + LengthOf(o) + ServiceClauses(labels, o) + TextBreak + text
  {
    var head := Lead + InA + LengthOf(o);
    if IsDefaultFormat(o) && IsDefaultLang(o) {
    } else if IsDefaultFormat(o) {
      Associate(head, LengthTypo + CommaIn, LangOf(labels, o), TextBreak + text);
    } else {
      Associate(head, LengthTypo + CommaIn + FormatOf(labels, o) + StyleWord + In, LangOf(labels, o), TextBreak + text);
    }
  }

  /** A concatenation starts with its first part and ends with its last. */
  lemma Frame(head: string, middle: string, tail: string)
    ensures StartsWith(head + middle + tail, head)
    ensures EndsWith(head + middle + tail, tail)
  {
    var p := head + middle + tail;
    assert p[..|head|] == head;
    assert p[|p| - |tail|..] == tail;
  }

  /**
   * Called without options (the text endpoint passes the request's options as
   * they are), the format is not DEFAULT, so the prompt takes the style
   * template with the DEFAULT format and language values.
   */
  lemma ServicePromptWithoutOptions(labels: DefaultLabels, text: string)
    ensures ServicePrompt(labels, NoOptions, text)
      == Lead + InA + "standard" + LengthTypo + CommaIn + labels.format + StyleWord + In + labels.language + TextBreak + text
  {
    assert !IsDefaultFormat(NoOptions);
    assert LengthOf(NoOptions) == "standard";
    assert FormatOf(labels, NoOptions) == labels.format;
    assert LangOf(labels, NoOptions) == labels.language;
  }

  /** The same request with its options defaulted first (the video and file paths) takes the plain template. */
  lemma ServicePromptWithDefaultedOptions(labels: DefaultLabels, text: string)
    ensures ServicePrompt(labels, GetSummarizationOptions(NoOptions), text) == Lead + InA + "standard" + LengthWord + TextBreak + text
  {
    var o := GetSummarizationOptions(NoOptions);
    assert IsDefaultFormat(o) && IsDefaultLang(o);
    GetSummarizationOptionsIdempotent(NoOptions);
    assert LengthOf(o) == "standard";
  }

  lemma Associate(h: string, a: string, b: string, t: string)
    ensures h + a + b + t == h + (a + b) + t
  {
  }

  // ---------------------------------------------------------------------------
  // The service's transcript

  /** `items.map(item => item.text.trim()).filter(text => text.length > 0)` */
  function TrimmedTexts(texts: seq<string>): (r: seq<string>)
    ensures |r| <= |texts|
    ensures forall i | 0 <= i < |r| :: r[i] != ""
  {
    if |texts| == 0 then []
    else
      var t, rest := Trim(texts[0]), TrimmedTexts(texts[1..]);
      if t == "" then rest else [t] + rest
  }

  /** One item contributes its trimmed text, or nothing when that is empty. */
  lemma TrimmedTextsOfOne(text: string)
    ensures TrimmedTexts([text]) == if Trim(text) == "" then [] else [Trim(text)]
  {
    assert [text][1..] == [];
  }

  /** Trimming and filtering works item by item: the kept texts of `a + b` are those of `a` followed by those of `b`. */
  lemma {:induction false} TrimmedTextsAppend(a: seq<string>, b: seq<string>)
    ensures TrimmedTexts(a + b) == TrimmedTexts(a) + TrimmedTexts(b)
    decreases |a|
  {
    if |a| > 0 {
      assert (a + b)[0] == a[0];
      assert (a + b)[1..] == a[1..] + b;
      TrimmedTextsAppend(a[1..], b);
    } else {
      assert a + b == b;
    }
  }

  /** The whole transcript: the trimmed, non-empty items joined by single spaces. */
  function FullTranscript(texts: seq<string>): string {
    Join(TrimmedTexts(texts), " ")
  }

  /** The first `Math.floor(MAX_TOKENS / 4)` pieces of `full.split(' ')`, joined again by spaces. */
  function TruncatedTranscript(full: string): string {
    Join(Take(Split(full, ' '), TranscriptWordBudget), " ")
  }

  /**
   * The truncated transcript is a prefix of the whole one whose `' '`-pieces
   * are the first pieces of the whole, at most 3750 of them; with no more
   * pieces than that it is the whole transcript.
   */
  lemma {:induction false} TruncatedTranscriptIsWordPrefix(full: string)
    ensures var r := TruncatedTranscript(full);
      && StartsWith(full, r)
      && Split(r, ' ') == Take(Split(full, ' '), TranscriptWordBudget)
      && |Split(r, ' ')| <= TranscriptWordBudget
      && (|Split(full, ' ')| <= TranscriptWordBudget ==> r == full)
  {
    var words := Split(full, ' ');
    var kept := Take(words, TranscriptWordBudget);
    JoinTakeIsPrefix(words, |kept|, " ");
    assert words[..|kept|] == kept;
    JoinSplit(full, ' ');
    assert [' '] == " ";
    assert |kept| >= 1 by {
      if |words| <= TranscriptWordBudget {
      } else {
        assert |kept| <= |words|;
      }
    }
    assert forall i | 0 <= i < |kept| :: ' ' !in kept[i] by {
      forall i | 0 <= i < |kept| ensures ' ' !in kept[i] {
        assert kept[i] == words[i];
      }
    }
    SplitJoin(kept, ' ');
  }

  // ---------------------------------------------------------------------------
  // Failure translation

  /**
   * The inner catch of the transcript path: a message mentioning `401`
   * means a rejected key; a "transcript not available" error asks for slow
   * mode; anything else is a network problem.
   */
  function TranscriptPathError(e: Error): (r: Error)
    ensures r.kind == BadRequest
    ensures Contains(e.message, "401") ==> r.message == InvalidKeyGiven
    ensures !Contains(e.message, "401") && e.kind != TranscriptNotAvailable ==> r.message == NetworkProblem
  {
    if Contains(e.message, "401") then Error(BadRequest, InvalidKeyGiven)
    else if e.kind == TranscriptNotAvailable then Error(BadRequest, NoYouTubeTranscript)
    else Error(BadRequest, NetworkProblem)
  }

  /** The outer catch of `summarizeYouTubeVideo`: a BadRequest with the same message. */
  function Rethrown(e: Error): (r: Error)
    ensures r.kind == BadRequest && r.message == e.message
  {
    Error(BadRequest, e.message)
  }

  /** The catch of the audio path. */
  function AudioPathError(e: Error): (r: Error)
    ensures r.kind == Plain && StartsWith(r.message, AudioPathFailed)
  {
    var m := AudioPathFailed + e.message;
    assert m[..|AudioPathFailed|] == AudioPathFailed;
    Error(Plain, m)
  }

  /** Whether `summarizeYouTubeVideo` takes the transcript path: FAST speed and an id in the URL. */
  predicate TakesTranscriptPath(o: Options, url: string) {
    o.speed == Member(Speed.Fast) && ExtractVideoId(url).Some?
  }

  /** Neither an audio download nor a transcription. */
  predicate NoAudioWork(calls: seq<Call>) {
    forall i | 0 <= i < |calls| :: !calls[i].DownloadAudio? && !calls[i].Transcribe?
  }

  lemma NoAudioWorkAppend(a: seq<Call>, b: seq<Call>)
    requires NoAudioWork(a) && NoAudioWork(b)
    ensures NoAudioWork(a + b)
  {
    forall i | 0 <= i < |a + b| ensures !(a + b)[i].DownloadAudio? && !(a + b)[i].Transcribe? {
      if i < |a| {
        assert (a + b)[i] == a[i];
      } else {
        assert (a + b)[i] == b[i - |a|];
      }
    }
  }

  lemma NoTranscriptFetchAppend(a: seq<Call>, b: seq<Call>)
    requires NoTranscriptFetch(a) && NoTranscriptFetch(b)
    ensures NoTranscriptFetch(a + b)
  {
    forall i | 0 <= i < |a + b| ensures !(a + b)[i].FetchTranscript? {
      if i < |a| {
        assert (a + b)[i] == a[i];
      } else {
        assert (a + b)[i] == b[i - |a|];
      }
    }
  }

  lemma TextStageOnlyAppend(a: seq<Call>, b: seq<Call>)
    requires TextStageOnly(a) && TextStageOnly(b)
    ensures TextStageOnly(a + b)
  {
    forall i | 0 <= i < |a + b| ensures IsTextStageCall((a + b)[i]) {
      if i < |a| {
        assert (a + b)[i] == a[i];
      } else {
        assert (a + b)[i] == b[i - |a|];
      }
    }
  }

  lemma TextStageHasNoAudioWork(calls: seq<Call>)
    requires TextStageOnly(calls)
    ensures NoAudioWork(calls) && NoTranscriptFetch(calls)
  {
  }

  lemma MetadataIsLookupOnly(oEmbed: string -> OEmbedReply, url: string)
    ensures NoAudioWork(ExtractYouTubeVideoMetadata(oEmbed, url).calls)
    ensures NoTranscriptFetch(ExtractYouTubeVideoMetadata(oEmbed, url).calls)
  {
    var calls := ExtractYouTubeVideoMetadata(oEmbed, url).calls;
    assert calls == [] || calls == [FetchOEmbed(OEmbedUrl(ExtractVideoId(url).value))];
  }

  // ---------------------------------------------------------------------------
  // The service

  class SummarizationService {
    const env: Env
    const world: World
    /** The string values of the two DEFAULT enum members a prompt can show. */
    const labels: DefaultLabels

    constructor (env: Env, world: World, labels: DefaultLabels)
      ensures this.env == env && this.world == world && this.labels == labels
    {
      this.env := env;
      this.world := world;
      this.labels := labels;
    }

    /** `summarizeWithOpenAi(apiKey, prompt)`: gpt-4o, the short system prompt, 150 tokens. */
    method SummarizeWithOpenAi(apiKey: string, prompt: string) returns (r: Run<string>)
      ensures r.calls == [Chat(ServiceRequest(OpenAIApi, apiKey, prompt))]
      ensures r.result == Completed(world.chat(ServiceRequest(OpenAIApi, apiKey, prompt)))
    {
      var request := ServiceRequest(OpenAIApi, apiKey, prompt);
      r := Run(Completed(world.chat(request)), [Chat(request)]);
    }

    /** `summarizeWithDeepSeek(apiKey, prompt)`: deepseek-chat at DeepSeek, the short system prompt, 150 tokens. */
    method SummarizeWithDeepSeek(apiKey: string, prompt: string) returns (r: Run<string>)
      ensures r.calls == [Chat(ServiceRequest(DeepSeekApi, apiKey, prompt))]
      ensures r.result == Completed(world.chat(ServiceRequest(DeepSeekApi, apiKey, prompt)))
    {
      var request := ServiceRequest(DeepSeekApi, apiKey, prompt);
      r := Run(Completed(world.chat(request)), [Chat(request)]);
    }

    /**
     * The provider step of `summarizeText`: DeepSeek with the user's key or
     * the DeepSeek default for the DEEPSEEK model, OpenAI with the user's key
     * or the OpenAI default otherwise.
     */
    method SummarizeWithProvider(options: Options, userKey: Option<string>, prompt: string) returns (r: Run<string>)
      ensures var key := GetApiKey(userKey, DefaultKey(env, Provider(options)));
        && (key.Fail? ==> r == Run(Fail(key.error), []))
        && (key.Ok? ==>
              var request := ServiceRequest(Provider(options), key.value, prompt);
              r == Run(Completed(world.chat(request)), [Chat(request)]))
      ensures r.result.Fail? ==> r.result.error.kind in {BadRequest, Plain}
    {
      if options.model == Member(Model.DeepSeek) {
        var key := GetApiKey(userKey, env.defaultDeepSeekKey);
        if key.Fail? {
          return Run(Fail(key.error), []);
        }
        r := SummarizeWithDeepSeek(key.value, prompt);
      } else {
        var key := GetApiKey(userKey, env.defaultOpenAiKey);
        if key.Fail? {
          return Run(Fail(key.error), []);
        }
        r := SummarizeWithOpenAi(key.value, prompt);
      }
    }

    /**
     * What `summarizeText(text, options, userApiKey)` does, with `speechName`
     * the name generated for the audio file: the speech policy before any
     * call; one chat call with the provider's key; when listen is set, an
     * OpenAI key and the speech. A speech failure fails the whole request.
     */
    function TextOutcome(text: string, options: Options, userKey: Option<string>, speechName: string): (r: Run<TextSummary>)
      ensures SpeechPolicy(userKey, options) ==> r == Run(Fail(Error(BadRequest, TtsOnlyOpenAi)), [])
      ensures !SpeechPolicy(userKey, options) ==>
        var key := GetApiKey(userKey, DefaultKey(env, Provider(options)));
        && (key.Fail? ==> r == Run(Fail(key.error), []))
        && (key.Ok? ==>
              var request := ServiceRequest(Provider(options), key.value, ServicePrompt(labels, options, text));
              var summary := Completed(world.chat(request));
              && |r.calls| >= 1 && r.calls[0] == Chat(request)
              && (summary.Fail? ==> r == Run(Fail(summary.error), [Chat(request)]))
              && (summary.Ok? && !Listens(options) ==> r == Run(Ok(TextSummary(summary.value, text, None)), [Chat(request)]))
              && (summary.Ok? && Listens(options) ==>
                    var openAiKey := GetApiKey(userKey, env.defaultOpenAiKey);
                    && (openAiKey.Fail? ==> r == Run(Fail(openAiKey.error), [Chat(request)]))
                    && (openAiKey.Ok? ==>
                          var speech := ConvertTextToSpeech(env, world, summary.value, openAiKey.value, speechName);
                          && r.calls == [Chat(request)] + speech.calls
                          && (speech.result.Ok? ==> r.result == Ok(TextSummary(summary.value, text, Some(speech.result.value))))
                          && (speech.result.Fail? ==> r.result == Fail(Error(BadRequest, AudioFailed))))))
      ensures r.result.Ok? ==> r.result.value.text == text && r.result.value.summary != ""
      ensures r.result.Ok? ==> (r.result.value.audioFilePath.Some? <==> Listens(options))
      ensures r.result.Fail? ==> r.result.error.kind in {BadRequest, Plain}
      ensures TextStageOnly(r.calls)
    {
      if SpeechPolicy(userKey, options) then Run(Fail(Error(BadRequest, TtsOnlyOpenAi)), [])
      else
        var key := GetApiKey(userKey, DefaultKey(env, Provider(options)));
        if key.Fail? then Run(Fail(key.error), [])
        else
          var request := ServiceRequest(Provider(options), key.value, ServicePrompt(labels, options, text));
          var summary := Completed(world.chat(request));
          if summary.Fail? then Run(Fail(summary.error), [Chat(request)])
          else if !Listens(options) then Run(Ok(TextSummary(summary.value, text, None)), [Chat(request)])
          else
            var openAiKey := GetApiKey(userKey, env.defaultOpenAiKey);
            if openAiKey.Fail? then Run(Fail(openAiKey.error), [Chat(request)])
            else
              var speech := ConvertTextToSpeech(env, world, summary.value, openAiKey.value, speechName);
              TextStageOnlyAppend([Chat(request)], speech.calls);
              var result := if speech.result.Ok? then Ok(TextSummary(summary.value, text, Some(speech.result.value)))
                else Fail(speech.result.error);
              Run(result, [Chat(request)] + speech.calls)
    }

    /** `summarizeText(text, options, userApiKey)`: the provider step, then the speech step when listen is set. */
    method SummarizeText(text: string, options: Options, userKey: Option<string>, speechName: string)
      returns (r: Run<TextSummary>)
      ensures r == TextOutcome(text, options, userKey, speechName)
    {
      if userKey.Some? && userKey.value != "" && Listens(options) && options.model != Member(Model.OpenAI) {
        return Run(Fail(Error(BadRequest, TtsOnlyOpenAi)), []);
      }
      var summary := SummarizeWithProvider(options, userKey, ServicePrompt(labels, options, text));
      if summary.result.Fail? {
        return Run(Fail(summary.result.error), summary.calls);
      }
      if !Listens(options) {
        return Run(Ok(TextSummary(summary.result.value, text, None)), summary.calls);
      }
      var speech := Speak(summary.result.value, userKey, speechName);
      var calls := summary.calls + speech.calls;
      if speech.result.Fail? {
        return Run(Fail(speech.result.error), calls);
      }
      var audioFilePath := if speech.result.value != "" then Some(speech.result.value) else None;
      r := Run(Ok(TextSummary(summary.result.value, text, audioFilePath)), calls);
    }

    /** The speech step of `summarizeText`: always with the user's key or the OpenAI default. */
    method Speak(summary: string, userKey: Option<string>, speechName: string) returns (r: Run<string>)
      ensures var key := GetApiKey(userKey, env.defaultOpenAiKey);
        && (key.Fail? ==> r == Run(Fail(key.error), []))
        && (key.Ok? ==> r == ConvertTextToSpeech(env, world, summary, key.value, speechName))
      ensures r.result.Ok? ==> r.result.value != ""
      ensures r.result.Fail? ==> r.result.error.kind == BadRequest
      ensures TextStageOnly(r.calls)
    {
      var key := GetApiKey(userKey, env.defaultOpenAiKey);
      if key.Fail? {
        return Run(Fail(key.error), []);
      }
      r := ConvertTextToSpeech(env, world, summary, key.value, speechName);
    }

    /**
     * The private `fetchYouTubeTranscript(videoId)`: the items of
     * youtube-transcript, trimmed, filtered, joined and cut to 3750 words;
     * every failure, "not available" included, becomes a plain error.
     */
    method FetchYouTubeTranscript(videoId: string) returns (r: Run<string>)
      ensures r.calls == [FetchTranscript(videoId)]
      ensures r.result.Ok? <==> world.youtubeTranscript(videoId).Items?
      ensures r.result.Ok? ==> r.result.value == TruncatedTranscript(FullTranscript(world.youtubeTranscript(videoId).texts))
      ensures r.result.Fail? ==> r.result.error == Error(Plain, TranscriptFailed + world.youtubeTranscript(videoId).message)
    {
      var calls := [FetchTranscript(videoId)];
      match world.youtubeTranscript(videoId) {
        case TranscriptError(_, message) =>
          r := Run(Fail(Error(Plain, TranscriptFailed + message)), calls);
        case Items(texts) =>
          r := Run(Ok(TruncatedTranscript(FullTranscript(texts))), calls);
      }
    }

    /** `downloadAudio(videoUrl)` with `name` the generated file name: yt-dlp into the download directory. */
    method DownloadAudio(url: string, name: string) returns (r: Run<string>)
      ensures r.calls == [Call.DownloadAudio(url, AudioFilePath(env, name))]
      ensures world.ytDlp(url, AudioFilePath(env, name)) ==> r.result == Ok(AudioFilePath(env, name))
      ensures !world.ytDlp(url, AudioFilePath(env, name)) ==> r.result == Fail(Error(Plain, DownloadFailed))
    {
      var path := AudioFilePath(env, name);
      var calls := [Call.DownloadAudio(url, path)];
      if world.ytDlp(url, path) {
        r := Run(Ok(path), calls);
      } else {
        r := Run(Fail(Error(Plain, DownloadFailed)), calls);
      }
    }

    /** `transcribeAudio(audioPath, userApiKey)`: Whisper with the user's key or the OpenAI default. */
    method TranscribeAudio(path: string, userKey: Option<string>) returns (r: Run<string>)
      ensures var key := GetApiKey(userKey, env.defaultOpenAiKey);
        && (key.Fail? ==> r == Run(Fail(key.error), []))
        && (key.Ok? ==>
              && r.calls == [Transcribe(key.value, path)]
              && (world.whisper(key.value, path).Done? ==> r.result == Ok(world.whisper(key.value, path).value))
              && (world.whisper(key.value, path).Threw? ==>
                    r.result == Fail(Error(Plain, TranscribeFailed + world.whisper(key.value, path).message))))
    {
      var key := GetApiKey(userKey, env.defaultOpenAiKey);
      if key.Fail? {
        return Run(Fail(key.error), []);
      }
      var calls := [Transcribe(key.value, path)];
      match world.whisper(key.value, path) {
        case Done(transcript) =>
          r := Run(Ok(transcript), calls);
        case Threw(message) =>
          r := Run(Fail(Error(Plain, TranscribeFailed + message)), calls);
      }
    }

    /**
     * The audio path once the audio is at `audioPath`: Whisper with an OpenAI
     * key, `summarizeText` of its transcript, then the metadata. The result
     * holds the whole text summary, the transcript and the audio path; any
     * failure, a missing key included, gets the audio prefix.
     */
    function DownloadedAudioOutcome(url: string, audioPath: string, options: Options, userKey: Option<string>, speechName: string)
      : (r: Run<VideoSummary>)
      ensures var key := GetApiKey(userKey, env.defaultOpenAiKey);
        && (key.Fail? ==> r == Run(Fail(AudioPathError(key.error)), []))
        && (key.Ok? ==>
              var heard := world.whisper(key.value, audioPath);
              && |r.calls| >= 1 && r.calls[0] == Transcribe(key.value, audioPath)
              && (heard.Threw? ==>
                    r == Run(Fail(AudioPathError(Error(Plain, TranscribeFailed + heard.message))), [Transcribe(key.value, audioPath)]))
              && (heard.Done? ==>
                    var text := TextOutcome(heard.value, options, userKey, speechName);
                    var metadata := ExtractYouTubeVideoMetadata(world.oEmbed, url);
                    && (text.result.Fail? ==>
                          r == Run(Fail(AudioPathError(text.result.error)), [Transcribe(key.value, audioPath)] + text.calls))
                    && (text.result.Ok? ==>
                          r == Run(Ok(FromAudio(text.result.value, heard.value, metadata.value, if audioPath != "" then Some(audioPath) else None)),
                                   [Transcribe(key.value, audioPath)] + text.calls + metadata.calls))))
      ensures r.result.Fail? ==> r.result.error.kind == Plain && StartsWith(r.result.error.message, AudioPathFailed)
      ensures r.result.Ok? ==> r.result.value.FromAudio? && r.result.value.textSummary.text == r.result.value.transcript
      ensures NoTranscriptFetch(r.calls)
    {
      var key := GetApiKey(userKey, env.defaultOpenAiKey);
      if key.Fail? then Run(Fail(AudioPathError(key.error)), [])
      else
        var calls := [Transcribe(key.value, audioPath)];
        match world.whisper(key.value, audioPath)
        case Threw(message) => Run(Fail(AudioPathError(Error(Plain, TranscribeFailed + message))), calls)
        case Done(transcript) =>
          var text := TextOutcome(transcript, options, userKey, speechName);
          TextStageHasNoAudioWork(text.calls);
          NoTranscriptFetchAppend(calls, text.calls);
          if text.result.Fail? then Run(Fail(AudioPathError(text.result.error)), calls + text.calls)
          else
            var metadata := ExtractYouTubeVideoMetadata(world.oEmbed, url);
            MetadataIsLookupOnly(world.oEmbed, url);
            NoTranscriptFetchAppend(calls + text.calls, metadata.calls);
            Run(Ok(FromAudio(text.result.value, transcript, metadata.value, if audioPath != "" then Some(audioPath) else None)),
                calls + text.calls + metadata.calls)
    }

    /**
     * `summarizeYouTubeVideoUsingAudio` with the generated download name:
     * the download comes first; a failed download is reported with the audio
     * prefix, and a successful one continues at the downloaded file, whose
     * path becomes the result's `audioFilePath`.
     */
    function AudioOutcome(url: string, options: Options, userKey: Option<string>, downloadName: string, speechName: string)
      : (r: Run<VideoSummary>)
      ensures |r.calls| >= 1 && r.calls[0] == Call.DownloadAudio(url, AudioFilePath(env, downloadName))
      ensures !world.ytDlp(url, AudioFilePath(env, downloadName)) ==>
        r == Run(Fail(AudioPathError(Error(Plain, DownloadFailed))), [Call.DownloadAudio(url, AudioFilePath(env, downloadName))])
      ensures world.ytDlp(url, AudioFilePath(env, downloadName)) ==>
        var rest := DownloadedAudioOutcome(url, AudioFilePath(env, downloadName), options, userKey, speechName);
        r == Run(rest.result, [Call.DownloadAudio(url, AudioFilePath(env, downloadName))] + rest.calls)
      ensures r.result.Fail? ==> r.result.error.kind == Plain && StartsWith(r.result.error.message, AudioPathFailed)
      ensures r.result.Ok? ==>
        && r.result.value.FromAudio?
        && r.result.value.audioFilePath == Some(AudioFilePath(env, downloadName))
        && r.result.value.textSummary.text == r.result.value.transcript
      ensures NoTranscriptFetch(r.calls)
    {
      var path := AudioFilePath(env, downloadName);
      var download := [Call.DownloadAudio(url, path)];
      if !world.ytDlp(url, path) then Run(Fail(AudioPathError(Error(Plain, DownloadFailed))), download)
      else
        var rest := DownloadedAudioOutcome(url, path, options, userKey, speechName);
        NoTranscriptFetchAppend(download, rest.calls);
        Run(rest.result, download + rest.calls)
    }

    /** `summarizeYouTubeVideoUsingAudio`: download, transcribe, summarize, look up the metadata. */
    method SummarizeYouTubeVideoUsingAudio(url: string, options: Options, userKey: Option<string>, downloadName: string, speechName: string)
      returns (r: Run<VideoSummary>)
      ensures r == AudioOutcome(url, options, userKey, downloadName, speechName)
    {
      var download := DownloadAudio(url, downloadName);
      if download.result.Fail? {
        return Run(Fail(AudioPathError(download.result.error)), download.calls);
      }
      var rest := SummarizeDownloadedAudio(url, download.result.value, options, userKey, speechName);
      r := Run(rest.result, download.calls + rest.calls);
    }

    /** The rest of the audio path once the audio is at `audioPath`. */
    method SummarizeDownloadedAudio(url: string, audioPath: string, options: Options, userKey: Option<string>, speechName: string)
      returns (r: Run<VideoSummary>)
      ensures r == DownloadedAudioOutcome(url, audioPath, options, userKey, speechName)
    {
      var transcript := TranscribeAudio(audioPath, userKey);
      var calls := transcript.calls;
      if transcript.result.Fail? {
        return Run(Fail(AudioPathError(transcript.result.error)), calls);
      }
      var summary := SummarizeText(transcript.result.value, options, userKey, speechName);
      calls := calls + summary.calls;
      if summary.result.Fail? {
        return Run(Fail(AudioPathError(summary.result.error)), calls);
      }
      var metadata := ExtractYouTubeVideoMetadata(world.oEmbed, url);
      calls := calls + metadata.calls;
      var audioFilePath := if audioPath != "" then Some(audioPath) else None;
      r := Run(Ok(FromAudio(summary.result.value, transcript.result.value, metadata.value, audioFilePath)), calls);
    }

    /**
     * The transcript path of `summarizeYouTubeVideo` for the id `videoId`:
     * the transcript, `summarizeText` of it, then the metadata; a failure of
     * either step is translated by the inner catch and re-raised as a
     * BadRequest by the outer one.
     */
    function TranscriptOutcome(url: string, videoId: string, options: Options, userKey: Option<string>, speechName: string)
      : (r: Run<VideoSummary>)
      ensures |r.calls| >= 1 && r.calls[0] == FetchTranscript(videoId)
      ensures r.result.Ok? ==>
        && world.youtubeTranscript(videoId).Items?
        && r.result.value.FromTranscript?
        && r.result.value.transcript == TruncatedTranscript(FullTranscript(world.youtubeTranscript(videoId).texts))
        && r.result.value.summary != ""
      ensures r.result.Fail? ==>
        && r.result.error.kind == BadRequest
        && (r.result.error.message == InvalidKeyGiven || r.result.error.message == NetworkProblem)
      ensures NoAudioWork(r.calls)
    {
      var calls := [FetchTranscript(videoId)];
      match world.youtubeTranscript(videoId)
      case TranscriptError(_, message) => Run(Fail(Rethrown(TranscriptPathError(Error(Plain, TranscriptFailed + message)))), calls)
      case Items(texts) =>
        var transcript := TruncatedTranscript(FullTranscript(texts));
        var text := TextOutcome(transcript, options, userKey, speechName);
        TextStageHasNoAudioWork(text.calls);
        NoAudioWorkAppend(calls, text.calls);
        if text.result.Fail? then Run(Fail(Rethrown(TranscriptPathError(text.result.error))), calls + text.calls)
        else
          var metadata := ExtractYouTubeVideoMetadata(world.oEmbed, url);
          MetadataIsLookupOnly(world.oEmbed, url);
          NoAudioWorkAppend(calls + text.calls, metadata.calls);
          Run(Ok(FromTranscript(text.result.value.summary, transcript, metadata.value, text.result.value.audioFilePath)),
              calls + text.calls + metadata.calls)
    }

    /**
     * A failed transcript fetch reaches the caller as "The api key you
     * provided is invalid" when its error mentions `401`, and as the network
     * message otherwise, "transcript not available" included.
     */
    lemma TranscriptFetchRelabelling(url: string, videoId: string, options: Options, userKey: Option<string>, speechName: string)
      requires world.youtubeTranscript(videoId).TranscriptError?
      ensures TranscriptOutcome(url, videoId, options, userKey, speechName)
        == Run(Fail(Error(BadRequest, if Contains(world.youtubeTranscript(videoId).message, "401") then InvalidKeyGiven else NetworkProblem)),
               [FetchTranscript(videoId)])
    {
      FetchErrorRelabelled(world.youtubeTranscript(videoId).message);
    }

    /**
     * On the transcript path a chat error is judged by the provider's own
     * message: "The api key you provided is invalid" exactly when it
     * mentions `401`; a missing key is a network problem.
     */
    lemma TranscriptChatRelabelling(url: string, videoId: string, options: Options, userKey: Option<string>, speechName: string)
      requires world.youtubeTranscript(videoId).Items? && !SpeechPolicy(userKey, options)
      ensures var r := TranscriptOutcome(url, videoId, options, userKey, speechName);
        var transcript := TruncatedTranscript(FullTranscript(world.youtubeTranscript(videoId).texts));
        var key := GetApiKey(userKey, DefaultKey(env, Provider(options)));
        && (key.Fail? ==> r.result == Fail(Error(BadRequest, NetworkProblem)))
        && (key.Ok? ==>
              var reply := world.chat(ServiceRequest(Provider(options), key.value, ServicePrompt(labels, options, transcript)));
              && (reply.ChatError? ==>
                    r.result == Fail(Error(BadRequest, if Contains(reply.message, "401") then InvalidKeyGiven else NetworkProblem)))
              && (reply.Completion? && !Listens(options) ==>
                    r.result == Ok(FromTranscript(Completed(reply).value, transcript,
                                                  ExtractYouTubeVideoMetadata(world.oEmbed, url).value, None))))
    {
      var transcript := TruncatedTranscript(FullTranscript(world.youtubeTranscript(videoId).texts));
      var key := GetApiKey(userKey, DefaultKey(env, Provider(options)));
      if key.Fail? {
        KeyErrorRelabelled();
      } else {
        var reply := world.chat(ServiceRequest(Provider(options), key.value, ServicePrompt(labels, options, transcript)));
        if reply.ChatError? {
          ChatErrorRelabelled(reply);
        }
      }
    }

    /** The transcript path: transcript, summary and metadata. */
    method SummarizeFromTranscript(url: string, videoId: string, options: Options, userKey: Option<string>, speechName: string)
      returns (r: Run<VideoSummary>)
      ensures r == TranscriptOutcome(url, videoId, options, userKey, speechName)
    {
      var transcript := FetchYouTubeTranscript(videoId);
      if transcript.result.Fail? {
        return Run(Fail(Rethrown(TranscriptPathError(transcript.result.error))), transcript.calls);
      }
      var summary := SummarizeText(transcript.result.value, options, userKey, speechName);
      var calls := transcript.calls + summary.calls;
      if summary.result.Fail? {
        return Run(Fail(Rethrown(TranscriptPathError(summary.result.error))), calls);
      }
      var metadata := ExtractYouTubeVideoMetadata(world.oEmbed, url);
      calls := calls + metadata.calls;
      var text := summary.result.value;
      r := Run(Ok(FromTranscript(text.summary, text.text, metadata.value, text.audioFilePath)), calls);
    }

    /**
     * `summarizeYouTubeVideo(content, optionsDto, userApiKey)`, with the two
     * generated audio file names. The URL is checked before anything else,
     * then the slow-mode policy on the defaulted options; FAST speed with an
     * id in the URL takes the transcript path, anything else the audio path,
     * whose failures reach the caller unchanged.
     */
    method SummarizeYouTubeVideo(url: string, optionsDto: Options, userKey: Option<string>, downloadName: string, speechName: string)
      returns (r: Run<VideoSummary>)
      ensures !IsValidYouTubeUrl(url) ==> r == Run(Fail(Error(BadRequest, InvalidUrl)), [])
      ensures IsValidYouTubeUrl(url) && SlowModePolicy(userKey, GetSummarizationOptions(optionsDto)) ==>
        r == Run(Fail(Error(BadRequest, SlowOnlyOpenAi)), [])
      ensures IsValidYouTubeUrl(url) && !SlowModePolicy(userKey, GetSummarizationOptions(optionsDto)) ==>
        var options := GetSummarizationOptions(optionsDto);
        if TakesTranscriptPath(options, url) then r == TranscriptOutcome(url, ExtractVideoId(url).value, options, userKey, speechName)
        else r == AudioOutcome(url, options, userKey, downloadName, speechName)
      ensures r.calls != [] ==>
        && IsValidYouTubeUrl(url)
        && !SlowModePolicy(userKey, GetSummarizationOptions(optionsDto))
      ensures r.result.Fail? ==> r.result.error.message != NoYouTubeTranscript
    {
      if !IsValidYouTubeUrl(url) {
        return Run(Fail(Error(BadRequest, InvalidUrl)), []);
      }
      var options := GetSummarizationOptions(optionsDto);
      if userKey.Some? && userKey.value != "" && options.model != Member(Model.OpenAI) && options.speed == Member(Speed.Slow) {
        return Run(Fail(Error(BadRequest, SlowOnlyOpenAi)), []);
      }
      if options.speed == Member(Speed.Fast) {
        var videoId := ExtractVideoId(url);
        if videoId.Some? {
          r := SummarizeFromTranscript(url, videoId.value, options, userKey, speechName);
          TranscriptPathMessage(r.result);
          return;
        }
      }
      r := SummarizeYouTubeVideoUsingAudio(url, options, userKey, downloadName, speechName);
      AudioPathMessage(r.result);
    }

    /**
     * `summarizeFile(file, optionsDto, userApiKey)`: the options are
     * defaulted, the text extracted by extension, blank text rejected before
     * any call, and the rest is `summarizeText` on the defaulted options.
     */
    method SummarizeFile(file: Upload, optionsDto: Options, userKey: Option<string>, speechName: string)
      returns (r: Run<TextSummary>)
      ensures ExtractTextFromFile(world, file).Fail? ==> r == Run(Fail(ExtractTextFromFile(world, file).error), [])
      ensures ExtractTextFromFile(world, file).Ok? && Trim(ExtractTextFromFile(world, file).value) == "" ==>
        r == Run(Fail(Error(BadRequest, NoText)), [])
      ensures ExtractTextFromFile(world, file).Ok? && Trim(ExtractTextFromFile(world, file).value) != "" ==>
        r == TextOutcome(ExtractTextFromFile(world, file).value, GetSummarizationOptions(optionsDto), userKey, speechName)
      ensures r.result.Ok? ==> Trim(r.result.value.text) != ""
    {
      var options := GetSummarizationOptions(optionsDto);
      var text := ExtractTextFromFile(world, file);
      if text.Fail? {
        return Run(Fail(text.error), []);
      }
      if Trim(text.value) == "" {
        return Run(Fail(Error(BadRequest, NoText)), []);
      }
      r := SummarizeText(text.value, options, userKey, speechName);
    }
  }

  /** On the transcript path a missing key is reported as a network problem: its message has no `401`. */
  lemma KeyErrorRelabelled()
    ensures Rethrown(TranscriptPathError(Error(BadRequest, ApiKeyRequired))) == Error(BadRequest, NetworkProblem)
  {
    assert '4' !in ApiKeyRequired;
    NoFourNo401(ApiKeyRequired);
  }

  /**
   * On the transcript path a chat error is judged by the provider's own
   * message: the adapters' prefix adds no `401`.
   */
  lemma ChatErrorRelabelled(reply: ChatReply)
    requires reply.ChatError?
    ensures Rethrown(TranscriptPathError(Completed(reply).error))
      == Error(BadRequest, if Contains(reply.message, "401") then InvalidKeyGiven else NetworkProblem)
  {
    assert '4' !in SummarizeFailed;
    Contains401AfterPrefix(SummarizeFailed, reply.message);
  }

  /**
   * A failed transcript fetch is judged by its own message: the fetch prefix
   * adds no `401`, and the "not available" kind is lost on the way.
   */
  lemma FetchErrorRelabelled(message: string)
    ensures Rethrown(TranscriptPathError(Error(Plain, TranscriptFailed + message)))
      == Error(BadRequest, if Contains(message, "401") then InvalidKeyGiven else NetworkProblem)
  {
    Contains401AfterPrefix(TranscriptFailed, message);
  }

  /** A string without a `4` does not contain `401`. */
  lemma NoFourNo401(s: string)
    requires '4' !in s
    ensures !Contains(s, "401")
  {
    MissingFirstCharacter(s, "401");
  }

  /** Behind a prefix without a `4`, a message contains `401` exactly when the message itself does. */
  lemma Contains401AfterPrefix(prefix: string, m: string)
    requires '4' !in prefix
    ensures Contains(prefix + m, "401") <==> Contains(m, "401")
  {
    var s := prefix + m;
    if Contains(m, "401") {
      var i :| 0 <= i <= |m| - 3 && OccursAt(m, "401", i);
      assert s[|prefix| + i..|prefix| + i + 3] == m[i..i + 3];
      assert OccursAt(s, "401", |prefix| + i);
    }
    if Contains(s, "401") {
      var i :| 0 <= i <= |s| - 3 && OccursAt(s, "401", i);
      assert s[i] == s[i..i + 3][0] == '4';
      assert forall j | 0 <= j < |prefix| :: s[j] == prefix[j] && prefix[j] in prefix;
      assert i >= |prefix|;
      assert m[i - |prefix|..i - |prefix| + 3] == s[i..i + 3];
      assert OccursAt(m, "401", i - |prefix|);
    }
  }

  /** A string without the first character of `p` does not contain `p`. */
  lemma MissingFirstCharacter(s: string, p: string)
    requires |p| >= 1 && p[0] !in s
    ensures !Contains(s, p)
  {
    forall i | 0 <= i <= |s| - |p| ensures !OccursAt(s, p, i) {
      assert s[i..i + |p|][0] == s[i];
      assert s[i] in s;
    }
  }

  /** A transcript-path failure never carries the "no transcript" message. */
  lemma TranscriptPathMessage(result: Result<VideoSummary>)
    requires result.Fail? ==> result.error.message == InvalidKeyGiven || result.error.message == NetworkProblem
    ensures result.Fail? ==> result.error.message != NoYouTubeTranscript
  {
    assert NoYouTubeTranscript[2] == "This video"[2] == 'i';
    assert InvalidKeyGiven[2] == 'e' && NetworkProblem[2] == 'e';
  }

  /** An audio-path failure never carries the "no transcript" message. */
  lemma AudioPathMessage(result: Result<VideoSummary>)
    requires result.Fail? ==> StartsWith(result.error.message, AudioPathFailed)
    ensures result.Fail? ==> result.error.message != NoYouTubeTranscript
  {
    if result.Fail? {
      var m := result.error.message;
      assert m[..|AudioPathFailed|] == AudioPathFailed;
      assert m[0] == AudioPathFailed[0];
      assert NoYouTubeTranscript[0] == "This video"[0];
    }
  }
}
