# letssummarize API — a Dafny model of its decision layer

The letssummarize API summarizes YouTube videos, uploaded files and plain text
with OpenAI or DeepSeek, can read the summary aloud, and stores audio locally
or on S3. A small FastAPI service transcribes audio with faster-whisper.

This project models the deterministic logic around those AI calls:

- options defaulting and in-place repair;
- the prompt templates of the utility and of the service;
- YouTube URL validation and video-id extraction;
- metadata assembly and transcript truncation;
- API-key precedence and the Bearer-token guard;
- the orchestration of `summarizeYouTubeVideo`, `summarizeText` and
  `summarizeFile`: check order, fast/slow dispatch, provider and key
  selection, and error relabelling;
- extension dispatch of file extraction, the age sweep of the download
  directory and audio file naming;
- S3 key and URL construction, and the S3-or-local URL choice of speech output;
- the transcription server's model-loading state and its bounded,
  insertion-ordered cache.

Every external collaborator is a total function field of a `World` record
(`Effects`) that answers with a value or an error. These are OpenAI,
DeepSeek, youtubei.js, youtube-transcript, yt-dlp, oEmbed, S3, the file
system, pdf-parse, mammoth and faster-whisper. Operations with effects return
their result together with the sequence of calls they made, so that orders
such as "nothing is fetched before the URL is checked" can be stated.
Errors are `Error(kind, message)`. The kind records the exception class: a
plain `Error`, `BadRequestException`, `UnauthorizedException` or
`UnsupportedMediaTypeException`.

Modules follow the source files. `SummarizationUtil`, `VideoUtil`,
`ApiKeyUtil`, `FilesUtil`, `S3Util` and `TtsUtil` model `src/utils/`.
`ApiKeyGuard` models the guard and `SummarizationService` the service.
`TranscribeApi` models `src/python/transcribe_api/transcribe_api.py`.
`Outcomes`, `Strings`, `Options`, `Effects` and `Constants` hold the shared
vocabulary: results, string helpers, the option enums, collaborators and
configuration.

Where the documentation and the code disagree, the model follows the code:

- `MAX_FILE_AGE` is 60000 ms, not a day.
- The utility's transcript budget is `floor(MAX_TRANSCRIPT_TOKENS / 4)`, 375
  words by default, not 3750.
- `extractYouTubeVideoMetadata` never throws, although its comment says it
  does.
- The service's "does not have a YouTube transcript" branch cannot be
  reached. Its transcript fetch rethrows every failure as a plain error, so
  on the fast path every failure that does not mention `401` is reported as a
  network problem. `SummarizeYouTubeVideo` proves that the message never
  appears.
- The text endpoint passes its options to `summarizeText` without defaulting
  them. A request with no options therefore gets the style template of the
  service prompt (`ServicePromptWithoutOptions`), while the video and file
  paths default the options first and get the plain one
  (`ServicePromptWithDefaultedOptions`).

## Model

| member | source | states |
|---|---|---|
| SummarizationUtil.GetSummarizationOptions | src/utils/summarization.util.ts:19-32 | every absent field gets its default (length STANDARD, the others DEFAULT, listen false); present fields, valid or not, and `customInstructions` pass through; the result has no absent field |
| SummarizationUtil.GetSummarizationOptionsFixedPoint | src/utils/summarization.util.ts:19-32 | defaulting leaves an options record unchanged exactly when no field is absent |
| SummarizationUtil.GetSummarizationOptionsIdempotent | src/utils/summarization.util.ts:19-32 | defaulting twice equals defaulting once |
| SummarizationUtil.Validated | src/utils/summarization.util.ts:40-70 | a truthy length, format, model or speed outside its enum is reset to STANDARD/DEFAULT; valid and falsy values are kept; a non-boolean listen becomes false; lang, sttModel and customInstructions never change |
| SummarizationUtil.ValidatedFixedPoint | src/utils/summarization.util.ts:40-70 | validation changes nothing exactly when the record is already sanitized |
| SummarizationUtil.ValidatedIdempotent | src/utils/summarization.util.ts:40-70 | validating twice equals validating once |
| SummarizationUtil.OptionsRecord.Validate | src/utils/summarization.util.ts:40-70 | repairing the record in place leaves it equal to `Validated` of its old value |
| SummarizationUtil.PromptByClauses | src/utils/summarization.util.ts:78-116 | a prompt is the lead, then the instructions clause when custom instructions are present, else the length/style/language clause, then the text section |
| SummarizationUtil.InstructionsPrompt | src/utils/summarization.util.ts:82-91 | with custom instructions the template is the lead, then the language when it is not DEFAULT, then the requirements phrase and the instructions |
| SummarizationUtil.StandardPrompt | src/utils/summarization.util.ts:93-111 | without custom instructions the template is the lead, then the length, the optional style clause, the optional language clause and the closing sentence |
| SummarizationUtil.PlainTemplate | src/utils/summarization.util.ts:93-98 | DEFAULT format and language: only the length is named, then the focus sentence |
| SummarizationUtil.LanguageTemplate | src/utils/summarization.util.ts:99-103 | DEFAULT format, other language: length and language are named |
| SummarizationUtil.StyleTemplate | src/utils/summarization.util.ts:104-108 | other format, DEFAULT language: length and style are named |
| SummarizationUtil.StyleLanguageTemplate | src/utils/summarization.util.ts:109-110 | other format and language: length, style and language are named |
| SummarizationUtil.PromptFrame | src/utils/summarization.util.ts:86-113 | every prompt starts with "Summarize the following text" and ends with the text section holding the whole text |
| SummarizationUtil.InstructionsOverrideLengthAndFormat | src/utils/summarization.util.ts:82-91 | with custom instructions the prompt contains them and does not depend on length or format |
| SummarizationUtil.InstructionsContained | src/utils/summarization.util.ts:82-91 | the custom instructions occur in the prompt, after the lead, the optional language and the requirements phrase |
| SummarizationUtil.InstructionsNameLanguage | src/utils/summarization.util.ts:82-91 | with custom instructions the prompt names the language iff the language is not DEFAULT |
| SummarizationUtil.PromptWithoutInstructionsUsesOnlyLengthFormatLang | src/utils/summarization.util.ts:93-111 | without custom instructions the prompt depends only on length, format and language |
| SummarizationUtil.Completed | src/utils/summarization.util.ts:153-163 | a completion gives its first choice's content, or "Could not generate a summary." when that is empty or missing; a provider error becomes "Failed to summarize text: " + message |
| SummarizationUtil.SummarizeWithOpenAi | src/utils/summarization.util.ts:126-164 | one gpt-4o request with the utility system prompt; a completion gives its first choice, or "Could not generate a summary." when that is empty; a provider error becomes "Failed to summarize text: " + its message |
| SummarizationUtil.SummarizeWithDeepSeek | src/utils/summarization.util.ts:174-205 | one deepseek-chat request with the utility system prompt; a completion gives its first choice, or the fallback when that is empty; a provider error becomes "Failed to summarize text: " + its message |
| VideoUtil.IsValidYouTubeUrlMeansShape | src/utils/video.util.ts:9-12 | a URL is valid iff it is an optional scheme, an optional `www.`, a YouTube host, `/` and at least one more character |
| VideoUtil.ExtractVideoId | src/utils/video.util.ts:19-32 | a found id has 11 characters, each from [A-Za-z0-9_-] |
| VideoUtil.Search | src/utils/video.util.ts:20-29 | a pattern's match is the leftmost index at which it matches, and none means no index matches |
| VideoUtil.ExtractVideoIdIsFirstPattern | src/utils/video.util.ts:20-29 | trying the patterns in order gives the first pattern's id; an id is found iff that pattern matches somewhere |
| VideoUtil.LaterPatternsSubsumed | src/utils/video.util.ts:20-29 | wherever a later pattern matches, the first pattern matches too |
| VideoUtil.ExtractedIdInContext | src/utils/video.util.ts:20-29 | a found id follows `v=` or `/` in the URL and is followed by `?`, `&`, `/` or the end |
| VideoUtil.ExtractYouTubeVideoMetadata | src/utils/video.util.ts:53-85 | never fails; with no id nothing is fetched and all three fields are null; the fields are all null or all set; on success the thumbnail is the `hqdefault.jpg` URL of the id and a missing title or author becomes "Unknown Title" or "Unknown Channel" |
| VideoUtil.FetchYouTubeTranscript | src/utils/video.util.ts:99-129 | fails iff the fetch throws, with the "Could not fetch transcript from YouTube: " prefix |
| VideoUtil.FetchYouTubeTranscriptIsWordPrefix | src/utils/video.util.ts:118-123 | the transcript is the first at most 375 whitespace-separated words of the space-joined segments, joined by single spaces, a prefix of the whole |
| ApiKeyUtil.GetApiKey | src/utils/api-key.util.ts:10-14 | a non-empty user key wins; otherwise a non-empty default; otherwise BadRequest "API key is required"; a returned key is non-empty and one of the two inputs |
| S3Util.CheckS3Config | src/utils/s3.util.ts:103-113 | fails iff the bucket, access key id or secret key is missing or empty |
| S3Util.Region | src/utils/s3.util.ts:122-126 | the configured region, or "us-east-1" when it is missing or empty |
| S3Util.GetS3Url | src/utils/s3.util.ts:122-126 | the URL is the bucket's regional endpoint followed by the object key `{folder}/{fileName}` |
| S3Util.AudioDirIsAudiosFolder | src/utils/s3.util.ts:134-138 | the audio directory plus a file name is the URL of that file in the `audios` folder |
| S3Util.UploadFileToS3 | src/utils/s3.util.ts:38-63 | a bad configuration fails before any call; otherwise the file is read and put under `{folder}/{fileName}`; when both succeed the result is that object's URL; a read or put failure is "Failed to upload file to S3: " + its message; only storage calls are made |
| S3Util.UploadTTSAudioToS3 | src/utils/s3.util.ts:72-80 | speech audio goes to `audios` as audio/mpeg, and the URL is the audio directory plus the file name |
| S3Util.UploadDownloadedAudioToS3 | src/utils/s3.util.ts:89-97 | downloaded audio goes to `downloads` as audio/mpeg |
| TtsUtil.ConvertTextToSpeech | src/utils/tts.util.ts:25-59 | the speech is written to the download directory as `<name>.mp3`; without S3 the result is the local public URL and nothing is uploaded; with S3 a failed upload falls back to the local URL; only a speech or write failure is an error, BadRequest "Failed to generate audio" |
| FilesUtil.LastDot | src/utils/files.util.ts:113 | the index of the last `.`, with no `.` after it; none iff there is no `.` |
| FilesUtil.Extname | src/utils/files.util.ts:113 | the extension runs from the last `.` of the base name to its end; it is empty exactly when the base name is `..` or has no `.` after its first character |
| FilesUtil.ExtnameOfStemAndExtension | src/utils/files.util.ts:113 | the extension of `stem + ".ext"` is `.ext` |
| FilesUtil.ExtractTextFromPdf | src/utils/files.util.ts:17-27 | succeeds iff the parser does; otherwise BadRequest "Failed to extract text from PDF." |
| FilesUtil.ExtractTextFromDocx | src/utils/files.util.ts:35-47 | succeeds iff the parser does; otherwise BadRequest "Failed to extract text from DOCX." |
| FilesUtil.ExtractTextFromFile | src/utils/files.util.ts:110-130 | `.txt` decodes the buffer as UTF-8, `.pdf` and `.docx` go to their extractors, and any other extension (exactly those) gives UnsupportedMediaType |
| FilesUtil.TxtExtensionIgnoresCase | src/utils/files.util.ts:113-117 | a `.TXT` file is read as text |
| FilesUtil.PdfExtensionIgnoresCase | src/utils/files.util.ts:113-120 | a `.Pdf` file goes to the PDF extractor |
| FilesUtil.GenerateAudioFilenameShape | src/utils/files.util.ts:53-58 | the name is the ISO date without its dashes, `_`, and at most 8 characters of the random base-36 string |
| FilesUtil.Swept | src/utils/files.util.ts:70-80 | after a sweep exactly the entries older than the maximum age are gone, except those whose deletion failed; nothing else changes |
| FilesUtil.Directory.CleanupOldFiles | src/utils/files.util.ts:65-88 | the loop over the entries leaves the directory equal to `Swept` of the old one; an unreadable directory is left alone; it never fails |
| FilesUtil.Directory.CleanUpFile | src/utils/files.util.ts:90-96 | removes the file, or leaves the directory as it was when the unlink fails, and never fails |
| ApiKeyGuard.BearerToken | src/summarization/guards/api-key.guard.ts:16-25 | Unauthorized "Missing API key" iff the header is absent, empty or does not start with "Bearer "; otherwise "Invalid API key" or a non-empty token drawn from the header |
| ApiKeyGuard.BearerTokenIsFirstWord | src/summarization/guards/api-key.guard.ts:21-25 | the token is the word after "Bearer ", trimmed; whatever follows the next space is ignored; an empty word is an invalid key |
| ApiKeyGuard.ApiKeyGuard.constructor | src/summarization/guards/api-key.guard.ts:6 | the allowed origin is the environment's, or "http://localhost:3000" |
| ApiKeyGuard.ApiKeyGuard.CanActivate | src/summarization/guards/api-key.guard.ts:6-29 | the allowed origin passes with no key attached; otherwise the token is attached and the answer is true, or the token error is raised; never false |
| SummarizationService.Provider | src/summarization/summarization.service.ts:337-343 | DeepSeek iff the model is DEEPSEEK |
| SummarizationService.ServiceRequest | src/summarization/summarization.service.ts:363-431 | the service's adapters send gpt-4o or deepseek-chat with its short system prompt and 150 tokens |
| SummarizationService.ServicePromptShape | src/summarization/summarization.service.ts:326-333 | the service prompt names the defaulted length, then the style and language clauses, then the whole text |
| SummarizationService.ServicePromptWithoutOptions | src/summarization/summarization.service.ts:326-333 | with no options the style template is taken, with the DEFAULT format and language |
| SummarizationService.ServicePromptWithDefaultedOptions | src/summarization/summarization.service.ts:326-333 | defaulted empty options give the plain template with the standard length |
| SummarizationService.TrimmedTexts | src/summarization/summarization.service.ts:148-150 | the kept items are never empty and never more than the input items |
| SummarizationService.TrimmedTextsOfOne | src/summarization/summarization.service.ts:148-150 | one item gives its trimmed text when that is not empty, and nothing otherwise |
| SummarizationService.TrimmedTextsAppend | src/summarization/summarization.service.ts:148-150 | trimming and filtering distribute over concatenation, so the result is the non-empty trimmed items in their order |
| SummarizationService.TruncatedTranscriptIsWordPrefix | src/summarization/summarization.service.ts:148-155 | the truncated transcript is a prefix made of the first at most 3750 `' '`-pieces, and is the whole transcript when it has no more |
| SummarizationService.TranscriptPathError | src/summarization/summarization.service.ts:118-130 | a message containing `401` becomes "The api key you provided is invalid"; other errors that are not "transcript not available" become the network message; always BadRequest |
| SummarizationService.Rethrown | src/summarization/summarization.service.ts:139-142 | the outer catch re-raises the message as BadRequest |
| SummarizationService.AudioPathError | src/summarization/summarization.service.ts:185-189 | audio-path errors are plain and carry the "Failed to summarize video using audio: " prefix |
| SummarizationService.KeyErrorRelabelled | src/summarization/summarization.service.ts:118-128 | the missing-key error does not mention `401`, so the transcript path reports it as the network message |
| SummarizationService.ChatErrorRelabelled | src/summarization/summarization.service.ts:118-128 | the adapters' prefix adds no `401`: a chat error is the invalid-key message exactly when the provider's message mentions `401` |
| SummarizationService.FetchErrorRelabelled | src/summarization/summarization.service.ts:118-128 | the fetch prefix adds no `401`, and the "not available" kind is lost: a fetch error is the invalid-key message exactly when its message mentions `401`, the network message otherwise |
| SummarizationService.Contains401AfterPrefix | src/summarization/summarization.service.ts:119 | behind a prefix without a `4`, a message contains `401` exactly when the message itself does |
| SummarizationService.TranscriptPathMessage | src/summarization/summarization.service.ts:119-128 | the invalid-key and network messages are not the "no transcript" message |
| SummarizationService.SummarizationService.SummarizeWithOpenAi | src/summarization/summarization.service.ts:363-401 | one chat call with the OpenAI request; the empty-reply fallback and the error prefix of `Completed` |
| SummarizationService.SummarizationService.SummarizeWithDeepSeek | src/summarization/summarization.service.ts:403-431 | one chat call with the DeepSeek request; the empty-reply fallback and the error prefix of `Completed` |
| SummarizationService.SummarizationService.SummarizeWithProvider | src/summarization/summarization.service.ts:337-343 | the DEEPSEEK model uses the DeepSeek key and adapter, anything else OpenAI; a missing key fails before any call |
| SummarizationService.SummarizationService.TextOutcome | src/summarization/summarization.service.ts:312-361 | a user key with listen and a non-OpenAI model is refused before any call; a missing provider key fails before any call; otherwise one chat request with the service prompt is sent; a chat error fails with the prefixed provider message; a completion without listen gives the summary and the text; with listen an OpenAI key is required, and the speech URL is added or the request fails with BadRequest "Failed to generate audio"; a success echoes the text, has a non-empty summary and an audio path iff listen is set |
| SummarizationService.SummarizationService.SummarizeText | src/summarization/summarization.service.ts:312-361 | the method equals `TextOutcome`: the speech policy, the provider call, and the speech step when listen is set |
| SummarizationService.SummarizationService.Speak | src/summarization/summarization.service.ts:345-360 | speech uses the user's key or the OpenAI default, and its result is a non-empty URL or a BadRequest |
| SummarizationService.SummarizationService.FetchYouTubeTranscript | src/summarization/summarization.service.ts:145-161 | the result is the truncated transcript of the trimmed items; every failure, "not available" included, becomes a plain error with the transcript prefix |
| SummarizationService.SummarizationService.DownloadAudio | src/summarization/summarization.service.ts:224-259 | yt-dlp writes into the download directory; success returns that path, failure "Failed to download audio" |
| SummarizationService.SummarizationService.TranscribeAudio | src/summarization/summarization.service.ts:267-303 | Whisper runs with the user's key or the OpenAI default; a missing key fails before any call and without the prefix; a Whisper failure is "Failed to transcribe audio: " + its message |
| SummarizationService.SummarizationService.SummarizeYouTubeVideoUsingAudio | src/summarization/summarization.service.ts:163-190 | the method equals `AudioOutcome` |
| SummarizationService.SummarizationService.SummarizeDownloadedAudio | src/summarization/summarization.service.ts:172-189 | the method equals `DownloadedAudioOutcome` |
| SummarizationService.SummarizationService.SummarizeFromTranscript | src/summarization/summarization.service.ts:99-130 | the method equals `TranscriptOutcome` |
| SummarizationService.SummarizationService.DownloadedAudioOutcome | src/summarization/summarization.service.ts:172-189 | after the download: a missing OpenAI key fails before any call; Whisper runs first; its failure, a failure of `summarizeText` on the transcript, or the missing key gets the audio prefix; a success holds the whole text summary of Whisper's transcript, the transcript, the metadata of the URL and the audio path when it is not empty; no transcript is fetched |
| SummarizationService.SummarizationService.AudioOutcome | src/summarization/summarization.service.ts:163-190 | the download comes first; a failed download is "Failed to summarize video using audio: Failed to download audio"; otherwise the rest follows at the downloaded file, whose path is the success's audio path; every failure has the audio prefix; no transcript is fetched |
| SummarizationService.SummarizationService.TranscriptOutcome | src/summarization/summarization.service.ts:99-130 | the transcript is fetched first; a success holds the truncated transcript of the fetched items and a non-empty summary; every failure is BadRequest "The api key you provided is invalid" or the network message; no audio is downloaded or transcribed |
| SummarizationService.SummarizationService.TranscriptFetchRelabelling | src/summarization/summarization.service.ts:118-128 | a failed fetch ends the path with no other call, reported as the invalid-key message when its error mentions `401` and as the network message otherwise, "not available" included |
| SummarizationService.SummarizationService.TranscriptChatRelabelling | src/summarization/summarization.service.ts:99-128 | after a fetched transcript a missing key is a network problem; a chat error is the invalid-key message exactly when the provider's message mentions `401`; a completion without listen gives the summary, the transcript and the URL's metadata |
| SummarizationService.SummarizationService.SummarizeYouTubeVideo | src/summarization/summarization.service.ts:68-143 | an invalid URL is rejected before any call, then the slow-mode policy on the defaulted options; FAST with an id in the URL equals `TranscriptOutcome`, anything else equals `AudioOutcome`; the "no transcript" message never appears |
| SummarizationService.SummarizationService.SummarizeFile | src/summarization/summarization.service.ts:199-216 | extraction errors pass through before any call; blank text is rejected with "Could not extract text from the file."; otherwise the text is summarized with the defaulted options |
| SummarizationService.AudioPathMessage | src/summarization/summarization.service.ts:133-138 | an audio-path failure never carries the "no transcript" message |
| TranscribeApi.EnableCache | src/python/transcribe_api/transcribe_api.py:37 | caching is on when the variable is unset or equals "true" ignoring case |
| TranscribeApi.ResponseOf | src/python/transcribe_api/transcribe_api.py:141-155 | the text is the segments joined by single spaces (and splitting it gives them back when no segment holds a space); language, probability and processing time are copied |
| TranscribeApi.Insert | src/python/transcribe_api/transcribe_api.py:157-163 | insertion keeps the cache well formed and within `MAX_CACHE_ITEMS` |
| TranscribeApi.Store | src/python/transcribe_api/transcribe_api.py:159 | storing keeps the cache well formed and adds one entry exactly when the key is new |
| TranscribeApi.EvictOldest | src/python/transcribe_api/transcribe_api.py:160-162 | removing the first key keeps the cache well formed and one entry smaller |
| TranscribeApi.InsertWithRoom | src/python/transcribe_api/transcribe_api.py:158-159 | a new key below the bound is appended and nothing else changes |
| TranscribeApi.InsertEvictsOldest | src/python/transcribe_api/transcribe_api.py:158-163 | a new key at the bound evicts exactly the oldest entry; the others keep their values and order |
| TranscribeApi.InsertStoresValue | src/python/transcribe_api/transcribe_api.py:157-163 | after insertion with room for one entry, the key maps to the new response |
| TranscribeApi.InsertIntoNoRoom | src/python/transcribe_api/transcribe_api.py:160-162 | with a bound below one, the inserted entry is evicted at once |
| TranscribeApi.TranscriptionServer.StartLoading | src/python/transcribe_api/transcribe_api.py:56-59 | loading starts; model, error and cache are unchanged |
| TranscribeApi.TranscriptionServer.FinishLoading | src/python/transcribe_api/transcribe_api.py:61-74 | loading ends; success stores the model and clears the error; failure keeps the model and sets "Failed to load model: " + message |
| TranscribeApi.TranscriptionServer.LoadModel | src/python/transcribe_api/transcribe_api.py:56-74 | a whole load leaves loading false with the outcome's model or error |
| TranscribeApi.TranscriptionServer.HealthCheck | src/python/transcribe_api/transcribe_api.py:85-93 | reports the model loaded iff there is one, with the loading flag and error |
| TranscribeApi.TranscriptionServer.TranscribeAudio | src/python/transcribe_api/transcribe_api.py:96-175 | 503 while loading, then 500 on a load error, neither touching the cache; a cache hit returns the stored response unchanged; a miss transcribes, inserts on success and leaves the cache alone on failure (500 "Error processing transcription: "); the temporary file is always removed; without caching the cache never changes |
| TranscribeApi.TranscriptionServer.TranscribeMiss | src/python/transcribe_api/transcribe_api.py:119-175 | after a miss one temporary file is written and removed; no model or a failure answers 500 with the cache unchanged; a success answers the response and caches it |
| TranscribeApi.TranscriptionServer.CacheResponse | src/python/transcribe_api/transcribe_api.py:157-163 | with caching on the cache becomes `Insert` of the old one, otherwise it is unchanged; the bound is kept |

## Left out

- Network, file-system and process I/O: every collaborator is an abstract function in `Effects`.
- Logging, timing and the `processing_time` duration, which comes from the clock and is passed in as a parameter.
- Concurrency: the background loading thread and FastAPI's async handlers; loading is a sequential state machine.
- `Math.random` and `new Date()` in `generateAudioFilename`: the ISO date and the random base-36 string are parameters.
- The `@Cron` schedule of `handleFileCleanup`, `ensureDownloadDirectory` and the directory creation in constructors; the sweep itself is `Directory.CleanupOldFiles`.
- MD5 hashing is an abstract function of the file bytes; temporary files are reduced to counters of written and removed files.
- Reading numbers from the environment: the defaults of `src/utils/constants.ts` are fixed parameters and `MAX_CACHE_ITEMS` is an integer field.
- `toLowerCase` and `lower()` are modelled for ASCII letters only.
- `path.extname` is modelled for `/`-separated names with no normalisation of `..` or Windows separators.
- Option values that are not enum strings (numbers, objects) are `Stray` values that carry their rendering and their JavaScript truthiness; other coercions are not modelled.
- `sttModel` is carried through but chooses nothing: the service always transcribes with Whisper.
- The service's private `extractTextFromFile` is the utility's dispatch (`FilesUtil.ExtractTextFromFile`), which it repeats.
- The service's private `convertTextToSpeech` is assumed to behave as the utility's (`TtsUtil.ConvertTextToSpeech`). As written it differs in two places: it reads `process.env.USE_S3` at call time instead of the constant of `src/utils/constants.ts` (the model reads one `useS3` flag for both), and it calls `uploadAudioToS3`, which `src/utils/s3.util.ts` does not export; the model uses `uploadTTSAudioToS3` there.
- The service imports `extractVideoId`, `extractYouTubeVideoMetadata`, `getApiKey` and `isValidYouTubeUrl` from `src/utils/summarization.util.ts`, which does not export them; the model uses the definitions of `src/utils/video.util.ts` and `src/utils/api-key.util.ts`.
- SummarizationService.SummarizationService.TranscriptChatRelabelling: on the transcript path the speech policy message, a missing OpenAI key for speech and a speech failure are also judged by the `401` rule; the model proves that each ends as the invalid-key or the network message (`TranscriptOutcome`) but not which, since those long literal messages are costly to search for `401`.
- The controller, `main.ts`, the NestJS modules, DTOs, validation pipes and `transcription.util.ts`, which hold no logic of their own beyond framework plumbing and client calls.
- The older `src/python/transcribe_api.py`: the model follows `src/python/transcribe_api/transcribe_api.py`.
- TranscribeApi.InsertWithRoom: states the insertion below the bound, which the verifier derives from `Insert`'s definition without further proof.
