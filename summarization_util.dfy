/**
 * Option defaulting and repair, prompt rendering and the chat adapters of
 * `src/utils/summarization.util.ts`.
 */
module SummarizationUtil {
  import opened Outcomes
  import opened Strings
  import opened Options
  import opened Effects
  import opened Constants

  // ---------------------------------------------------------------------------
  // getSummarizationOptions

  /** Every field present and `listen` set: what `getSummarizationOptions` returns. */
  predicate Resolved(o: Options) {
    !o.length.Absent? && !o.format.Absent? && !o.model.Absent? && !o.speed.Absent?
    && !o.lang.Absent? && !o.sttModel.Absent? && !o.listen.Unset?
  }

  /** Absent fields take their defaults; present fields, valid or not, are kept; `customInstructions` passes through. */
  function GetSummarizationOptions(o: Options): (r: Options)
    ensures Resolved(r)
    ensures r.customInstructions == o.customInstructions
    ensures o.length.Absent? ==> r.length == Member(Standard)
    ensures o.format.Absent? ==> r.format == Member(Format.Default)
    ensures o.model.Absent? ==> r.model == Member(Model.Default)
    ensures o.speed.Absent? ==> r.speed == Member(Speed.Default)
    ensures o.lang.Absent? ==> r.lang == Member(Language.Default)
    ensures o.sttModel.Absent? ==> r.sttModel == Member(SttModel.Default)
    ensures o.listen.Unset? ==> r.listen == Bool(false)
    ensures !o.length.Absent? ==> r.length == o.length
    ensures !o.format.Absent? ==> r.format == o.format
    ensures !o.model.Absent? ==> r.model == o.model
    ensures !o.speed.Absent? ==> r.speed == o.speed
    ensures !o.lang.Absent? ==> r.lang == o.lang
    ensures !o.sttModel.Absent? ==> r.sttModel == o.sttModel
    ensures !o.listen.Unset? ==> r.listen == o.listen
  {
    Options(
      if o.length.Absent? then Member(Standard) else o.length,
      if o.format.Absent? then Member(Format.Default) else o.format,
      if o.listen.Unset? then Bool(false) else o.listen,
      if o.model.Absent? then Member(Model.Default) else o.model,
      if o.speed.Absent? then Member(Speed.Default) else o.speed,
      if o.lang.Absent? then Member(Language.Default) else o.lang,
      if o.sttModel.Absent? then Member(SttModel.Default) else o.sttModel,
      o.customInstructions)
  }

  /** Defaulting changes a record exactly when some field is missing. */
  lemma GetSummarizationOptionsFixedPoint(o: Options)
    ensures GetSummarizationOptions(o) == o <==> Resolved(o)
  {
  }

  lemma GetSummarizationOptionsIdempotent(o: Options)
    ensures GetSummarizationOptions(GetSummarizationOptions(o)) == GetSummarizationOptions(o)
  {
    GetSummarizationOptionsFixedPoint(GetSummarizationOptions(o));
  }

  // ---------------------------------------------------------------------------
  // validateSummarizationOptions

  /** A value that is truthy and not a member of its enum. */
  predicate InvalidTruthy<T>(f: Field<T>) {
    f.Stray? && f.truthy
  }

  /** What validation guarantees: no truthy non-member in length/format/model/speed, and a boolean `listen`. */
  predicate Sanitized(o: Options) {
    !InvalidTruthy(o.length) && !InvalidTruthy(o.format) && !InvalidTruthy(o.model)
    && !InvalidTruthy(o.speed) && o.listen.Bool?
  }

  function Repair<T>(f: Field<T>, d: T): Field<T> {
    if InvalidTruthy(f) then Member(d) else f
  }

  /** The record as `validateSummarizationOptions` leaves it. */
  function Validated(o: Options): (r: Options)
    ensures Sanitized(r)
    ensures r.lang == o.lang && r.sttModel == o.sttModel && r.customInstructions == o.customInstructions
    ensures InvalidTruthy(o.length) ==> r.length == Member(Standard)
    ensures InvalidTruthy(o.format) ==> r.format == Member(Format.Default)
    ensures InvalidTruthy(o.model) ==> r.model == Member(Model.Default)
    ensures InvalidTruthy(o.speed) ==> r.speed == Member(Speed.Default)
    ensures !InvalidTruthy(o.length) ==> r.length == o.length
    ensures !InvalidTruthy(o.format) ==> r.format == o.format
    ensures !InvalidTruthy(o.model) ==> r.model == o.model
    ensures !InvalidTruthy(o.speed) ==> r.speed == o.speed
    ensures o.listen.Bool? ==> r.listen == o.listen
    ensures !o.listen.Bool? ==> r.listen == Bool(false)
  {
    o.(length := Repair(o.length, Standard),
       format := Repair(o.format, Format.Default),
       model := Repair(o.model, Model.Default),
       speed := Repair(o.speed, Speed.Default),
       listen := if o.listen.Bool? then o.listen else Bool(false))
  }

  /** Validation changes a record exactly when it is not already sanitized. */
  lemma ValidatedFixedPoint(o: Options)
    ensures Validated(o) == o <==> Sanitized(o)
  {
  }

  lemma ValidatedIdempotent(o: Options)
    ensures Validated(Validated(o)) == Validated(o)
  {
    ValidatedFixedPoint(Validated(o));
  }

  /** The options object `validateSummarizationOptions` repairs in place. */
  class OptionsRecord {
    var length: Field<Length>
    var format: Field<Format>
    var listen: Flag
    var model: Field<Model>
    var speed: Field<Speed>
    var lang: Field<Language>
    var sttModel: Field<SttModel>
    var customInstructions: Option<string>

    function Value(): Options
      reads this
    {
      Options(length, format, listen, model, speed, lang, sttModel, customInstructions)
    }

    constructor (o: Options)
      ensures Value() == o
    {
      length, format, listen, model := o.length, o.format, o.listen, o.model;
      speed, lang, sttModel, customInstructions := o.speed, o.lang, o.sttModel, o.customInstructions;
    }

    /** `validateSummarizationOptions(this)` */
    method Validate()
      modifies this
      ensures Value() == Validated(old(Value()))
    {
      if InvalidTruthy(length) {
        length := Member(Standard);
      }
      if InvalidTruthy(format) {
        format := Member(Format.Default);
      }
      if InvalidTruthy(model) {
        model := Member(Model.Default);
      }
      if InvalidTruthy(speed) {
        speed := Member(Speed.Default);
      }
      if !listen.Bool? {
        listen := Bool(false);
      }
    }
  }

  // ---------------------------------------------------------------------------
  // preparePrompt

  // The fragments the templates are built from.
  const Lead := "Summarize the following text"
  const InA := " in a "
  const LengthWord := " length"
  const CommaIn := ", in "
  const In := " in "
  const StyleWord := " style"
  const Focus := ". Focus on the key points, main arguments, and important details. Ensure the summary is coherent and complete"
  const Requirements := " based on these special requirements: "

  /** The block appended to every prompt. */
  function TextSection(text: string): string {
    "\n\nText to summarize:\n" + text
  }

  /** `options?.lang === SummarizationLanguage.DEFAULT` on the raw options. */
  predicate IsDefaultLang(o: Options) {
    o.lang == Member(Language.Default)
  }

  /** `options?.format === SummaryFormat.DEFAULT` on the raw options. */
  predicate IsDefaultFormat(o: Options) {
    o.format == Member(Format.Default)
  }

  /** The length, format and language as rendered from the defaulted options. */
  function LengthOf(o: Options): string {
    FieldText(GetSummarizationOptions(o).length, LengthText)
  }

  function FormatOf(labels: DefaultLabels, o: Options): string {
    FieldText(GetSummarizationOptions(o).format, (f: Format) => FormatText(labels, f))
  }

  function LangOf(labels: DefaultLabels, o: Options): string {
    FieldText(GetSummarizationOptions(o).lang, (l: Language) => LanguageText(labels, l))
  }

  /**
   * `preparePrompt(options, text)`: one of six templates chosen on the raw
   * options, then the text block.
   */
  function PreparePrompt(labels: DefaultLabels, o: Options, text: string): string {
    Template(labels, o) + TextSection(text)
  }

  /**
   * The six templates: custom instructions first, then whether format and
   * language are DEFAULT, filled with the defaulted values.
   */
  function Template(labels: DefaultLabels, o: Options): string {
    if HasInstructions(o) then InstructionsTemplate(labels, o) else StandardTemplate(labels, o)
  }

  /** The two custom-instructions templates: with and without the language. */
  function InstructionsTemplate(labels: DefaultLabels, o: Options): string
    requires HasInstructions(o)
  {
    if IsDefaultLang(o) then
      Lead + Requirements + o.customInstructions.value
    else
      Lead + In + LangOf(labels, o) + Requirements + o.customInstructions.value
  }

  /** The four standard templates, chosen on whether format and language are DEFAULT. */
  function StandardTemplate(labels: DefaultLabels, o: Options): string {
    var length, format, lang := LengthOf(o), FormatOf(labels, o), LangOf(labels, o);
    if IsDefaultFormat(o) && IsDefaultLang(o) then
      Lead + InA + length + LengthWord + Focus
    else if IsDefaultFormat(o) && !IsDefaultLang(o) then
      Lead + InA + length + LengthWord + CommaIn + lang + Focus
    else if !IsDefaultFormat(o) && IsDefaultLang(o) then
      Lead + InA + length + LengthWord + CommaIn + format + StyleWord + Focus
    else
      Lead + InA + length + LengthWord + CommaIn + format + StyleWord + In + lang + Focus
  }

  /** The style clause: present exactly when the format is not DEFAULT. */
  function StyleClause(labels: DefaultLabels, o: Options): string {
    if IsDefaultFormat(o) then "" else CommaIn + FormatOf(labels, o) + StyleWord
  }

  /** The language clause: present exactly when the language is not DEFAULT; after a style clause it has no comma. */
  function LanguageClause(labels: DefaultLabels, o: Options): string {
    if IsDefaultLang(o) then "" else (if IsDefaultFormat(o) then CommaIn else In) + LangOf(labels, o)
  }

  /** The part of a custom-instructions prompt after the lead: the language only when it is not DEFAULT, then the instructions. */
  function InstructionsClause(labels: DefaultLabels, o: Options): string
    requires HasInstructions(o)
  {
    (if IsDefaultLang(o) then "" else In + LangOf(labels, o)) + Requirements + o.customInstructions.value
  }

  /** The part of a standard prompt after the lead: length, optional style, optional language, closing sentence. */
  function StandardClause(labels: DefaultLabels, o: Options): string {
    InA + LengthOf(o) + LengthWord + StyleClause(labels, o) + LanguageClause(labels, o) + Focus
  }

  /**
   * The six templates as one clause grammar: every prompt is the lead, then
   * the instructions clause or the standard clause, then the text block.
   */
  lemma PromptByClauses(labels: DefaultLabels, o: Options, text: string)
    ensures HasInstructions(o) ==>
      PreparePrompt(labels, o, text) == Lead + InstructionsClause(labels, o) + TextSection(text)
    ensures !HasInstructions(o) ==>
      PreparePrompt(labels, o, text) == Lead + StandardClause(labels, o) + TextSection(text)
  {
    if HasInstructions(o) {
      InstructionsPrompt(labels, o);
    } else {
      StandardPrompt(labels, o);
    }
  }

  lemma InstructionsPrompt(labels: DefaultLabels, o: Options)
    requires HasInstructions(o)
    ensures Template(labels, o) == Lead + InstructionsClause(labels, o)
  {
    var ci := o.customInstructions.value;
    if IsDefaultLang(o) {
      Group([], Lead, Requirements, ci);
    } else {
      Group(In + LangOf(labels, o), Lead, Requirements, ci);
    }
  }

  lemma Group(x: string, a: string, r: string, c: string)
    ensures a + x + r + c == a + (x + r + c)
    ensures x == [] ==> a + r + c == a + (x + r + c)
  {
  }

  lemma StandardPrompt(labels: DefaultLabels, o: Options)
    requires !HasInstructions(o)
    ensures Template(labels, o) == Lead + StandardClause(labels, o)
  {
    var b := InA + LengthOf(o) + LengthWord;
    var style, language := StyleClause(labels, o), LanguageClause(labels, o);
    assert StandardClause(labels, o) == b + style + language + Focus;
    Regroup(Lead, b, style, language, Focus);
    if IsDefaultFormat(o) && IsDefaultLang(o) {
      PlainTemplate(labels, o);
    } else if IsDefaultFormat(o) {
      LanguageTemplate(labels, o);
    } else if IsDefaultLang(o) {
      StyleTemplate(labels, o);
    } else {
      StyleLanguageTemplate(labels, o);
    }
  }

  lemma PlainTemplate(labels: DefaultLabels, o: Options)
    requires !HasInstructions(o) && IsDefaultFormat(o) && IsDefaultLang(o)
    ensures Template(labels, o)
      == Lead + (InA + LengthOf(o) + LengthWord) + StyleClause(labels, o) + LanguageClause(labels, o) + Focus
  {
    assert StyleClause(labels, o) == [] && LanguageClause(labels, o) == [];
    Shapes(Lead, InA, LengthOf(o), LengthWord, CommaIn, "", "", "", "", Focus);
  }

  lemma LanguageTemplate(labels: DefaultLabels, o: Options)
    requires !HasInstructions(o) && IsDefaultFormat(o) && !IsDefaultLang(o)
    ensures Template(labels, o)
      == Lead + (InA + LengthOf(o) + LengthWord) + StyleClause(labels, o) + LanguageClause(labels, o) + Focus
  {
    assert StyleClause(labels, o) == [];
    assert LanguageClause(labels, o) == CommaIn + LangOf(labels, o);
    Shapes(Lead, InA, LengthOf(o), LengthWord, CommaIn, LangOf(labels, o), "", "", "", Focus);
  }

  lemma StyleTemplate(labels: DefaultLabels, o: Options)
    requires !HasInstructions(o) && !IsDefaultFormat(o) && IsDefaultLang(o)
    ensures Template(labels, o)
      == Lead + (InA + LengthOf(o) + LengthWord) + StyleClause(labels, o) + LanguageClause(labels, o) + Focus
  {
    assert StyleClause(labels, o) == CommaIn + FormatOf(labels, o) + StyleWord;
    assert LanguageClause(labels, o) == [];
    Shapes(Lead, InA, LengthOf(o), LengthWord, CommaIn, FormatOf(labels, o), StyleWord, "", "", Focus);
  }

  lemma StyleLanguageTemplate(labels: DefaultLabels, o: Options)
    requires !HasInstructions(o) && !IsDefaultFormat(o) && !IsDefaultLang(o)
    ensures Template(labels, o)
      == Lead + (InA + LengthOf(o) + LengthWord) + StyleClause(labels, o) + LanguageClause(labels, o) + Focus
  {
    assert StyleClause(labels, o) == CommaIn + FormatOf(labels, o) + StyleWord;
    assert LanguageClause(labels, o) == In + LangOf(labels, o);
    Shapes(Lead, InA, LengthOf(o), LengthWord, CommaIn, FormatOf(labels, o), StyleWord, In, LangOf(labels, o), Focus);
  }

  /** The four standard templates regrouped as lead, length part, style clause, language clause, closing sentence. */
  lemma Shapes(a: string, i: string, l: string, w: string, c: string, g: string, s: string, n: string, h: string, f: string)
    ensures a + i + l + w + f == a + (i + l + w) + [] + [] + f
    ensures a + i + l + w + c + g + f == a + (i + l + w) + [] + (c + g) + f
    ensures a + i + l + w + c + g + s + f == a + (i + l + w) + (c + g + s) + [] + f
    ensures a + i + l + w + c + g + s + n + h + f == a + (i + l + w) + (c + g + s) + (n + h) + f
  {
  }

  lemma Regroup(lead: string, b: string, s: string, l: string, f: string)
    ensures lead + (b + s + l + f) == lead + b + s + l + f
  {
  }

  /** Every prompt starts with the lead and ends with the text block, verbatim. */
  lemma PromptFrame(labels: DefaultLabels, o: Options, text: string)
    ensures StartsWith(PreparePrompt(labels, o, text), Lead)
    ensures EndsWith(PreparePrompt(labels, o, text), TextSection(text))
  {
    PromptByClauses(labels, o, text);
    var mid := if HasInstructions(o) then InstructionsClause(labels, o) else StandardClause(labels, o);
    var p := Lead + mid + TextSection(text);
    assert p[..|Lead|] == Lead;
    assert p[|p| - |TextSection(text)|..] == TextSection(text);
  }

  /** With custom instructions the prompt embeds them and does not depend on length, format or any other option but the language. */
  lemma InstructionsOverrideLengthAndFormat(labels: DefaultLabels, o: Options, o': Options, text: string)
    requires HasInstructions(o) && o'.customInstructions == o.customInstructions && o'.lang == o.lang
    ensures PreparePrompt(labels, o, text) == PreparePrompt(labels, o', text)
    ensures Contains(PreparePrompt(labels, o, text), o.customInstructions.value)
  {
    InstructionsPrompt(labels, o);
    InstructionsPrompt(labels, o');
    assert LangOf(labels, o) == LangOf(labels, o') by {
      assert GetSummarizationOptions(o).lang == GetSummarizationOptions(o').lang;
    }
    assert InstructionsClause(labels, o) == InstructionsClause(labels, o');
    InstructionsContained(labels, o, text);
  }

  /** The custom instructions occur in the prompt, after the lead, the optional language and the requirements phrase. */
  lemma InstructionsContained(labels: DefaultLabels, o: Options, text: string)
    requires HasInstructions(o)
    ensures Contains(PreparePrompt(labels, o, text), o.customInstructions.value)
  {
    var ci := o.customInstructions.value;
    var x := if IsDefaultLang(o) then "" else In + LangOf(labels, o);
    InstructionsPrompt(labels, o);
    assert InstructionsClause(labels, o) == x + Requirements + ci;
    Group(x, Lead, Requirements, ci);
    Occurs(Lead + x + Requirements, ci, TextSection(text));
  }

  lemma Occurs(head: string, c: string, tail: string)
    ensures OccursAt(head + c + tail, c, |head|)
  {
    assert (head + c + tail)[|head|..|head| + |c|] == c;
  }

  /** With custom instructions the language is named exactly when it is not DEFAULT. */
  lemma InstructionsNameLanguage(labels: DefaultLabels, o: Options, text: string)
    requires HasInstructions(o)
    ensures StartsWith(PreparePrompt(labels, o, text), Lead + Requirements) <==> IsDefaultLang(o)
  {
    var p := PreparePrompt(labels, o, text);
    PromptByClauses(labels, o, text);
    if !IsDefaultLang(o) {
      assert p[|Lead| + 1] == 'i';
      assert (Lead + Requirements)[|Lead| + 1] == 'b';
    }
  }

  /** Without custom instructions the prompt depends only on length, format, language and text. */
  lemma PromptWithoutInstructionsUsesOnlyLengthFormatLang(labels: DefaultLabels, o: Options, o': Options, text: string)
    requires !HasInstructions(o) && !HasInstructions(o')
    requires o'.length == o.length && o'.format == o.format && o'.lang == o.lang
    ensures PreparePrompt(labels, o, text) == PreparePrompt(labels, o', text)
  {
    PromptByClauses(labels, o, text);
    PromptByClauses(labels, o', text);
  }

  // ---------------------------------------------------------------------------
  // summarizeWithOpenAi / summarizeWithDeepSeek

  const SystemPrompt := "You are a summarization expert who extracts key details from long texts. Provide well-structured summaries that capture the essence of the content while maintaining readability and coherence."
  const NoSummary := "Could not generate a summary."
  const SummarizeFailed := "Failed to summarize text: "

  /** The request `summarizeWithOpenAi` sends. */
  function OpenAiRequest(apiKey: string, prompt: string): ChatRequest {
    ChatRequest(OpenAIApi, apiKey, "gpt-4o", SystemPrompt, OpenAiMaxTokens, prompt)
  }

  /** The request `summarizeWithDeepSeek` sends. */
  function DeepSeekRequest(apiKey: string, prompt: string): ChatRequest {
    ChatRequest(DeepSeekApi, apiKey, "deepseek-chat", SystemPrompt, DeepSeekMaxTokens, prompt)
  }

  /** The first choice's content, the fallback when it is empty or missing, or the rethrown provider error. */
  function Completed(reply: ChatReply): (r: Result<string>)
    ensures r.Ok? <==> reply.Completion?
    ensures r.Ok? ==> r.value != ""
    ensures r.Ok? && Truthy(reply.firstContent) ==> r.value == reply.firstContent.value
    ensures r.Ok? && !Truthy(reply.firstContent) ==> r.value == NoSummary
    ensures r.Fail? ==> r.error == Error(Plain, SummarizeFailed + reply.message)
  {
    match reply
    case Completion(content) => Ok(if Truthy(content) then content.value else NoSummary)
    case ChatError(msg) => Fail(Error(Plain, SummarizeFailed + msg))
  }

  /** `summarizeWithOpenAi(apiKey, prompt)` against the chat back end `chat`. */
  function SummarizeWithOpenAi(chat: ChatRequest -> ChatReply, apiKey: string, prompt: string): (r: Result<string>)
    ensures var reply := chat(OpenAiRequest(apiKey, prompt));
      && (reply.Completion? ==> r == Ok(if Truthy(reply.firstContent) then reply.firstContent.value else NoSummary))
      && (reply.ChatError? ==> r == Fail(Error(Plain, SummarizeFailed + reply.message)))
    ensures r.Ok? ==> r.value != ""
  {
    Completed(chat(OpenAiRequest(apiKey, prompt)))
  }

  /** `summarizeWithDeepSeek(apiKey, prompt)` against the chat back end `chat`. */
  function SummarizeWithDeepSeek(chat: ChatRequest -> ChatReply, apiKey: string, prompt: string): (r: Result<string>)
    ensures var reply := chat(DeepSeekRequest(apiKey, prompt));
      && (reply.Completion? ==> r == Ok(if Truthy(reply.firstContent) then reply.firstContent.value else NoSummary))
      && (reply.ChatError? ==> r == Fail(Error(Plain, SummarizeFailed + reply.message)))
    ensures r.Ok? ==> r.value != ""
  {
    Completed(chat(DeepSeekRequest(apiKey, prompt)))
  }
}
