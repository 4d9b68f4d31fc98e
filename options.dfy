/**
 * The summarization options: the enums and the options record.
 *
 * The enum file of the repository lists only SHORT/STANDARD/DETAILED lengths,
 * BULLET_POINTS/NARRATIVE formats, OPENAI/DEEPSEEK models and FAST/SLOW
 * speeds, while the code also uses a DEFAULT member of the format, model,
 * speed, language and speech-to-text enums and the language and
 * speech-to-text enums themselves. Each enum is a datatype here, with a
 * `Default` constructor where the code uses one. The string values of the
 * members the enum file does not show are unknown: language members carry
 * their own label, and the two DEFAULT values that reach a prompt are a
 * `DefaultLabels` parameter.
 */
module Options {
  import opened Outcomes

  datatype Length = Short | Standard | Detailed
  datatype Format = BulletPoints | Narrative | Default
  datatype Model = OpenAI | DeepSeek | Default
  datatype Speed = Fast | Slow | Default
  datatype Language = Default | Named(name: string)
  datatype SttModel = Default | Named(name: string)

  /**
   * An option field as the request delivers it: missing (`undefined`/`null`),
   * a member of its enum, or some other value (`Stray`), rendered in a
   * template as `raw` and with its JavaScript truthiness (a non-string such
   * as `0` renders as "0" and is falsy).
   */
  datatype Field<T> = Absent | Member(value: T) | Stray(raw: string, truthy: bool)

  /** The `listen` field: missing, a boolean, or a value of another type with its truthiness. */
  datatype Flag = Unset | Bool(b: bool) | NonBool(truthy: bool)

  /** The options record; every field is optional, as in the options interface. */
  datatype Options = Options(
    length: Field<Length>,
    format: Field<Format>,
    listen: Flag,
    model: Field<Model>,
    speed: Field<Speed>,
    lang: Field<Language>,
    sttModel: Field<SttModel>,
    customInstructions: Option<string>)

  /** No options at all (`options` is `undefined`): every `options?.x` is `undefined`. */
  const NoOptions := Options(Absent, Absent, Unset, Absent, Absent, Absent, Absent, None)

  /** The string values of `SummaryFormat.DEFAULT` and `SummarizationLanguage.DEFAULT`. */
  datatype DefaultLabels = DefaultLabels(format: string, language: string)

  /** `options?.listen` used as a condition. */
  predicate Listens(o: Options) {
    match o.listen
    case Unset => false
    case Bool(b) => b
    case NonBool(t) => t
  }

  /** `options?.customInstructions` used as a condition. */
  predicate HasInstructions(o: Options) {
    Truthy(o.customInstructions)
  }

  function LengthText(l: Length): string {
    match l
    case Short => "brief"
    case Standard => "standard"
    case Detailed => "comprehensive"
  }

  function FormatText(labels: DefaultLabels, f: Format): string {
    match f
    case BulletPoints => "bullet-points"
    case Narrative => "narrative"
    case Default => labels.format
  }

  function LanguageText(labels: DefaultLabels, l: Language): string {
    match l
    case Default => labels.language
    case Named(name) => name
  }

  /** How a template literal renders a field: `undefined`, the member's value, or the stray value. */
  function FieldText<T>(f: Field<T>, render: T -> string): string {
    match f
    case Absent => "undefined"
    case Member(v) => render(v)
    case Stray(raw, _) => raw
  }
}
