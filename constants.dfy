/**
 * The configuration the core reads. Numeric limits use their built-in
 * defaults (the environment overrides are not modelled); values that come
 * from the process environment or working directory are fields of `Env`.
 */
module Constants {
  import opened Outcomes

  const OpenAiMaxTokens: nat := 300
  const DeepSeekMaxTokens: nat := 1000
  const MaxTranscriptTokens: nat := 1500
  const PublicDir := "/public/audio"
  const AudioFormat := "mp3"
  /** One minute in milliseconds (the source comment says one day). */
  const MaxFileAge: nat := 1000 * 60

  /** The deployment environment. */
  datatype Env = Env(
    defaultOpenAiKey: Option<string>,     // OPENAI_API_KEY
    defaultDeepSeekKey: Option<string>,   // DEEPSEEK_API_KEY
    useS3: bool,                          // USE_S3 === 'true'
    downloadDir: string,                  // join(process.cwd(), 'downloads')
    s3: S3Env)

  /** The S3 variables of the environment. */
  datatype S3Env = S3Env(
    bucket: Option<string>,           // AWS_S3_BUCKET
    accessKeyId: Option<string>,      // AWS_ACCESS_KEY_ID
    secretAccessKey: Option<string>,  // AWS_SECRET_ACCESS_KEY
    region: Option<string>)           // AWS_REGION
}
