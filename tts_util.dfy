/**
 * `convertTextToSpeech` of `src/utils/tts.util.ts` (the service keeps an
 * identical copy): speech, a file in the download directory, then the S3 URL
 * or the local public URL of that file.
 */
module TtsUtil {
  import opened Outcomes
  import opened Effects
  import opened Constants
  import opened S3Util

  const AudioFailed := "Failed to generate audio"

  /** `${fileName}.${AUDIO_FORMAT}` */
  function AudioFileName(name: string): string {
    name + "." + AudioFormat
  }

  /** `${DOWNLOAD_DIR}/${audioFileName}` */
  function AudioFilePath(env: Env, name: string): string {
    env.downloadDir + "/" + AudioFileName(name)
  }

  /** `${PUBLIC_DIR}/${audioFileName}` */
  function LocalAudioUrl(name: string): string {
    PublicDir + "/" + AudioFileName(name)
  }

  /**
   * `convertTextToSpeech(text, apiKey)` with `name` the generated file name:
   * the audio is written to the download directory; with S3 enabled the
   * upload's URL is returned, and when the upload fails (or S3 is off) the
   * local public URL. Only a speech or write failure is an error.
   */
  function ConvertTextToSpeech(env: Env, world: World, text: string, apiKey: string, name: string): (r: Run<string>)
    ensures r.result.Fail? <==>
      world.speech(apiKey, text).Threw? || world.writeFile(AudioFilePath(env, name), world.speech(apiKey, text).value).Threw?
    ensures r.result.Fail? ==> r.result.error == Error(BadRequest, AudioFailed)
    ensures |r.calls| >= 1 && r.calls[0] == Speech(apiKey, text)
    ensures r.result.Ok? ==> |r.calls| >= 2 && r.calls[1] == WriteFile(AudioFilePath(env, name))
    ensures r.result.Ok? ==>
      r.result.value == LocalAudioUrl(name) || r.result.value == GetS3AudioDir(env.s3) + AudioFileName(name)
    ensures r.result.Ok? && !env.useS3 ==> r.result.value == LocalAudioUrl(name) && |r.calls| == 2
    ensures r.result.Ok? && env.useS3 ==>
      var upload := UploadTTSAudioToS3(env.s3, world, AudioFilePath(env, name), AudioFileName(name));
      && r.calls[2..] == upload.calls
      && r.result.value == (if upload.result.Ok? then upload.result.value else LocalAudioUrl(name))
    ensures r.result.Ok? ==> r.result.value != ""
    ensures forall i | 0 <= i < |r.calls| :: IsTextStageCall(r.calls[i])
  {
    var speechCall := [Speech(apiKey, text)];
    match world.speech(apiKey, text)
    case Threw(_) => Run(Fail(Error(BadRequest, AudioFailed)), speechCall)
    case Done(audio) =>
      var path := AudioFilePath(env, name);
      var calls := speechCall + [WriteFile(path)];
      match world.writeFile(path, audio)
      case Threw(_) => Run(Fail(Error(BadRequest, AudioFailed)), calls)
      case Done(_) =>
        if env.useS3 then
          var upload := UploadTTSAudioToS3(env.s3, world, path, AudioFileName(name));
          var url := if upload.result.Ok? then upload.result.value else LocalAudioUrl(name);
          Run(Ok(url), calls + upload.calls)
        else
          Run(Ok(LocalAudioUrl(name)), calls)
  }
}
