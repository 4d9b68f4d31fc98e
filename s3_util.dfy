/** Configuration check, URL construction and uploads of `src/utils/s3.util.ts`. */
module S3Util {
  import opened Outcomes
  import opened Strings
  import opened Effects
  import opened Constants

  const MissingConfig := "Missing required S3 configuration. Please check your environment variables."
  const UploadFailed := "Failed to upload file to S3: "
  const DefaultRegion := "us-east-1"
  const AudioContentType := "audio/mpeg"

  /** `checkS3Config()`: bucket, access key id and secret key must all be set and non-empty. */
  function CheckS3Config(s3: S3Env): (r: Result<()>)
    ensures r.Ok? <==> Truthy(s3.bucket) && Truthy(s3.accessKeyId) && Truthy(s3.secretAccessKey)
    ensures r.Fail? ==> r.error == Error(Plain, MissingConfig)
  {
    if !Truthy(s3.bucket) || !Truthy(s3.accessKeyId) || !Truthy(s3.secretAccessKey) then
      Fail(Error(Plain, MissingConfig))
    else Ok(())
  }

  /** `process.env.AWS_REGION || 'us-east-1'` */
  function Region(s3: S3Env): (r: string)
    ensures Truthy(s3.region) ==> r == s3.region.value
    ensures !Truthy(s3.region) ==> r == DefaultRegion
  {
    if Truthy(s3.region) then s3.region.value else DefaultRegion
  }

  /** The bucket's public base URL; an unset bucket renders as `undefined`. */
  function BucketUrl(s3: S3Env): string {
    "https://" + Render(s3.bucket) + ".s3." + Region(s3) + ".amazonaws.com/"
  }

  /** `getS3Url(folder, fileName)` */
  function GetS3Url(s3: S3Env, folder: string, fileName: string): (r: string)
    ensures r == BucketUrl(s3) + ObjectKey(folder, fileName)
    ensures StartsWith(r, BucketUrl(s3))
    ensures EndsWith(r, "/" + fileName)
  {
    var r := BucketUrl(s3) + folder + "/" + fileName;
    assert r[..|BucketUrl(s3)|] == BucketUrl(s3);
    assert r[|r| - |"/" + fileName|..] == "/" + fileName;
    r
  }

  /** `getS3AudioDir()` */
  function GetS3AudioDir(s3: S3Env): string {
    BucketUrl(s3) + "audios/"
  }

  /** The audio directory is the `audios` folder's URL up to the file name. */
  lemma AudioDirIsAudiosFolder(s3: S3Env, fileName: string)
    ensures GetS3Url(s3, "audios", fileName) == GetS3AudioDir(s3) + fileName
  {
    assert "audios" + "/" == "audios/";
  }

  /** The object key of an upload. */
  function ObjectKey(folder: string, fileName: string): string {
    folder + "/" + fileName
  }

  datatype UploadOptions = UploadOptions(folder: string, contentType: string)

  /**
   * `uploadFileToS3(filePath, fileName, options)`: check the configuration,
   * read the file, put it under `folder/fileName` and return its URL; every
   * failure is rethrown with the upload prefix.
   */
  function UploadFileToS3(s3: S3Env, world: World, filePath: string, fileName: string, options: UploadOptions): (r: Run<string>)
    ensures CheckS3Config(s3).Fail? ==> r == Run(Fail(Error(Plain, UploadFailed + MissingConfig)), [])
    ensures CheckS3Config(s3).Ok? && world.readFile(filePath).Threw? ==>
      r == Run(Fail(Error(Plain, UploadFailed + world.readFile(filePath).message)), [ReadFile(filePath)])
    ensures CheckS3Config(s3).Ok? && world.readFile(filePath).Done? ==>
      var put := PutObject(s3.bucket.value, ObjectKey(options.folder, fileName), options.contentType);
      && r.calls == [ReadFile(filePath), Put(put)]
      && (world.putObject(put).Done? ==> r.result == Ok(GetS3Url(s3, options.folder, fileName)))
      && (world.putObject(put).Threw? ==> r.result == Fail(Error(Plain, UploadFailed + world.putObject(put).message)))
    ensures r.result.Ok? ==>
      && CheckS3Config(s3).Ok?
      && r.result.value == GetS3Url(s3, options.folder, fileName)
      && r.calls == [ReadFile(filePath), Put(PutObject(s3.bucket.value, ObjectKey(options.folder, fileName), options.contentType))]
    ensures r.result.Fail? ==> r.result.error.kind == Plain && StartsWith(r.result.error.message, UploadFailed)
    ensures forall i | 0 <= i < |r.calls| :: IsStorageCall(r.calls[i])
  {
    var failed := (m: string) => Fail(Error(Plain, UploadFailed + m));
    match CheckS3Config(s3)
    case Fail(e) => Run(failed(e.message), [])
    case Ok(_) =>
      match world.readFile(filePath)
      case Threw(m) => Run(failed(m), [ReadFile(filePath)])
      case Done(content) =>
        var put := PutObject(s3.bucket.value, ObjectKey(options.folder, fileName), options.contentType);
        var calls := [ReadFile(filePath), Put(put)];
        match world.putObject(put)
        case Threw(m) => Run(failed(m), calls)
        case Done(_) => Run(Ok(GetS3Url(s3, options.folder, fileName)), calls)
  }

  /** `uploadTTSAudioToS3`: the `audios` folder, so the URL lies in `getS3AudioDir()`. */
  function UploadTTSAudioToS3(s3: S3Env, world: World, filePath: string, fileName: string): (r: Run<string>)
    ensures r.result.Ok? ==> r.result.value == GetS3AudioDir(s3) + fileName
    ensures (CheckS3Config(s3).Ok? && world.readFile(filePath).Done?
      && world.putObject(PutObject(s3.bucket.value, "audios/" + fileName, AudioContentType)).Done?) ==> r.result.Ok?
    ensures r.result.Ok? ==>
      && Truthy(s3.bucket)
      && r.calls == [ReadFile(filePath), Put(PutObject(s3.bucket.value, "audios/" + fileName, AudioContentType))]
  {
    AudioDirIsAudiosFolder(s3, fileName);
    assert ObjectKey("audios", fileName) == "audios/" + fileName;
    UploadFileToS3(s3, world, filePath, fileName, UploadOptions("audios", AudioContentType))
  }

  /** `uploadDownloadedAudioToS3`: the `downloads` folder. */
  function UploadDownloadedAudioToS3(s3: S3Env, world: World, filePath: string, fileName: string): (r: Run<string>)
    ensures r.result.Ok? ==> r.result.value == GetS3Url(s3, "downloads", fileName)
    ensures (CheckS3Config(s3).Ok? && world.readFile(filePath).Done?
      && world.putObject(PutObject(s3.bucket.value, "downloads/" + fileName, AudioContentType)).Done?) ==> r.result.Ok?
    ensures r.result.Ok? ==>
      && Truthy(s3.bucket)
      && r.calls == [ReadFile(filePath), Put(PutObject(s3.bucket.value, "downloads/" + fileName, AudioContentType))]
  {
    assert ObjectKey("downloads", fileName) == "downloads/" + fileName;
    UploadFileToS3(s3, world, filePath, fileName, UploadOptions("downloads", AudioContentType))
  }
}
