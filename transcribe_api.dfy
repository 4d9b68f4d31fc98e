/**
 * The transcription service of `src/python/transcribe_api/transcribe_api.py`:
 * a Whisper model that loads in the background and gates requests, and an
 * insertion-ordered response cache that drops its oldest entry when full.
 */
module TranscribeApi {
  import opened Outcomes
  import opened Strings
  import opened Effects

  const DefaultMaxCacheItems := 100
  const StillLoading := "Model is still loading. Try again later."
  const ModelErrorPrefix := "Model error: "
  const LoadFailedPrefix := "Failed to load model: "
  const ProcessingFailedPrefix := "Error processing transcription: "
  /** What Python says when `model.transcribe` is called on `None`. */
  const NoModel := "'NoneType' object has no attribute 'transcribe'"

  /** `os.getenv("ENABLE_CACHE", "true").lower() == "true"` (ASCII case folding). */
  function EnableCache(env: Option<string>): (r: bool)
    ensures env.None? ==> r
    ensures env.Some? ==> (r <==> ToLower(env.value) == "true")
  {
    ToLower(if env.Some? then env.value else "true") == "true"
  }

  /** A loaded `WhisperModel`, opaque to this service. */
  datatype WhisperModel = WhisperModel(size: string)

  /** What `model.transcribe` yields: segment texts, detected language and its probability, and the elapsed seconds. */
  datatype Transcription = Transcription(segments: seq<string>, language: string, probability: real, seconds: real)

  /** The JSON body of a successful `/transcribe/` call. */
  datatype Response = Response(text: string, language: string, probability: real, processingTime: real)

  /** An HTTP answer: a response, or an `HTTPException`. */
  datatype Answer = Answered(response: Response) | HttpError(status: nat, detail: string)

  /** The JSON body of `GET /`. */
  datatype Health = Health(status: string, modelLoaded: bool, modelLoading: bool, modelError: Option<string>)

  /** The response for a transcription: its segments joined by single spaces. */
  function ResponseOf(t: Transcription): (r: Response)
    ensures r.text == Join(t.segments, " ")
    ensures SplitJoinedSegments(t.segments) ==> Split(r.text, ' ') == t.segments
    ensures r.language == t.language && r.probability == t.probability && r.processingTime == t.seconds
  {
    var r := Response(Join(t.segments, " "), t.language, t.probability, t.seconds);
    if SplitJoinedSegments(t.segments) then
      SplitJoin(t.segments, ' ');
      r
    else r
  }

  /** Segments that can be told apart again after joining: at least one, none holding a space. */
  predicate SplitJoinedSegments(segments: seq<string>) {
    |segments| >= 1 && forall i | 0 <= i < |segments| :: ' ' !in segments[i]
  }

  // ---------------------------------------------------------------------------
  // The cache as a value

  /** `transcription_cache`: keys in insertion order, and the map. */
  datatype Cache = Cache(order: seq<string>, entries: map<string, Response>)

  /** Each key once in `order`, and exactly the keys of `entries`. */
  predicate Valid(c: Cache) {
    && (forall i, j | 0 <= i < j < |c.order| :: c.order[i] != c.order[j])
    && (forall k | k in c.entries :: k in c.order)
    && (forall i | 0 <= i < |c.order| :: c.order[i] in c.entries)
  }

  /** The most entries a cache with limit `maxItems` can hold. */
  function Capacity(maxItems: int): nat {
    if maxItems < 0 then 0 else maxItems
  }

  /**
   * `transcription_cache[key] = value`, then, when the cache holds more than
   * `maxItems` entries, `del` of its first key. A key already present keeps
   * its place.
   */
  function Insert(c: Cache, key: string, value: Response, maxItems: int): (r: Cache)
    requires Valid(c)
    ensures Valid(r)
    ensures |c.order| <= Capacity(maxItems) ==> |r.order| <= Capacity(maxItems)
  {
    var stored := Store(c, key, value);
    if |stored.order| > maxItems then EvictOldest(stored) else stored
  }

  /** `transcription_cache[key] = value`: a new key goes to the end of the order. */
  function Store(c: Cache, key: string, value: Response): (r: Cache)
    requires Valid(c)
    ensures Valid(r)
    ensures |r.order| == if key in c.entries then |c.order| else |c.order| + 1
  {
    if key in c.entries then Cache(c.order, c.entries[key := value])
    else
      var r := Cache(c.order + [key], c.entries[key := value]);
      assert key !in c.order;
      assert forall i | 0 <= i < |c.order| :: r.order[i] == c.order[i];
      r
  }

  /** `del transcription_cache[next(iter(transcription_cache))]` */
  function EvictOldest(c: Cache): (r: Cache)
    requires Valid(c) && |c.order| >= 1
    ensures Valid(r)
    ensures |r.order| == |c.order| - 1
  {
    var oldest := c.order[0];
    var r := Cache(c.order[1..], c.entries - {oldest});
    forall i, j | 0 <= i < j < |r.order| ensures r.order[i] != r.order[j] {
      assert r.order[i] == c.order[i + 1] && r.order[j] == c.order[j + 1];
    }
    forall i | 0 <= i < |r.order| ensures r.order[i] in r.entries {
      assert r.order[i] == c.order[i + 1] != c.order[0];
    }
    forall k | k in r.entries ensures k in r.order {
      var i :| 0 <= i < |c.order| && c.order[i] == k;
      assert r.order[i - 1] == k;
    }
    r
  }

  /** With room to spare a new key is appended and nothing is evicted. */
  lemma InsertWithRoom(c: Cache, key: string, value: Response, maxItems: int)
    requires Valid(c) && key !in c.entries && |c.order| < maxItems
    ensures Insert(c, key, value, maxItems) == Cache(c.order + [key], c.entries[key := value])
  {
  }

  /**
   * In a full cache a new key evicts exactly the earliest-inserted entry;
   * every other entry keeps its value and its place in the order.
   */
  lemma InsertEvictsOldest(c: Cache, key: string, value: Response, maxItems: int)
    requires Valid(c) && key !in c.entries && |c.order| >= 1 && |c.order| >= maxItems
    ensures Insert(c, key, value, maxItems) == Cache(c.order[1..] + [key], (c.entries - {c.order[0]})[key := value])
  {
    var stored := Cache(c.order + [key], c.entries[key := value]);
    assert stored.order[0] == c.order[0] && stored.order[1..] == c.order[1..] + [key];
    assert stored.entries - {c.order[0]} == (c.entries - {c.order[0]})[key := value];
  }

  /** Once the limit allows one entry, the inserted response is the one stored under its key. */
  lemma InsertStoresValue(c: Cache, key: string, value: Response, maxItems: int)
    requires Valid(c) && maxItems >= 1 && |c.order| <= maxItems
    ensures var r := Insert(c, key, value, maxItems);
      key in r.entries && r.entries[key] == value
  {
    if key !in c.entries && |c.order| == maxItems {
      InsertEvictsOldest(c, key, value, maxItems);
      assert c.order[0] in c.entries;
    }
  }

  /** With a limit below one, a new response is evicted at once. */
  lemma InsertIntoNoRoom(key: string, value: Response, maxItems: int)
    requires maxItems < 1
    ensures Insert(Cache([], map[]), key, value, maxItems) == Cache([], map[])
  {
    var r := Insert(Cache([], map[]), key, value, maxItems);
    assert r.order == [];
    assert map[key := value] - {key} == map[];
  }

  // ---------------------------------------------------------------------------
  // The service

  /** The service's globals: the model, its loading flags and the cache. */
  class TranscriptionServer {
    var model: Option<WhisperModel>
    var modelLoading: bool
    var modelError: Option<string>
    var order: seq<string>
    var entries: map<string, Response>
    /** Temporary files written and removed so far. */
    var tempFilesWritten: nat
    var tempFilesRemoved: nat
    const enableCache: bool
    const maxCacheItems: int
    /** `hashlib.md5(...).hexdigest()` */
    const md5: Bytes -> string

    /** The cache as a value. */
    function Contents(): Cache
      reads this
    {
      Cache(order, entries)
    }

    /** The cache is well formed and within its limit, and no temporary file is left behind. */
    predicate Invariant()
      reads this
    {
      Valid(Contents()) && |order| <= Capacity(maxCacheItems) && tempFilesWritten == tempFilesRemoved
    }

    /** The module's globals at import time. */
    constructor (enableCache: bool, maxCacheItems: int, md5: Bytes -> string)
      ensures Invariant()
      ensures model == None && !modelLoading && modelError == None && Contents() == Cache([], map[])
      ensures this.enableCache == enableCache && this.maxCacheItems == maxCacheItems && this.md5 == md5
    {
      model := None;
      modelLoading := false;
      modelError := None;
      order := [];
      entries := map[];
      tempFilesWritten := 0;
      tempFilesRemoved := 0;
      this.enableCache := enableCache;
      this.maxCacheItems := maxCacheItems;
      this.md5 := md5;
    }

    /** The start of `load_model`: the loading flag goes up. */
    method StartLoading()
      modifies this
      ensures modelLoading
      ensures model == old(model) && modelError == old(modelError)
      ensures Contents() == old(Contents()) && tempFilesWritten == old(tempFilesWritten) && tempFilesRemoved == old(tempFilesRemoved)
    {
      modelLoading := true;
    }

    /**
     * The rest of `load_model`, given what `WhisperModel(...)` did: a loaded
     * model clears the error; a failure records it and keeps the old model;
     * either way the loading flag goes down.
     */
    method FinishLoading(outcome: Reply<WhisperModel>)
      modifies this
      ensures !modelLoading
      ensures outcome.Done? ==> model == Some(outcome.value) && modelError == None
      ensures outcome.Threw? ==> model == old(model) && modelError == Some(LoadFailedPrefix + outcome.message)
      ensures Contents() == old(Contents()) && tempFilesWritten == old(tempFilesWritten) && tempFilesRemoved == old(tempFilesRemoved)
    {
      match outcome {
        case Done(m) =>
          model := Some(m);
          modelError := None;
        case Threw(message) =>
          modelError := Some(LoadFailedPrefix + message);
      }
      modelLoading := false;
    }

    /** `load_model()` run to its end without a request in between. */
    method LoadModel(outcome: Reply<WhisperModel>)
      modifies this
      ensures !modelLoading
      ensures outcome.Done? ==> model == Some(outcome.value) && modelError == None
      ensures outcome.Threw? ==> model == old(model) && modelError == Some(LoadFailedPrefix + outcome.message)
      ensures Contents() == old(Contents()) && tempFilesWritten == old(tempFilesWritten) && tempFilesRemoved == old(tempFilesRemoved)
    {
      StartLoading();
      FinishLoading(outcome);
    }

    /** `health_check()` */
    function HealthCheck(): (h: Health)
      reads this
      ensures h.modelLoaded <==> model.Some?
      ensures h.modelLoading == modelLoading && h.modelError == modelError
    {
      Health("running", model.Some?, modelLoading, modelError)
    }

    /**
     * `transcribe_audio(file)` for the uploaded `content`, with `outcome` what
     * `model.transcribe` returns on the temporary file. A loading model
     * answers 503, a failed one 500, both before the cache is touched; a
     * cached hash answers from the cache; otherwise the transcription is
     * answered and cached, or the failure answered 500 with the cache as it
     * was. The temporary file is removed on both paths.
     */
    method TranscribeAudio(content: Bytes, outcome: Reply<Transcription>) returns (r: Answer)
      requires Invariant()
      modifies this
      ensures Invariant()
      ensures model == old(model) && modelLoading == old(modelLoading) && modelError == old(modelError)
      ensures modelLoading ==>
        r == HttpError(503, StillLoading) && Contents() == old(Contents()) && tempFilesWritten == old(tempFilesWritten)
      ensures !modelLoading && Truthy(modelError) ==>
        r == HttpError(500, ModelErrorPrefix + modelError.value) && Contents() == old(Contents())
        && tempFilesWritten == old(tempFilesWritten)
      ensures !modelLoading && !Truthy(modelError) && enableCache && md5(content) in old(entries) ==>
        r == Answered(old(entries)[md5(content)]) && Contents() == old(Contents()) && tempFilesWritten == old(tempFilesWritten)
      ensures !modelLoading && !Truthy(modelError) && !(enableCache && md5(content) in old(entries)) ==>
        && tempFilesWritten == old(tempFilesWritten) + 1
        && (model.None? ==> r == HttpError(500, ProcessingFailedPrefix + NoModel) && Contents() == old(Contents()))
        && (model.Some? && outcome.Threw? ==>
              r == HttpError(500, ProcessingFailedPrefix + outcome.message) && Contents() == old(Contents()))
        && (model.Some? && outcome.Done? ==>
              && r == Answered(ResponseOf(outcome.value))
              && Contents() == (if enableCache then Insert(old(Contents()), md5(content), r.response, maxCacheItems) else old(Contents())))
      ensures !enableCache ==> Contents() == old(Contents())
    {
      if modelLoading {
        return HttpError(503, StillLoading);
      }
      if modelError.Some? && modelError.value != "" {
        return HttpError(500, ModelErrorPrefix + modelError.value);
      }
      var fileHash := md5(content);
      if enableCache && fileHash in entries {
        return Answered(entries[fileHash]);
      }
      r := TranscribeMiss(fileHash, outcome);
    }

    /**
     * The part of `transcribe_audio` after a cache miss: write the temporary
     * file, transcribe it, cache a success, and remove the file again.
     */
    method TranscribeMiss(fileHash: string, outcome: Reply<Transcription>) returns (r: Answer)
      requires Invariant()
      modifies this
      ensures Invariant()
      ensures model == old(model) && modelLoading == old(modelLoading) && modelError == old(modelError)
      ensures tempFilesWritten == old(tempFilesWritten) + 1
      ensures model.None? ==> r == HttpError(500, ProcessingFailedPrefix + NoModel) && Contents() == old(Contents())
      ensures model.Some? && outcome.Threw? ==>
        r == HttpError(500, ProcessingFailedPrefix + outcome.message) && Contents() == old(Contents())
      ensures model.Some? && outcome.Done? ==>
        && r == Answered(ResponseOf(outcome.value))
        && Contents() == (if enableCache then Insert(old(Contents()), fileHash, r.response, maxCacheItems) else old(Contents()))
    {
      tempFilesWritten := tempFilesWritten + 1;
      if model.None? {
        r := HttpError(500, ProcessingFailedPrefix + NoModel);
      } else {
        match outcome {
          case Threw(message) =>
            r := HttpError(500, ProcessingFailedPrefix + message);
          case Done(transcription) =>
            var response := ResponseOf(transcription);
            CacheResponse(fileHash, response);
            r := Answered(response);
        }
      }
      tempFilesRemoved := tempFilesRemoved + 1;
    }

    /** `transcription_cache[file_hash] = response` and the eviction, when caching is on. */
    method CacheResponse(fileHash: string, response: Response)
      requires Valid(Contents()) && |order| <= Capacity(maxCacheItems)
      modifies this
      ensures Valid(Contents()) && |order| <= Capacity(maxCacheItems)
      ensures Contents() == (if enableCache then Insert(old(Contents()), fileHash, response, maxCacheItems) else old(Contents()))
      ensures model == old(model) && modelLoading == old(modelLoading) && modelError == old(modelError)
      ensures tempFilesWritten == old(tempFilesWritten) && tempFilesRemoved == old(tempFilesRemoved)
    {
      if enableCache {
        var cache := Insert(Contents(), fileHash, response, maxCacheItems);
        order := cache.order;
        entries := cache.entries;
      }
    }
  }
}
