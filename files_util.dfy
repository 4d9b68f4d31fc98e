/**
 * Extension dispatch, audio file names and the clean-up sweep of
 * `src/utils/files.util.ts`.
 */
module FilesUtil {
  import opened Outcomes
  import opened Strings
  import opened Effects

  // ---------------------------------------------------------------------------
  // path.extname (POSIX)

  /** The path without its trailing slashes. */
  function StripTrailingSlashes(p: string): (r: string)
    ensures StartsWith(p, r)
    ensures r == [] || r[|r| - 1] != '/'
  {
    if |p| > 0 && p[|p| - 1] == '/' then
      var r := StripTrailingSlashes(p[..|p| - 1]);
      assert p[..|r|] == p[..|p| - 1][..|r|];
      r
    else p
  }

  /** The last path component: what follows the last `/`. */
  function LastComponent(p: string): (r: string)
    ensures forall k | 0 <= k < |r| :: r[k] != '/'
    ensures EndsWith(p, r)
  {
    if |p| == 0 then p
    else if p[|p| - 1] == '/' then []
    else
      var r := LastComponent(p[..|p| - 1]);
      assert p[|p| - |r| - 1..] == r + [p[|p| - 1]];
      r + [p[|p| - 1]]
  }

  /** The base name `extname` looks at. */
  function BaseName(p: string): string {
    LastComponent(StripTrailingSlashes(p))
  }

  /** The index of the last `.` in `s`, if any. */
  function LastDot(s: string): (r: Option<nat>)
    ensures r.Some? ==> r.value < |s| && s[r.value] == '.' && forall k | r.value < k < |s| :: s[k] != '.'
    ensures r.None? ==> forall k | 0 <= k < |s| :: s[k] != '.'
  {
    if |s| == 0 then None
    else if s[|s| - 1] == '.' then Some(|s| - 1)
    else LastDot(s[..|s| - 1])
  }

  /**
   * `path.extname(p)`: from the last `.` of the base name to its end; empty
   * when the base name has no dot, when its only dots lead it (`.bashrc`),
   * or when it is `..`.
   */
  function Extname(p: string): (r: string)
    ensures r == [] || r[0] == '.'
    ensures forall k | 1 <= k < |r| :: r[k] != '.'
    ensures forall k | 0 <= k < |r| :: r[k] != '/'
    ensures r != [] ==> EndsWith(BaseName(p), r)
    ensures r == [] <==> BaseName(p) == ".." || forall k | 1 <= k < |BaseName(p)| :: BaseName(p)[k] != '.'
  {
    var b := BaseName(p);
    match LastDot(b)
    case None => ""
    case Some(d) => if d == 0 || b == ".." then "" else b[d..]
  }

  /** A name with a non-dot stem and a one-dot extension has exactly that extension. */
  lemma ExtnameOfStemAndExtension(stem: string, ext: string)
    requires forall k | 0 <= k < |stem| :: stem[k] != '/'
    requires forall k | 0 <= k < |ext| :: ext[k] != '/'
    requires |ext| >= 1 && ext[0] == '.' && forall k | 1 <= k < |ext| :: ext[k] != '.'
    requires |stem| >= 1 && stem[|stem| - 1] != '.'
    ensures Extname(stem + ext) == ext
  {
    var p, d := stem + ext, |stem|;
    forall k | 0 <= k < |p| ensures p[k] != '/' {
      if k < d {
        assert p[k] == stem[k];
      } else {
        assert p[k] == ext[k - d];
      }
    }
    assert StripTrailingSlashes(p) == p;
    LastComponentWithoutSlash(p);
    forall k | d < k < |p| ensures p[k] != '.' {
      assert p[k] == ext[k - d];
    }
    assert p[d] == '.';
    LastDotUnique(p, d);
    assert p != ".." by {
      assert p[d - 1] == stem[d - 1];
    }
    assert p[d..] == ext;
  }

  lemma {:induction false} LastComponentWithoutSlash(p: string)
    requires forall k | 0 <= k < |p| :: p[k] != '/'
    ensures LastComponent(p) == p
    decreases |p|
  {
    if |p| > 0 {
      LastComponentWithoutSlash(p[..|p| - 1]);
      assert p[..|p| - 1] + [p[|p| - 1]] == p;
    }
  }

  /** A dot with no dot after it is the last dot. */
  lemma {:induction false} LastDotUnique(s: string, d: nat)
    requires d < |s| && s[d] == '.' && forall k | d < k < |s| :: s[k] != '.'
    ensures LastDot(s) == Some(d)
    decreases |s|
  {
    if d < |s| - 1 {
      LastDotUnique(s[..|s| - 1], d);
    }
  }

  // ---------------------------------------------------------------------------
  // extractTextFromFile

  const PdfFailed := "Failed to extract text from PDF."
  const DocxFailed := "Failed to extract text from DOCX."
  const Unsupported := "Unsupported file format. Only PDF, TXT, and DOCX are allowed."

  /** An uploaded file: its original name and contents. */
  datatype Upload = Upload(originalName: string, buffer: Bytes)

  /** `extname(file.originalname).toLowerCase()` */
  function Extension(file: Upload): string {
    ToLower(Extname(file.originalName))
  }

  /** `extractTextFromPdf(file)` */
  function ExtractTextFromPdf(world: World, file: Upload): (r: Result<string>)
    ensures r.Ok? <==> world.pdf(file.buffer).Done?
    ensures r.Fail? ==> r.error == Error(BadRequest, PdfFailed)
  {
    match world.pdf(file.buffer)
    case Done(text) => Ok(text)
    case Threw(_) => Fail(Error(BadRequest, PdfFailed))
  }

  /** `extractTextFromDocx(file)` */
  function ExtractTextFromDocx(world: World, file: Upload): (r: Result<string>)
    ensures r.Ok? <==> world.docx(file.buffer).Done?
    ensures r.Fail? ==> r.error == Error(BadRequest, DocxFailed)
  {
    match world.docx(file.buffer)
    case Done(text) => Ok(text)
    case Threw(_) => Fail(Error(BadRequest, DocxFailed))
  }

  /** `extractTextFromFile(file)`: dispatch on the lower-cased extension. */
  function ExtractTextFromFile(world: World, file: Upload): (r: Result<string>)
    ensures Extension(file) == ".txt" ==> r == Ok(world.utf8(file.buffer))
    ensures Extension(file) == ".pdf" ==> r == ExtractTextFromPdf(world, file)
    ensures Extension(file) == ".docx" ==> r == ExtractTextFromDocx(world, file)
    ensures Extension(file) !in {".txt", ".pdf", ".docx"} <==> r == Fail(Error(UnsupportedMediaType, Unsupported))
  {
    var ext := Extension(file);
    if ext == ".txt" then Ok(world.utf8(file.buffer))
    else if ext == ".pdf" then ExtractTextFromPdf(world, file)
    else if ext == ".docx" then ExtractTextFromDocx(world, file)
    else Fail(Error(UnsupportedMediaType, Unsupported))
  }

  /** Case does not matter: `report.TXT` is read as text, like `report.txt`. */
  lemma TxtExtensionIgnoresCase(world: World, stem: string, buffer: Bytes)
    requires forall k | 0 <= k < |stem| :: stem[k] != '/'
    requires |stem| >= 1 && stem[|stem| - 1] != '.'
    ensures ExtractTextFromFile(world, Upload(stem + ".TXT", buffer)) == Ok(world.utf8(buffer))
  {
    ExtnameOfStemAndExtension(stem, ".TXT");
    LowerTxt();
  }

  /** `report.Pdf` goes to the PDF extractor, like `report.pdf`. */
  lemma PdfExtensionIgnoresCase(world: World, stem: string, buffer: Bytes)
    requires forall k | 0 <= k < |stem| :: stem[k] != '/'
    requires |stem| >= 1 && stem[|stem| - 1] != '.'
    ensures var file := Upload(stem + ".Pdf", buffer);
      ExtractTextFromFile(world, file) == ExtractTextFromPdf(world, file)
  {
    ExtnameOfStemAndExtension(stem, ".Pdf");
    LowerPdf();
  }

  lemma LowerTxt()
    ensures ToLower(".TXT") == ".txt"
  {
    var lower := ToLower(".TXT");
    assert lower[0] == '.' && lower[1] == 't' && lower[2] == 'x' && lower[3] == 't';
  }

  lemma LowerPdf()
    ensures ToLower(".Pdf") == ".pdf"
  {
    var lower := ToLower(".Pdf");
    assert lower[0] == '.' && lower[1] == 'p' && lower[2] == 'd' && lower[3] == 'f';
  }

  // ---------------------------------------------------------------------------
  // generateAudioFilename

  /** `s.replace(/c/g, '')` */
  function Remove(s: string, c: char): (r: string)
    ensures c !in r
    ensures |r| <= |s|
  {
    if |s| == 0 then ""
    else if s[0] == c then Remove(s[1..], c)
    else [s[0]] + Remove(s[1..], c)
  }

  /** `s.substring(start, end)` for `start <= end`: both bounds clamped to the string. */
  function Substring(s: string, start: nat, end: nat): (r: string)
    requires start <= end
    ensures |r| <= end - start
  {
    var a := if start <= |s| then start else |s|;
    var b := if end <= |s| then end else |s|;
    s[a..b]
  }

  /**
   * `generateAudioFilename()`, given `new Date().toISOString()` as `iso` and
   * `Math.random().toString(36)` as `random36`.
   */
  function GenerateAudioFilename(iso: string, random36: string): string {
    Remove(Split(iso, 'T')[0], '-') + "_" + Substring(random36, 2, 10)
  }

  /** For an ISO timestamp `YYYY-MM-DDT...` the name is `YYYYMMDD_` and at most eight characters of the random string. */
  lemma GenerateAudioFilenameShape(year: string, month: string, day: string, time: string, random36: string)
    requires '-' !in year + month + day && 'T' !in year + month + day
    ensures var name := GenerateAudioFilename(year + "-" + month + "-" + day + "T" + time, random36);
      exists suffix :: |suffix| <= 8 && name == year + month + day + "_" + suffix
        && (|random36| >= 10 ==> suffix == random36[2..10])
  {
    var date := year + "-" + month + "-" + day;
    assert 'T' !in date;
    SplitAtSeparator(date, 'T', time);
    assert Split(date + "T" + time, 'T')[0] == date;
    RemoveAll(year, month, day);
    var suffix := Substring(random36, 2, 10);
    assert GenerateAudioFilename(date + "T" + time, random36) == year + month + day + "_" + suffix;
  }

  lemma RemoveAll(year: string, month: string, day: string)
    requires '-' !in year + month + day
    ensures Remove(year + "-" + month + "-" + day, '-') == year + month + day
  {
    assert '-' !in year && '-' !in month && '-' !in day;
    var tail := month + "-" + day;
    assert year + "-" + month + "-" + day == year + "-" + tail;
    RemoveAfterDash(month, day);
    RemoveWithout(day, '-');
    assert Remove(tail, '-') == month + day;
    RemoveAfterDash(year, tail);
  }

  /** Removing dashes from `a-b` with a dash-free `a` keeps `a` and cleans `b`. */
  lemma RemoveAfterDash(a: string, b: string)
    requires '-' !in a
    ensures Remove(a + "-" + b, '-') == a + Remove(b, '-')
  {
    RemoveConcat(a, "-" + b, '-');
    assert a + "-" + b == a + ("-" + b);
    assert ("-" + b)[1..] == b;
    RemoveWithout(a, '-');
  }

  lemma {:induction false} RemoveConcat(a: string, b: string, c: char)
    ensures Remove(a + b, c) == Remove(a, c) + Remove(b, c)
    decreases |a|
  {
    if |a| > 0 {
      assert (a + b)[1..] == a[1..] + b;
      RemoveConcat(a[1..], b, c);
    } else {
      assert a + b == b;
    }
  }

  lemma {:induction false} RemoveWithout(s: string, c: char)
    requires c !in s
    ensures Remove(s, c) == s
    decreases |s|
  {
    if |s| > 0 {
      RemoveWithout(s[1..], c);
      assert [s[0]] + s[1..] == s;
    }
  }

  // ---------------------------------------------------------------------------
  // cleanupOldFiles and cleanUpFile

  /** A file that is more than `maxAgeMs` older than `now`. */
  predicate Expired(mtime: int, now: int, maxAgeMs: int) {
    now - mtime > maxAgeMs
  }

  /**
   * The directory after a sweep: every expired file is gone unless its
   * `stat` or `unlink` failed; every other file is still there, with its
   * modification time.
   */
  function Swept(entries: map<string, int>, now: int, maxAgeMs: int, failing: set<string>): (r: map<string, int>)
    ensures r.Keys <= entries.Keys
    ensures forall n | n in r :: r[n] == entries[n]
    ensures forall n | n in entries :: n in r <==> (!Expired(entries[n], now, maxAgeMs) || n in failing)
  {
    map n | n in entries && (!Expired(entries[n], now, maxAgeMs) || n in failing) :: entries[n]
  }

  /** A directory: file names and their modification times in milliseconds. */
  class Directory {
    var entries: map<string, int>
    /** Whether `readdir` on it succeeds. */
    const readable: bool

    constructor (entries: map<string, int>, readable: bool)
      ensures this.entries == entries && this.readable == readable
    {
      this.entries := entries;
      this.readable := readable;
    }

    /**
     * `cleanupOldFiles(dir, maxAgeMs)` at time `now`: deletes, one by one,
     * each expired file whose `stat` and `unlink` succeed (`failing` are the
     * others); an error on one file does not stop the sweep, and an unreadable
     * directory is left as it is. Never throws.
     */
    method CleanupOldFiles(now: int, maxAgeMs: int, failing: set<string>)
      modifies this
      ensures readable ==> entries == Swept(old(entries), now, maxAgeMs, failing)
      ensures !readable ==> entries == old(entries)
    {
      if !readable {
        return;
      }
      var files := entries.Keys;
      ghost var before := entries;
      while files != {}
        invariant files <= before.Keys
        invariant entries.Keys <= before.Keys
        invariant forall n | n in entries :: entries[n] == before[n]
        invariant forall n | n in before && n !in files ::
          n in entries <==> (!Expired(before[n], now, maxAgeMs) || n in failing)
        invariant forall n | n in files :: n in entries
        decreases files
      {
        var file :| file in files;
        if file !in failing && Expired(entries[file], now, maxAgeMs) {
          entries := entries - {file};
        }
        files := files - {file};
      }
      assert entries == Swept(before, now, maxAgeMs, failing);
    }

    /** `cleanUpFile(path)`: removes the file, or leaves everything as it is when the unlink fails; never throws. */
    method CleanUpFile(name: string, unlinkFails: bool)
      modifies this
      ensures unlinkFails ==> entries == old(entries)
      ensures !unlinkFails ==> entries == old(entries) - {name}
    {
      if !unlinkFails {
        entries := entries - {name};
      }
    }
  }
}
