/** One job of audio_features (`AudioProcessor.calculate_audio_features`):
    hash the file, consult the cache, otherwise extract metadata and features
    and store the result. Written as functions of the cache directory's
    contents; the class in AudioFeatures runs the same steps imperatively. */
module Jobs {
  import opened Outcomes
  import opened Paths
  import opened Tags
  import opened Files

  /** The processor's configuration: `use_cache`, `cache_dir`, the `BUILD_ID`
      of the process and SHA-256, given as a hex-digest function about which
      nothing is assumed (in particular not that it is collision-free). */
  datatype Settings = Settings(useCache: bool, cacheDir: string, buildId: string, sha256: seq<byte> -> string)

  /** A file to process and its 1-based number in the batch. */
  datatype Job = Job(path: string, number: int)

  datatype Metadata = Metadata(
    filename: string,
    fileNumber: int,
    sizeInMb: real,
    lossless: bool,
    sha256: string,
    buildId: string,
    audio: Option<AudioFields>)

  /** A result dictionary with its possible top-level keys `build_id`,
      `metadata`, `features` and `error`, each of which may be absent. */
  datatype Record = Record(buildId: Option<string>, metadata: Option<Metadata>, features: Option<Features>, error: Option<string>)

  /** A file in the cache directory: one that `pickle.load` cannot read, or a
      stored record. */
  datatype CacheFile = Unreadable | Stored(record: Record)

  /** The cache directory's files, by full path. */
  type CacheFiles = map<string, CacheFile>

  const BlockSize := 4096

  /** `str(KeyError('metadata'))`, raised when a cache hit has no metadata. */
  const MissingMetadataMessage := "'metadata'"

  function Concat(blocks: seq<seq<byte>>): seq<byte>
  {
    if blocks == [] then [] else Concat(blocks[..|blocks| - 1]) + blocks[|blocks| - 1]
  }

  /** The hex SHA-256 of the whole file, or the error reading it raised. */
  function ContentDigest(s: Settings, world: World, path: string): Outcome<string>
  {
    match world.file(path).bytes
    case Raises(m) => Raises(m)
    case Ok(content) => Ok(s.sha256(content))
  }

  /** `get_cache_path`: `cache_dir / f"{file_hash}.pickle"`; the audio path
      plays no part. */
  function CachePath(cacheDir: string, audioPath: string, fileHash: string): string
  {
    cacheDir + "/" + fileHash + ".pickle"
  }

  /** One cache file per digest: two digests share a cache file exactly when
      they are equal, whatever the audio paths. */
  lemma CachePathInjective(cacheDir: string, path1: string, path2: string, hash1: string, hash2: string)
    ensures CachePath(cacheDir, path1, hash1) == CachePath(cacheDir, path2, hash2) <==> hash1 == hash2
  {
    var c1, c2 := CachePath(cacheDir, path1, hash1), CachePath(cacheDir, path2, hash2);
    if c1 == c2 {
      var n := |cacheDir| + 1;
      assert |hash1| == |hash2|;
      assert hash1 == c1[n..n + |hash1|];
      assert hash2 == c2[n..n + |hash2|];
    }
  }

  /** The record a cache file yields under the top-level `build_id` test, or
      None when the file is absent, unreadable or from another build. */
  function Lookup(s: Settings, files: CacheFiles, key: string): Option<Record>
  {
    if key !in files then None
    else match files[key]
      case Unreadable => None
      case Stored(rec) => if rec.buildId == Some(s.buildId) then Some(rec) else None
  }

  /** `check_cache` */
  function CheckCacheSpec(s: Settings, files: CacheFiles, world: World, path: string): Outcome<Option<Record>>
  {
    if !s.useCache then Ok(None)
    else match ContentDigest(s, world, path)
      case Raises(m) => Raises(m)
      case Ok(h) => Ok(Lookup(s, files, CachePath(s.cacheDir, path, h)))
  }

  /** `extract_metadata`: stat, hash, then read tags when the suffix names a
      supported format; the first call that raises ends it. */
  function MetadataSpec(s: Settings, world: World, path: string, number: int): Outcome<Metadata>
  {
    var facts := world.file(path);
    match facts.sizeInMb
    case Raises(m) => Raises(m)
    case Ok(size) =>
      match ContentDigest(s, world, path)
      case Raises(m) => Raises(m)
      case Ok(h) =>
        var base := Metadata(Basename(path), number, size, IsLossless(path), h, s.buildId, None);
        match FormatOf(path)
        case None => Ok(base)
        case Some(format) =>
          match facts.tagReading
          case Raises(m) => Raises(m)
          case Ok(reading) => Ok(base.(audio := Some(FieldsOf(format, reading))))
  }

  datatype SaveRun = SaveRun(outcome: Outcome<()>, files: CacheFiles)

  /** `save_to_cache`: nothing when caching is off; otherwise hash the file
      and write the record, swallowing write errors. */
  function SaveSpec(s: Settings, files: CacheFiles, world: World, path: string, rec: Record): SaveRun
  {
    if !s.useCache then SaveRun(Ok(()), files)
    else match ContentDigest(s, world, path)
      case Raises(m) => SaveRun(Raises(m), files)
      case Ok(h) =>
        var key := CachePath(s.cacheDir, path, h);
        match world.cacheWrite(key)
        case Written => SaveRun(Ok(()), files[key := Stored(rec)])
        case OpenFails => SaveRun(Ok(()), files)
        case DumpFails => SaveRun(Ok(()), files[key := Unreadable])
  }

  function ErrorRecord(md: Metadata, msg: string): Record
  {
    Record(None, Some(md), None, Some(msg))
  }

  datatype JobRun = JobRun(outcome: Outcome<Record>, files: CacheFiles)

  /** `calculate_audio_features(path, number)`: what it returns or raises,
      and the cache directory afterwards. */
  function RunJob(s: Settings, files: CacheFiles, world: World, job: Job): JobRun
  {
    match CheckCacheSpec(s, files, world, job.path)
    case Raises(m) => JobRun(Raises(m), files)
    case Ok(Some(rec)) => JobRun(ServeHit(rec, job.number), files)
    case Ok(None) => Compute(s, files, world, job)
  }

  /** A hit: `cached_result['metadata']['file_number'] = file_number`. */
  function ServeHit(rec: Record, number: int): Outcome<Record>
  {
    if rec.metadata.None? then Raises(MissingMetadataMessage)
    else Ok(rec.(metadata := Some(rec.metadata.value.(fileNumber := number))))
  }

  /** A miss: metadata outside the `try`, features inside it, then the save. */
  function Compute(s: Settings, files: CacheFiles, world: World, job: Job): JobRun
  {
    match MetadataSpec(s, world, job.path, job.number)
    case Raises(m) => JobRun(Raises(m), files)
    case Ok(md) =>
      match world.file(job.path).features
      case Raises(m) => JobRun(Ok(ErrorRecord(md, m)), files)
      case Ok(f) =>
        var rec := Record(None, Some(md), Some(f), None);
        var save := SaveSpec(s, files, world, job.path, rec);
        match save.outcome
        case Raises(m) => JobRun(Ok(ErrorRecord(md, m)), save.files)
        case Ok(_) => JobRun(Ok(rec), save.files)
  }

  /** Two cache directories that yield the same record for every file. */
  ghost predicate SameValidEntries(s: Settings, files1: CacheFiles, files2: CacheFiles)
  {
    forall key :: Lookup(s, files1, key) == Lookup(s, files2, key)
  }

  // ---------------------------------------------------------------- lemmas

  /** `check_cache` yields nothing when caching is off, when no cache file
      exists, when it cannot be read, and when its top-level `build_id` is not
      this build's; it raises only when the audio file cannot be hashed. */
  lemma CheckCacheCases(s: Settings, files: CacheFiles, world: World, path: string)
    ensures var r := CheckCacheSpec(s, files, world, path);
      && (!s.useCache ==> r == Ok(None))
      && (s.useCache && world.file(path).bytes.Raises? ==> r == Raises(world.file(path).bytes.msg))
      && (s.useCache && world.file(path).bytes.Ok? ==>
            var key := CachePath(s.cacheDir, path, s.sha256(world.file(path).bytes.value));
            && (key !in files ==> r == Ok(None))
            && (key in files && files[key].Unreadable? ==> r == Ok(None))
            && (key in files && files[key].Stored? && files[key].record.buildId != Some(s.buildId) ==> r == Ok(None))
            && (key in files && files[key].Stored? && files[key].record.buildId == Some(s.buildId) ==> r == Ok(Some(files[key].record))))
  {
  }

  /** `save_to_cache` does nothing when caching is off, never raises over a
      failed write, and a written record reads back unchanged from the cache
      file of every byte-identical audio file. */
  lemma SaveToCacheCases(s: Settings, files: CacheFiles, world: World, path: string, other: string, rec: Record)
    ensures !s.useCache ==> SaveSpec(s, files, world, path, rec) == SaveRun(Ok(()), files)
    ensures world.file(path).bytes.Ok? ==> SaveSpec(s, files, world, path, rec).outcome == Ok(())
    ensures s.useCache && world.file(path).bytes.Ok? && world.file(other).bytes == world.file(path).bytes ==>
      var key := CachePath(s.cacheDir, other, s.sha256(world.file(other).bytes.value));
      && (world.cacheWrite(key) == Written ==> SaveSpec(s, files, world, path, rec).files[key] == Stored(rec))
      && (world.cacheWrite(key) == OpenFails ==> SaveSpec(s, files, world, path, rec).files == files)
  {
  }

  /** A cache hit returns the stored record with `metadata.file_number` set to
      this job's number (or raises KeyError when it has no metadata), reads no
      tags or features and leaves the cache as it was. */
  lemma JobOnHit(s: Settings, files: CacheFiles, world: World, job: Job)
    requires CheckCacheSpec(s, files, world, job.path).Ok? && CheckCacheSpec(s, files, world, job.path).value.Some?
    ensures var rec, run := CheckCacheSpec(s, files, world, job.path).value.value, RunJob(s, files, world, job);
      && run.files == files
      && (rec.metadata.Some? ==>
            && run.outcome.Ok?
            && run.outcome.value.metadata == Some(rec.metadata.value.(fileNumber := job.number))
            && run.outcome.value.(metadata := rec.metadata) == rec)
      && (rec.metadata.None? ==> run.outcome == Raises(MissingMetadataMessage))
  {
  }

  /** On a miss, a job returns `{metadata, features}` and stores exactly that
      record once (or leaves the cache file as the write fault says) when
      extraction succeeds, returns `{metadata, error}` and stores nothing when
      feature extraction raises, and raises when metadata extraction does. */
  lemma {:induction false} JobOnMiss(s: Settings, files: CacheFiles, world: World, job: Job)
    requires CheckCacheSpec(s, files, world, job.path) == Ok(None)
    ensures var run, md := RunJob(s, files, world, job), MetadataSpec(s, world, job.path, job.number);
      && (md.Raises? ==> run == JobRun(Raises(md.msg), files))
      && (md.Ok? && world.file(job.path).features.Raises? ==>
            run == JobRun(Ok(Record(None, Some(md.value), None, Some(world.file(job.path).features.msg))), files))
      && (md.Ok? && world.file(job.path).features.Ok? ==>
            var rec := Record(None, Some(md.value), Some(world.file(job.path).features.value), None);
            run == JobRun(Ok(rec), SaveSpec(s, files, world, job.path, rec).files))
  {
    assert RunJob(s, files, world, job) == Compute(s, files, world, job);
    var md := MetadataSpec(s, world, job.path, job.number);
    if md.Ok? && world.file(job.path).features.Ok? {
      MetadataHashes(s, world, job.path, job.number);
      var rec := Record(None, Some(md.value), Some(world.file(job.path).features.value), None);
      assert SaveSpec(s, files, world, job.path, rec).outcome == Ok(());
    }
  }

  /** Metadata extraction succeeds only after hashing the file. */
  lemma MetadataHashes(s: Settings, world: World, path: string, number: int)
    requires MetadataSpec(s, world, path, number).Ok?
    ensures ContentDigest(s, world, path) == Ok(MetadataSpec(s, world, path, number).value.sha256)
  {
  }

  /** The metadata record: file name, number, losslessness from the suffix,
      the digest of the whole file, the build id, and tag fields exactly when
      the suffix is ".mp3" or ".flac". */
  lemma MetadataShape(s: Settings, world: World, path: string, number: int)
    requires MetadataSpec(s, world, path, number).Ok?
    ensures var md := MetadataSpec(s, world, path, number).value;
      && md.filename == Basename(path) && md.fileNumber == number
      && md.lossless == (Lower(Suffix(path)) == FlacSuffix)
      && ContentDigest(s, world, path) == Ok(md.sha256)
      && md.buildId == s.buildId
      && (md.audio.Some? <==> IsAudioFile(path))
      && (md.audio.Some? ==> world.file(path).tagReading.Ok? && md.audio.value == FieldsOf(FormatOf(path).value, world.file(path).tagReading.value))
  {
  }

  /** The records a job stores carry this build's id only inside `metadata`,
      while the cache test reads the top-level `build_id`: a stored record is
      never served back. */
  lemma {:induction false} StoredRecordsNeverServed(s: Settings, files: CacheFiles, world: World, job: Job)
    requires CheckCacheSpec(s, files, world, job.path) == Ok(None)
    requires MetadataSpec(s, world, job.path, job.number).Ok? && world.file(job.path).features.Ok?
    requires s.useCache
    ensures var key := CachePath(s.cacheDir, job.path, s.sha256(world.file(job.path).bytes.value));
      var run := RunJob(s, files, world, job);
      && world.cacheWrite(key) == Written ==>
           && key in run.files && run.files[key].Stored?
           && run.files[key].record.buildId.None?
           && run.files[key].record.metadata.value.buildId == s.buildId
           && Lookup(s, run.files, key) == None
  {
    JobOnMiss(s, files, world, job);
    MetadataShape(s, world, job.path, job.number);
  }

  /** Writing a record without a top-level `build_id` after a miss changes no
      record the cache serves. */
  lemma {:induction false} SaveKeepsValidEntries(s: Settings, files: CacheFiles, world: World, path: string, rec: Record)
    requires CheckCacheSpec(s, files, world, path) == Ok(None) && rec.buildId.None?
    ensures SameValidEntries(s, SaveSpec(s, files, world, path, rec).files, files)
  {
    var after := SaveSpec(s, files, world, path, rec).files;
    if s.useCache && ContentDigest(s, world, path).Ok? {
      var key := CachePath(s.cacheDir, path, ContentDigest(s, world, path).value);
      assert Lookup(s, files, key) == None;
      forall k ensures Lookup(s, after, k) == Lookup(s, files, k) {
        if k != key {
          assert k in after <==> k in files;
          if k in files {
            assert after[k] == files[k];
          }
        }
      }
    }
  }

  /** No job changes which records the cache serves: a job writes only after
      a miss, and what it writes is never served. */
  lemma {:induction false} JobKeepsValidEntries(s: Settings, files: CacheFiles, world: World, job: Job)
    ensures SameValidEntries(s, RunJob(s, files, world, job).files, files)
  {
    if CheckCacheSpec(s, files, world, job.path) == Ok(None) {
      assert RunJob(s, files, world, job) == Compute(s, files, world, job);
      JobOnMiss(s, files, world, job);
      var md := MetadataSpec(s, world, job.path, job.number);
      if md.Ok? && world.file(job.path).features.Ok? {
        var rec := Record(None, Some(md.value), Some(world.file(job.path).features.value), None);
        SaveKeepsValidEntries(s, files, world, job.path, rec);
      }
    } else {
      assert RunJob(s, files, world, job).files == files;
    }
  }

  /** What a job returns depends on the cache only through the records it
      serves. */
  lemma {:induction false} JobOutcomeDependsOnValidEntries(s: Settings, files1: CacheFiles, files2: CacheFiles, world: World, job: Job)
    requires SameValidEntries(s, files1, files2)
    ensures RunJob(s, files1, world, job).outcome == RunJob(s, files2, world, job).outcome
  {
    var check := CheckCacheSpec(s, files1, world, job.path);
    assert check == CheckCacheSpec(s, files2, world, job.path) by {
      if s.useCache && ContentDigest(s, world, job.path).Ok? {
        var key := CachePath(s.cacheDir, job.path, ContentDigest(s, world, job.path).value);
        assert Lookup(s, files1, key) == Lookup(s, files2, key);
      }
    }
    if check == Ok(None) {
      assert RunJob(s, files1, world, job) == Compute(s, files1, world, job);
      assert RunJob(s, files2, world, job) == Compute(s, files2, world, job);
      JobOnMiss(s, files1, world, job);
      JobOnMiss(s, files2, world, job);
    }
  }
}
