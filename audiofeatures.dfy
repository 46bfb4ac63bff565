/** audio_features/app.py as the program is written: an `AudioProcessor`
    object whose methods hash, look up, compute and store one file at a time,
    and a batch driver. The cache directory is an object whose contents the
    methods change; each method is proved against its function in Jobs or
    Batch. */
module AudioFeatures {
  import opened Outcomes
  import opened Files
  import opened Jobs
  import opened Batch

  /** The directory name used under the temp directory when no cache
      directory is given. */
  const DefaultCacheName := "fmdb_audio_features_cache"

  /** The cache directory on disk: its files, by full path. */
  class CacheDisk {
    var files: CacheFiles

    constructor(files: CacheFiles)
      ensures this.files == files
    {
      this.files := files;
    }
  }

  class AudioProcessor {
    const useCache: bool
    const cacheDir: string
    /** The process's `BUILD_ID` environment value ("development" when unset). */
    const buildId: string
    const sha256: seq<byte> -> string
    const disk: CacheDisk

    /** `AudioProcessor(cache_dir, use_cache)`: the cache directory defaults to
        `fmdb_audio_features_cache` under the temp directory. */
    constructor(cacheDir: Option<string>, useCache: bool, tempDir: string, buildId: string, sha256: seq<byte> -> string, disk: CacheDisk)
      ensures this.useCache == useCache && this.buildId == buildId && this.sha256 == sha256 && this.disk == disk
      ensures this.cacheDir == if cacheDir.Some? then cacheDir.value else tempDir + "/" + DefaultCacheName
    {
      this.useCache := useCache;
      this.cacheDir := if cacheDir.Some? then cacheDir.value else tempDir + "/" + DefaultCacheName;
      this.buildId := buildId;
      this.sha256 := sha256;
      this.disk := disk;
    }

    function Config(): Settings
    {
      Settings(useCache, cacheDir, buildId, sha256)
    }

    /** `calculate_sha256`: the file is fed to the hash in 4096-byte blocks
        until a read comes back empty; the digest is that of the whole file. */
    method CalculateSha256(path: string, world: World) returns (r: Outcome<string>, ghost blocks: seq<seq<byte>>)
      ensures r == ContentDigest(Config(), world, path)
      ensures r.Ok? ==> Concat(blocks) == world.file(path).bytes.value
      ensures forall i :: 0 <= i < |blocks| ==> 0 < |blocks[i]| <= BlockSize
      ensures forall i :: 0 <= i < |blocks| - 1 ==> |blocks[i]| == BlockSize
    {
      blocks := [];
      match world.file(path).bytes
      case Raises(m) =>
        r := Raises(m);
      case Ok(content) =>
        var fed: seq<byte> := [];
        var pos := 0;
        while pos < |content|
          invariant 0 <= pos <= |content|
          invariant fed == content[..pos] == Concat(blocks)
          invariant forall i :: 0 <= i < |blocks| ==> 0 < |blocks[i]| <= BlockSize
          invariant forall i :: 0 <= i < |blocks| - 1 ==> |blocks[i]| == BlockSize
          invariant blocks != [] && |blocks[|blocks| - 1]| < BlockSize ==> pos == |content|
          decreases |content| - pos
        {
          var end := if pos + BlockSize <= |content| then pos + BlockSize else |content|;
          var block := content[pos..end];
          assert content[..end] == content[..pos] + block;
          var prev := blocks;
          fed := fed + block;
          blocks := prev + [block];
          assert blocks[..|blocks| - 1] == prev;
          pos := end;
        }
        assert content[..pos] == content;
        r := Ok(sha256(fed));
    }

    /** `check_cache`: nothing when caching is off; otherwise the record in
        this file's cache file when it is readable and its top-level
        `build_id` is this build's. Reading the cache changes nothing. */
    method CheckCache(path: string, world: World) returns (r: Outcome<Option<Record>>)
      ensures r == CheckCacheSpec(Config(), disk.files, world, path)
    {
      if !useCache {
        return Ok(None);
      }
      var digest, _ := CalculateSha256(path, world);
      match digest
      case Raises(m) =>
        r := Raises(m);
      case Ok(h) =>
        var key := CachePath(cacheDir, path, h);
        if key in disk.files && disk.files[key].Stored? && disk.files[key].record.buildId == Some(buildId) {
          r := Ok(Some(disk.files[key].record));
        } else {
          r := Ok(None);
        }
    }

    /** `extract_metadata` */
    method ExtractMetadata(path: string, number: int, world: World) returns (r: Outcome<Metadata>)
      ensures r == MetadataSpec(Config(), world, path, number)
    {
      var facts := world.file(path);
      if facts.sizeInMb.Raises? {
        return Raises(facts.sizeInMb.msg);
      }
      var digest, _ := CalculateSha256(path, world);
      if digest.Raises? {
        return Raises(digest.msg);
      }
      var md := Metadata(Paths.Basename(path), number, facts.sizeInMb.value, Paths.IsLossless(path), digest.value, buildId, None);
      var format := Tags.FormatOf(path);
      if format.Some? {
        if facts.tagReading.Raises? {
          return Raises(facts.tagReading.msg);
        }
        md := md.(audio := Some(Tags.FieldsOf(format.value, facts.tagReading.value)));
      }
      r := Ok(md);
    }

    /** `save_to_cache` */
    method SaveToCache(path: string, rec: Record, world: World) returns (r: Outcome<()>)
      modifies disk
      ensures SaveRun(r, disk.files) == SaveSpec(Config(), old(disk.files), world, path, rec)
    {
      if !useCache {
        return Ok(());
      }
      var digest, _ := CalculateSha256(path, world);
      if digest.Raises? {
        return Raises(digest.msg);
      }
      var key := CachePath(cacheDir, path, digest.value);
      r := Ok(());
      match world.cacheWrite(key)
      case Written => disk.files := disk.files[key := Stored(rec)];
      case OpenFails =>
      case DumpFails => disk.files := disk.files[key := Unreadable];
    }

    /** `calculate_audio_features`: what one job returns or raises and what it
        leaves in the cache directory. */
    method CalculateAudioFeatures(path: string, number: int, world: World) returns (r: Outcome<Record>)
      modifies disk
      ensures JobRun(r, disk.files) == RunJob(Config(), old(disk.files), world, Job(path, number))
    {
      var cached := CheckCache(path, world);
      if cached.Raises? {
        return Raises(cached.msg);
      }
      if cached.value.Some? {
        var rec := cached.value.value;
        if rec.metadata.None? {
          return Raises(MissingMetadataMessage);
        }
        return Ok(rec.(metadata := Some(rec.metadata.value.(fileNumber := number))));
      }
      var md := ExtractMetadata(path, number, world);
      if md.Raises? {
        return Raises(md.msg);
      }
      match world.file(path).features
      case Raises(m) =>
        r := Ok(ErrorRecord(md.value, m));
      case Ok(f) =>
        var rec := Record(None, Some(md.value), Some(f), None);
        var saved := SaveToCache(path, rec, world);
        if saved.Raises? {
          r := Ok(ErrorRecord(md.value, saved.msg));
        } else {
          r := Ok(rec);
        }
    }

    /** `process_audio_files`. The thread pool is modelled by `completion`,
        the order in which the jobs finish, each job running whole; any order
        of the discovered jobs may be given. The errors list is returned as
        well. The results come back in job order whatever the completion
        order, and the cache afterwards serves exactly what it served before. */
    method ProcessAudioFiles(input: InputPath, world: World, completion: seq<Job>)
        returns (r: Outcome<seq<Record>>, errors: seq<(string, string)>)
      requires Discover(input).Ok? ==> multiset(completion) == multiset(Discover(input).value)
      modifies disk
      ensures match ProcessSpec(Config(), old(disk.files), world, input, completion)
        case Raises(m) => r == Raises(m) && disk.files == old(disk.files)
        case Ok(st) => r == Ok(st.results) && errors == st.errors && disk.files == st.files
      ensures r.Raises? <==> input.Missing? || |Discover(input).value| == 0
      ensures r.Ok? ==>
        && r.value == Successes(Config(), old(disk.files), world, Discover(input).value)
        && StrictlyBy(r.value, Key)
        && |r.value| + |errors| == |completion|
        && SameValidEntries(Config(), disk.files, old(disk.files))
    {
      errors := [];
      var jobs := Discover(input);
      if jobs.Raises? {
        return Raises(jobs.msg), errors;
      }
      if |jobs.value| == 0 {
        return Raises(NoWorkersMessage), errors;
      }
      ghost var files0 := disk.files;
      var results;
      results, errors := RunPool(world, completion);
      r := Ok(SortByFileNumber(results));
      ResultsInJobOrder(Config(), files0, world, input, completion);
    }

    /** The pool with `process_file` as its task: every job runs to completion
        in `completion` order, and its outcome is filed under results or
        errors. */
    method RunPool(world: World, completion: seq<Job>) returns (results: seq<Record>, errors: seq<(string, string)>)
      modifies disk
      ensures Run(Config(), old(disk.files), world, completion) == BatchState(results, errors, disk.files)
    {
      results, errors := [], [];
      var i := 0;
      while i < |completion|
        invariant 0 <= i <= |completion|
        invariant Run(Config(), old(disk.files), world, completion[..i]) == BatchState(results, errors, disk.files)
        decreases |completion| - i
      {
        var job := completion[i];
        RunStep(Config(), old(disk.files), world, completion, i);
        var out := CalculateAudioFeatures(job.path, job.number, world);
        results := results + ResultsOf(out);
        errors := errors + ErrorsOf(job, out);
        i := i + 1;
      }
      assert completion[..i] == completion;
    }
  }
}
