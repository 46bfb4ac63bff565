/** audio_mfcc/app.py: metadata plus the mean MFCCs of each file, one file
    after another, with no per-file error handling. */
module AudioMfcc {
  import opened Outcomes
  import opened Paths
  import opened Tags
  import opened Files
  import Jobs
  import Batch

  /** `{"filename", "file_size_in_mb", "lossless"}`, plus the tag and stream
      fields for ".mp3" and ".flac" files. */
  datatype MfccMetadata = MfccMetadata(filename: string, sizeInMb: real, lossless: bool, audio: Option<AudioFields>)

  /** `{"metadata": …, "features": {"mfcc": …}}` */
  datatype MfccResult = MfccResult(metadata: MfccMetadata, mfcc: seq<real>)

  /** `extract_metadata`: stat first, then the tags when the suffix names a
      supported format. */
  function ExtractMetadata(world: World, path: string): (r: Outcome<MfccMetadata>)
    ensures r.Raises? <==> world.file(path).sizeInMb.Raises? || (IsAudioFile(path) && world.file(path).tagReading.Raises?)
    ensures world.file(path).sizeInMb.Raises? ==> r == Raises(world.file(path).sizeInMb.msg)
    ensures r.Ok? ==>
      && r.value.filename == Basename(path)
      && r.value.sizeInMb == world.file(path).sizeInMb.value
      && (r.value.lossless <==> Lower(Suffix(path)) == FlacSuffix)
      && (r.value.audio.Some? <==> IsAudioFile(path))
      && (r.value.audio.Some? ==> r.value.audio.value == FieldsOf(FormatOf(path).value, world.file(path).tagReading.value))
  {
    var facts := world.file(path);
    match facts.sizeInMb
    case Raises(m) => Raises(m)
    case Ok(size) =>
      var base := MfccMetadata(Basename(path), size, IsLossless(path), None);
      match FormatOf(path)
      case None => Ok(base)
      case Some(format) =>
        match facts.tagReading
        case Raises(m) => Raises(m)
        case Ok(reading) => Ok(base.(audio := Some(FieldsOf(format, reading))))
  }

  /** `calculate_mfcc`: librosa runs before the metadata is read, so its
      failure is the one reported when both would fail. */
  function CalculateMfcc(world: World, path: string): (r: Outcome<MfccResult>)
    ensures world.file(path).melMfcc.Raises? ==> r == Raises(world.file(path).melMfcc.msg)
    ensures world.file(path).melMfcc.Ok? && ExtractMetadata(world, path).Raises? ==> r == Raises(ExtractMetadata(world, path).msg)
    ensures r.Ok? <==> world.file(path).melMfcc.Ok? && ExtractMetadata(world, path).Ok?
    ensures r.Ok? ==> r.value.metadata == ExtractMetadata(world, path).value && r.value.mfcc == world.file(path).melMfcc.value
  {
    match world.file(path).melMfcc
    case Raises(m) => Raises(m)
    case Ok(mfcc) =>
      match ExtractMetadata(world, path)
      case Raises(m) => Raises(m)
      case Ok(md) => Ok(MfccResult(md, mfcc))
  }

  function MfccOf(world: World): string -> Outcome<MfccResult>
  {
    path => CalculateMfcc(world, path)
  }

  /** `process_audio_files`: a missing input raises before any file is read;
      a single file is processed whatever its suffix; a directory's audio
      entries are processed in sorted order, and the first failure
      propagates. */
  method ProcessAudioFiles(input: InputPath, world: World) returns (r: Outcome<seq<MfccResult>>)
    ensures input.Missing? ==> r == Raises(Batch.MissingInputMessage(input.path))
    ensures input.SingleFile? ==> r == match CalculateMfcc(world, input.path)
      case Ok(one) => Ok([one])
      case Raises(m) => Raises(m)
    ensures input.Directory? ==> r == MapAll(SortPaths(FilterAudio(input.entries)), MfccOf(world))
  {
    match input
    case Missing(p) =>
      r := Raises(Batch.MissingInputMessage(p));
    case SingleFile(p) =>
      var one := CalculateMfcc(world, p);
      if one.Raises? {
        return Raises(one.msg);
      }
      r := Ok([one.value]);
    case Directory(_, entries) =>
      var audioFiles := SortPaths(FilterAudio(entries));
      var results: seq<MfccResult> := [];
      var i := 0;
      while i < |audioFiles|
        invariant 0 <= i <= |audioFiles|
        invariant MapAll(audioFiles[..i], MfccOf(world)) == Ok(results)
        decreases |audioFiles| - i
      {
        MapAllStep(audioFiles, MfccOf(world), i);
        var one := CalculateMfcc(world, audioFiles[i]);
        assert MfccOf(world)(audioFiles[i]) == one;
        if one.Raises? {
          FirstFailureWins(audioFiles, MfccOf(world), i);
          return Raises(one.msg);
        }
        results := results + [one.value];
        i := i + 1;
      }
      assert audioFiles[..i] == audioFiles;
      r := Ok(results);
  }

  /** A directory gives one result per audio entry, in sorted order, each
      naming its own file; the list does not depend on the order the
      directory is enumerated in. */
  lemma DirectoryResults(world: World, entries: seq<string>, reordered: seq<string>)
    requires multiset(reordered) == multiset(entries)
    ensures var files, r := SortPaths(FilterAudio(entries)), MapAll(SortPaths(FilterAudio(entries)), MfccOf(world));
      && (forall p :: p in files <==> p in entries && IsAudioFile(p))
      && SortedPaths(files)
      && (r.Ok? ==> |r.value| == |files| && forall i :: 0 <= i < |files| ==> r.value[i].metadata.filename == Basename(files[i]))
      && r == MapAll(SortPaths(FilterAudio(reordered)), MfccOf(world))
  {
    SortedAudioEntries(entries, reordered);
    var files := SortPaths(FilterAudio(entries));
    MapAllMeaning(files, MfccOf(world));
    var r := MapAll(files, MfccOf(world));
    if r.Ok? {
      forall i | 0 <= i < |files| ensures r.value[i].metadata.filename == Basename(files[i]) {
        assert MfccOf(world)(files[i]) == CalculateMfcc(world, files[i]);
      }
    }
  }

  /** The metadata is the one audio_features builds for the same file, less
      its number, digest and build id; audio_features reads it only after
      hashing, so it can fail where this one succeeds, never the reverse. */
  lemma SameMetadataAsAudioFeatures(s: Jobs.Settings, world: World, path: string, number: int)
    requires Jobs.MetadataSpec(s, world, path, number).Ok?
    ensures ExtractMetadata(world, path).Ok?
    ensures var md, m := Jobs.MetadataSpec(s, world, path, number).value, ExtractMetadata(world, path).value;
      m == MfccMetadata(md.filename, md.sizeInMb, md.lossless, md.audio)
  {
  }
}
