/** app.py, the first version of the tool: the file name and the mean MFCCs
    of each audio file, in the order the directory lists them. */
module MfccApp {
  import opened Outcomes
  import opened Paths
  import opened Files

  /** `{"filename": …, "mfcc_means": …}` and no other key. */
  datatype MeansResult = MeansResult(filename: string, mfccMeans: seq<real>)

  /** `calculate_mfcc`: librosa at its default sample rate, then the record. */
  function CalculateMfcc(world: World, path: string): (r: Outcome<MeansResult>)
    ensures r.Ok? <==> world.file(path).defaultMfcc.Ok?
    ensures r.Raises? ==> r.msg == world.file(path).defaultMfcc.msg
    ensures r.Ok? ==> r.value.filename == Basename(path) && r.value.mfccMeans == world.file(path).defaultMfcc.value
  {
    match world.file(path).defaultMfcc
    case Raises(m) => Raises(m)
    case Ok(means) => Ok(MeansResult(Basename(path), means))
  }

  function MeansOf(world: World): string -> Outcome<MeansResult>
  {
    path => CalculateMfcc(world, path)
  }

  /** `process_audio_files`: a single file is processed only when its suffix
      is ".mp3" or ".flac" in any letter case; a directory's entries are
      tested one by one in the order they are listed, with no sorting; a
      missing path is neither a file nor a directory with entries, so it
      gives nothing. A failure propagates. */
  method ProcessAudioFiles(input: InputPath, world: World) returns (r: Outcome<seq<MeansResult>>)
    ensures input.Missing? ==> r == Ok([])
    ensures input.SingleFile? && !IsAudioFile(input.path) ==> r == Ok([])
    ensures input.SingleFile? && IsAudioFile(input.path) ==> r == match CalculateMfcc(world, input.path)
      case Ok(one) => Ok([one])
      case Raises(m) => Raises(m)
    ensures input.Directory? ==> r == MapAll(FilterAudio(input.entries), MeansOf(world))
  {
    match input
    case Missing(_) =>
      r := Ok([]);
    case SingleFile(p) =>
      if !IsAudioFile(p) {
        return Ok([]);
      }
      var one := CalculateMfcc(world, p);
      if one.Raises? {
        return Raises(one.msg);
      }
      r := Ok([one.value]);
    case Directory(_, entries) =>
      r := ProcessEntries(entries, world);
  }

  /** The loop over `glob('*')`: each entry is tested, and an audio entry is
      processed and appended. */
  method ProcessEntries(entries: seq<string>, world: World) returns (r: Outcome<seq<MeansResult>>)
    ensures r == MapAll(FilterAudio(entries), MeansOf(world))
  {
    var results: seq<MeansResult> := [];
    var i := 0;
    while i < |entries|
      invariant 0 <= i <= |entries|
      invariant MapAll(FilterAudio(entries[..i]), MeansOf(world)) == Ok(results)
      decreases |entries| - i
    {
      var path := entries[i];
      FilterMapStep(entries, i, IsAudioFile, MeansOf(world), results);
      if IsAudioFile(path) {
        var one := CalculateMfcc(world, path);
        assert MeansOf(world)(path) == one;
        if one.Raises? {
          return Raises(one.msg);
        }
        results := results + [one.value];
      }
      i := i + 1;
    }
    assert entries[..i] == entries;
    r := Ok(results);
  }

  /** A directory gives one result per audio entry, in the order listed, each
      naming its own file, and nothing for the other entries. */
  lemma DirectoryResults(world: World, entries: seq<string>)
    ensures var files, r := FilterAudio(entries), MapAll(FilterAudio(entries), MeansOf(world));
      && (forall p :: p in files <==> p in entries && IsAudioFile(p))
      && (r.Ok? ==> |r.value| == |files| && forall i :: 0 <= i < |files| ==> r.value[i].filename == Basename(files[i]))
  {
    FilterMembers(entries, IsAudioFile);
    var files := FilterAudio(entries);
    MapAllMeaning(files, MeansOf(world));
    var r := MapAll(files, MeansOf(world));
    if r.Ok? {
      forall i | 0 <= i < |files| ensures r.value[i].filename == Basename(files[i]) {
        assert MeansOf(world)(files[i]) == CalculateMfcc(world, files[i]);
      }
    }
  }

  /** One pass of the loop: a skipped entry changes nothing, a kept entry
      whose call returns appends its value, and a kept entry whose call
      raises decides the whole loop. */
  lemma FilterMapStep<A, B>(xs: seq<A>, i: nat, keep: A -> bool, f: A -> Outcome<B>, vs: seq<B>)
    requires i < |xs| && MapAll(Filter(xs[..i], keep), f) == Ok(vs)
    ensures !keep(xs[i]) ==> MapAll(Filter(xs[..i + 1], keep), f) == Ok(vs)
    ensures keep(xs[i]) && f(xs[i]).Ok? ==> MapAll(Filter(xs[..i + 1], keep), f) == Ok(vs + [f(xs[i]).value])
    ensures keep(xs[i]) && f(xs[i]).Raises? ==> MapAll(Filter(xs, keep), f) == Raises(f(xs[i]).msg)
  {
    var before := Filter(xs[..i], keep);
    assert xs[..i + 1][..i] == xs[..i];
    if keep(xs[i]) {
      assert Filter(xs[..i + 1], keep) == before + [xs[i]];
      MapAllAppendOne(before, vs, xs[i], f);
      if f(xs[i]).Raises? {
        LaterEntriesIgnored(xs, i + 1, keep, f);
      }
    } else {
      assert Filter(xs[..i + 1], keep) == before + [];
      assert before + [] == before;
    }
  }

  /** After a failure among the kept elements of a prefix, the rest is never
      looked at. */
  lemma LaterEntriesIgnored<A, B>(xs: seq<A>, i: nat, keep: A -> bool, f: A -> Outcome<B>)
    requires i <= |xs| && MapAll(Filter(xs[..i], keep), f).Raises?
    ensures MapAll(Filter(xs, keep), f) == MapAll(Filter(xs[..i], keep), f)
  {
    assert xs == xs[..i] + xs[i..];
    FilterAppend(xs[..i], xs[i..], keep);
    RaisedStaysRaised(Filter(xs[..i], keep), Filter(xs[i..], keep), f);
  }
}
