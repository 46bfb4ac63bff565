/** The outside world as the drivers see it: the input path, and what the
    file system, mutagen and librosa report about each file. Every
    collaborator call is an input that either returns a value or raises. */
module Files {
  import opened Outcomes
  import opened Tags

  newtype byte = b: int | 0 <= b < 256

  /** The four feature groups librosa computes in audio_features, time-averaged. */
  datatype Features = Features(mfcc: seq<real>, spectralContrast: seq<real>, chroma: seq<real>, tempo: real)

  /** What happens when a cache file is written: it is written, `open(…, 'wb')`
      fails and leaves the file as it was, or `pickle.dump` fails after the
      file was truncated, leaving it unreadable. */
  datatype WriteFault = Written | OpenFails | DumpFails

  /** Everything the drivers ask about one audio file. `sizeInMb` stands for
      `round(st_size / 2**20, 2)`; `features`, `melMfcc` and `defaultMfcc` are
      the librosa pipelines of audio_features, audio_mfcc and app.py. */
  datatype FileFacts = FileFacts(
    sizeInMb: Outcome<real>,
    bytes: Outcome<seq<byte>>,
    tagReading: Outcome<TagReading>,
    features: Outcome<Features>,
    melMfcc: Outcome<seq<real>>,
    defaultMfcc: Outcome<seq<real>>)

  datatype World = World(file: string -> FileFacts, cacheWrite: string -> WriteFault)

  /** The input path: absent, a regular file, or a directory whose
      `glob('*')` yields `entries` (full paths, in enumeration order). */
  datatype InputPath =
    | Missing(path: string)
    | SingleFile(path: string)
    | Directory(path: string, entries: seq<string>)
}
