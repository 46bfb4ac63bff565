# FMDB audio features — a Dafny model

This project models three generations of the FMDB audio-feature extractor, a
command-line tool that walks an audio file or a directory of `.mp3`/`.flac`
files and reports metadata and averaged spectral features for each file:

- `audio_features/app.py`, the current version. Its `AudioProcessor` hashes
  each file with SHA-256 in 4096-byte blocks, and keeps a pickle cache keyed
  by that digest and guarded by a build id. It runs one job per file on a
  thread pool, files each outcome under results or errors, and sorts the
  results by file number.
- `audio_mfcc/app.py`, the sequential version. It gives metadata plus mean
  MFCCs per file, walks the sorted audio files of a directory, and has no
  per-file error handling.
- `app.py`, the first version. It gives only the file name and the mean
  MFCCs, and walks the directory in listing order.

librosa, mutagen, the file system and the pickle store are collaborators.
Each file's facts are inputs that either return a value or raise: size,
bytes, tag reading, features and MFCC vectors (`Files.World`). They are fixed for the whole run, so every read of a file gives the same outcome. SHA-256 is a
function value about which nothing is assumed, not even that it is
collision-free. The cache directory is a `map` from cache-file path to either
a stored record or an unreadable file. The thread pool is a sequential run
over `completion`, an arbitrary order in which the jobs finish, each job
running whole.

Modules:

- `Outcomes`: return-or-raise values, and a first-failure-wins loop.
- `Paths`: basename, suffix, the audio filter, and path ordering.
- `Tags`: the fields derived from mutagen's reading.
- `Files`: the collaborators.
- `Jobs`: one job of audio_features, as functions, with lemmas.
- `Batch`: discovery, the completion-order run, the sort, and the
  order-independence theorem.
- `AudioFeatures`: the `AudioProcessor` class. Each of its methods is proved
  against the function in `Jobs` or `Batch`.
- `AudioMfcc` and `MfccApp`: the two older drivers.

Three behaviours of the code shape the model:

- **A single file is job 1 whatever its suffix.** In audio_features, an input
  that is a regular file becomes job 1 without the audio-suffix test
  (`Batch.Discover`).
- **An empty job list raises.** A directory with no audio entries leads to
  `ThreadPoolExecutor(max_workers=0)`, which raises
  `ValueError("max_workers must be greater than 0")`, so
  `process_audio_files` raises (`Batch.ProcessSpec`).
- **Stored records are never served, so every run recomputes.** The code
  stores records with `build_id` only inside `metadata`, but accepts only a
  record whose top-level `build_id` matches
  (`Jobs.StoredRecordsNeverServed`, `Batch.NoHitsAfterBatch`).

## Model

| member | source | states |
|---|---|---|
| Paths.Basename | app.py:13 | the name has no '/', is a suffix of the path, and is preceded by '/' when shorter than the path |
| Paths.LastDot | audio_features/app.py:68 | the index of a '.' with no '.' after it, or -1 when there is none |
| Paths.Suffix | audio_features/app.py:272 | empty, or a '.' followed by at least one character, with no other '.' and no '/', shorter than the final component |
| Paths.SuffixIsTail | audio_features/app.py:272 | the suffix is the tail of the final component, starting at its last '.' |
| Paths.SuffixEmptyExactly | audio_features/app.py:272 | the suffix is empty exactly when the final component has no '.' that is neither its first nor its last character and has no '.' after it |
| Paths.SuffixIs | app.py:21-23 | a path has suffix ".mp3" (or ".flac") in any letter case exactly when its final component is longer than that suffix and its last characters lower-case to it |
| Paths.FilterAppend | app.py:25-27 | filtering a concatenation is the concatenation of the filtered parts |
| Paths.FilterPermutation | audio_features/app.py:272 | two enumerations of the same entries keep the same entries, counted with multiplicity |
| Paths.FilterMembers | audio_features/app.py:272 | an entry is kept exactly when it is listed and passes the test |
| Paths.SortPaths | audio_features/app.py:272 | `sorted()` returns a permutation of its input |
| Paths.SortPathsSorted | audio_features/app.py:272 | `sorted()` returns its paths in ascending code-point order |
| Paths.SortedPathsUnique | audio_features/app.py:272 | two sorted arrangements of the same paths are equal |
| Paths.SortedAudioEntries | audio_features/app.py:272 | the sorted audio entries are exactly the listed entries with an audio suffix, ascending, and the same for every enumeration order of the directory |
| Paths.SortedAudioEntriesDistinct | audio_features/app.py:272 | distinct directory entries give distinct sorted audio paths |
| Tags.FormatOf | audio_features/app.py:73-88 | the MP3 reader is used exactly for a ".mp3" suffix and the FLAC reader exactly for ".flac", in any letter case; no reader otherwise |
| Tags.ChannelLabel | audio_mfcc/app.py:37 | "Stereo" exactly when the channel count is 2, "Mono" otherwise |
| Tags.FieldsOfShape | audio_mfcc/app.py:25-52 | each tag field is the first value of its own ID3 or Vorbis key, or "" when the key or the whole tag block is missing; isrc is "" without its tag; the stream values are copied |
| Jobs.CachePathInjective | audio_features/app.py:54-56 | the cache file depends on the digest alone: two files share one exactly when their digests are equal, whatever the audio paths |
| Jobs.CheckCacheCases | audio_features/app.py:104-122 | no record when caching is off, when the cache file is absent, unreadable or from another build; the stored record on a top-level build-id match; a hashing error propagates |
| Jobs.SaveToCacheCases | audio_features/app.py:124-137 | nothing happens when caching is off; a write failure is swallowed; a written record reads back unchanged through every byte-identical file |
| Jobs.MetadataHashes | audio_features/app.py:58-62 | metadata succeeds only after the whole file was hashed, and records that digest |
| Jobs.MetadataShape | audio_features/app.py:58-102 | file name, number, lossless exactly for ".flac", the digest, the build id, and tag fields exactly for an audio suffix |
| Jobs.JobOnHit | audio_features/app.py:146-150 | a hit returns the stored record with only its file number replaced (or raises KeyError without metadata), and leaves the cache untouched |
| Jobs.JobOnMiss | audio_features/app.py:152-220 | a miss raises when metadata extraction raises, returns `{metadata, error}` and stores nothing when features fail, and otherwise stores and returns `{metadata, features}` |
| Jobs.StoredRecordsNeverServed | audio_features/app.py:202-213 | a record this code writes carries the build id only inside metadata, so the top-level test of line 116 never serves it |
| Jobs.SaveKeepsValidEntries | audio_features/app.py:124-137 | a save after a miss changes no record the cache serves |
| Jobs.JobKeepsValidEntries | audio_features/app.py:139-220 | no job changes which record any cache file serves |
| Jobs.JobOutcomeDependsOnValidEntries | audio_features/app.py:139-220 | a job's outcome depends on the cache only through the records it serves |
| Batch.Numbered | audio_features/app.py:272 | the i-th path becomes job number i+1 |
| Batch.Discover | audio_features/app.py:237-272 | raises exactly for a missing input; a single file is job 1 whatever its suffix |
| Batch.DirectoryJobs | audio_features/app.py:269-272 | a directory's jobs are exactly its audio entries, strictly ascending, numbered 1..N, for every enumeration order |
| Batch.RunFilesEachOutcome | audio_features/app.py:245-267 | in any completion order, each job's own outcome against the starting cache goes to results (no "error" key) or errors (an exception or an "error" key), in completion order, and the served records do not change |
| Batch.RunPartition | audio_features/app.py:245-267 | `len(results) + len(errors) == len(files)` |
| Batch.ResultNumber | audio_features/app.py:147-153 | every result has metadata carrying its own job's number |
| Batch.SuccessesStrictlyOrdered | audio_features/app.py:272 | results of jobs in increasing number order have strictly increasing file numbers |
| Batch.SortBy | audio_features/app.py:298 | the sort returns a permutation of its input |
| Batch.SortBySorted | audio_features/app.py:298 | the sort orders by key |
| Batch.SortedByUnique | audio_features/app.py:298 | with distinct keys, a sorted arrangement is unique |
| Batch.CollectPermutation | audio_features/app.py:281-293 | different completion orders file the same errors, counted with multiplicity |
| Batch.SortedSuccesses | audio_features/app.py:298 | sorting the results of any completion order by file number yields them in job order |
| Batch.FinishInJobOrder | audio_features/app.py:276-298 | after the pool and the sort, results are in job order and strictly ascending, errors are in completion order, and every job is filed once |
| Batch.ResultsInJobOrder | audio_features/app.py:237-298 | `process_audio_files` raises exactly when there are no jobs; otherwise the returned list is the job-order results, independent of completion order |
| Batch.OrderIndependent | audio_features/app.py:276-298 | two completion orders return the same list and the same errors up to order |
| Batch.NoHitsAfterBatch | audio_features/app.py:112-118 | a cache that serves nothing before a batch serves nothing after it |
| AudioFeatures.AudioProcessor.constructor | audio_features/app.py:32-44 | keeps `use_cache`; the cache directory defaults to `fmdb_audio_features_cache` under the temp directory |
| AudioFeatures.AudioProcessor.CalculateSha256 | audio_features/app.py:46-52 | the digest of the whole content, fed in non-empty blocks of at most 4096 bytes, all full but the last; a read error propagates |
| AudioFeatures.AudioProcessor.CheckCache | audio_features/app.py:104-122 | what `Jobs.CheckCacheSpec` gives, reading the cache only |
| AudioFeatures.AudioProcessor.ExtractMetadata | audio_features/app.py:58-102 | what `Jobs.MetadataSpec` gives |
| AudioFeatures.AudioProcessor.SaveToCache | audio_features/app.py:124-137 | the outcome and the new cache contents `Jobs.SaveSpec` gives |
| AudioFeatures.AudioProcessor.CalculateAudioFeatures | audio_features/app.py:139-220 | the outcome and the new cache contents `Jobs.RunJob` gives |
| AudioFeatures.AudioProcessor.RunPool | audio_features/app.py:245-287 | results, errors and cache after running the jobs in completion order |
| AudioFeatures.AudioProcessor.ProcessAudioFiles | audio_features/app.py:222-305 | raises for a missing input or no jobs; otherwise returns the job-order results, strictly ascending by file number, with every job filed once and the served records unchanged |
| Outcomes.MapAllMeaning | audio_mfcc/app.py:116-118 | the loop returns exactly when every call returns, then with each value in order; when it raises, it carries the message of the first call that raised |
| Outcomes.FirstFailureWins | audio_mfcc/app.py:117-118 | a call that raises after earlier calls returned ends the loop with its message |
| AudioMfcc.ExtractMetadata | audio_mfcc/app.py:15-54 | stat errors propagate; file name, size, lossless exactly for ".flac", and tag fields exactly for an audio suffix |
| AudioMfcc.CalculateMfcc | audio_mfcc/app.py:56-103 | librosa's failure is reported first, then metadata's; a result is the metadata plus `features` holding exactly the MFCC means |
| AudioMfcc.ProcessAudioFiles | audio_mfcc/app.py:105-121 | a missing input raises before any file; a single file gives one result whatever its suffix; a directory gives its sorted audio entries' results, or the first failure |
| AudioMfcc.DirectoryResults | audio_mfcc/app.py:116-118 | one result per audio entry, sorted, each naming its file, for every enumeration order |
| AudioMfcc.SameMetadataAsAudioFeatures | audio_mfcc/app.py:15-54 | whenever audio_features' metadata succeeds, this one succeeds too and equals it less number, digest and build id; so every failure of this one is also a failure of audio_features |
| MfccApp.CalculateMfcc | app.py:8-15 | `{filename, mfcc_means}` with the basename and librosa's means, or librosa's exception |
| MfccApp.ProcessAudioFiles | app.py:17-29 | a missing path gives nothing; a single file gives one result only with an audio suffix in any case; a directory gives its audio entries' results in listing order |
| MfccApp.ProcessEntries | app.py:25-27 | the loop over listed entries gives the results of the audio entries in listing order, or the first failure |
| MfccApp.DirectoryResults | app.py:25-27 | one result per audio entry, in listing order, each naming its file, and none for other entries |

## Left out

- librosa (mel spectrogram, MFCC, spectral contrast, chroma, beat tracking) and mutagen are inputs: each file's features and tag reading are given values or given exceptions.
- `file_size_in_mb` rounding, `int(length * 1000)` and `int(bitrate / 1000)` are floating-point computations; they are given values.
- SHA-256 is an arbitrary function of the bytes, and hex encoding is part of it. Collisions are allowed, so nothing proved depends on the hash being collision-free.
- pickle is not modelled. A cache file is a stored record or unreadable, and a write outcome is given per cache path. The cache directory's `mkdir` in `__init__` is not modelled.
- The thread pool, lock, `as_completed` and tqdm become a sequential run in a given completion order. Interleavings inside one job are not modelled. Since no job changes which records are served, they could not change any outcome.
- `os.cpu_count()` plays no part beyond `max_workers` being zero exactly when there are no jobs.
- Logging, verbose JSON printing, the output file, and the typer/click `main` entry points are I/O and are left out. The errors list is returned rather than logged.
- The batch model is `process_audio_files` with `output=None` and `verbose=False`, or with an output write and a print that cannot raise. With an `output`, lines 300-303 run after the sort. `open(output, 'w')` at line 301 can raise, and so can `json.dump(results, …)` at line 302, for example on a mutagen `ID3TimeStamp` year. Either raise turns a finished batch into a raise of `process_audio_files`, which the model's `Ok` result does not capture. With `verbose=True` and no `output`, `print(json.dumps(result, indent=2))` runs inside `process_file`'s `try`, after the append. Take a result `json.dumps` cannot serialise, such as one for an MP3 whose year is a mutagen `ID3TimeStamp`. A success is then filed in `results` and again in `errors`; a `{metadata, error}` record is filed in `errors` twice. Either way `len(results) + len(errors) == len(files)` fails. The double filing is not modelled. `Batch.RunPartition`, `Batch.FinishInJobOrder` and `AudioFeatures.AudioProcessor.ProcessAudioFiles` promise that each job is filed once only for that non-verbose call.
- Files do not change during a run: every read of a file gives the same outcome. A cache miss in `calculate_audio_features` hashes the file three times: in `check_cache` (audio_features/app.py:109), in `extract_metadata` (line 62) and in `save_to_cache` (line 129). Two paths that arise when the file changes between those reads are not modelled. First, if the file becomes unreadable after line 62, the re-hash at line 129 raises outside `save_to_cache`'s own `try`. Lines 217-220 then catch it and return `{metadata, error}`, even though feature extraction succeeded. Second, if the bytes change between lines 109 and 129, the record is saved under a different key from the one the cache check read. `Jobs.JobOnMiss` (a miss with successful features stores and returns `{metadata, features}`) and `Jobs.JobKeepsValidEntries` (the save writes the key the check read) rest on this premise.
- `BUILD_ID` and `tempfile.gettempdir()` come from the environment; they are constructor parameters.
- Lower-casing maps ASCII letters only. Python's full Unicode `str.lower` is not modelled.
- Paths are strings, and directory entries are given as full paths. `pathlib` normalisation is not modelled. Path ordering is code-point order of the whole path string, which agrees with pathlib's part-wise order among the entries of one directory.
- Tags: a tag maps to its first value. mutagen's case-insensitive Vorbis keys and TDRC timestamp objects are not modelled.
- `if result:` and `if cached_result:` are always true here. A result dictionary always has `metadata`, and a served record has a top-level `build_id`.
- Batch.SortBy: stability of `list.sort` is not stated. Keys are distinct, so `Batch.SortedByUnique` fixes the order anyway.
- `audio_features/tests.py`, `setup.py` and `audio_features/__init__.py` are not part of this model.
