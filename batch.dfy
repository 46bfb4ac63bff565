/** A batch of audio_features (`AudioProcessor.process_audio_files`): discover
    and number the files, run every job once in the order the thread pool
    completes them, file each outcome under results or errors, and sort the
    results by file number. */
module Batch {
  import opened Outcomes
  import opened Paths
  import opened Files
  import opened Jobs

  /** `str(ValueError)` of `ThreadPoolExecutor(max_workers=0)`. */
  const NoWorkersMessage := "max_workers must be greater than 0"

  function MissingInputMessage(path: string): string
  {
    "Input path " + path + " does not exist"
  }

  /** `[(f, i + 1) for i, f in enumerate(paths)]` */
  function Numbered(paths: seq<string>): (jobs: seq<Job>)
    ensures |jobs| == |paths|
    ensures forall i :: 0 <= i < |jobs| ==> jobs[i] == Job(paths[i], i + 1)
  {
    seq(|paths|, i requires 0 <= i < |paths| => Job(paths[i], i + 1))
  }

  /** The job list: a missing input raises; a single file is job 1 whatever
      its suffix; a directory gives its audio entries, sorted, numbered 1..N. */
  function Discover(input: InputPath): (r: Outcome<seq<Job>>)
    ensures r.Raises? <==> input.Missing?
    ensures input.SingleFile? ==> r == Ok([Job(input.path, 1)])
  {
    match input
    case Missing(p) => Raises(MissingInputMessage(p))
    case SingleFile(p) => Ok([Job(p, 1)])
    case Directory(_, entries) => Ok(Numbered(SortPaths(FilterAudio(entries))))
  }

  function JobPaths(jobs: seq<Job>): (paths: seq<string>)
    ensures |paths| == |jobs|
  {
    seq(|jobs|, i requires 0 <= i < |jobs| => jobs[i].path)
  }

  /** Only results without an "error" key go to `results`. */
  function ResultsOf(out: Outcome<Record>): seq<Record>
  {
    if out.Ok? && out.value.error.None? then [out.value] else []
  }

  /** A raised exception, or a result with an "error" key, goes to `errors`. */
  function ErrorsOf(job: Job, out: Outcome<Record>): seq<(string, string)>
  {
    match out
    case Raises(m) => [(job.path, m)]
    case Ok(rec) => if rec.error.Some? then [(job.path, rec.error.value)] else []
  }

  datatype BatchState = BatchState(results: seq<Record>, errors: seq<(string, string)>, files: CacheFiles)

  /** `process_file(job)`, run to completion before the next job starts. */
  function Step(s: Settings, world: World, st: BatchState, job: Job): BatchState
  {
    var run := RunJob(s, st.files, world, job);
    BatchState(st.results + ResultsOf(run.outcome), st.errors + ErrorsOf(job, run.outcome), run.files)
  }

  /** The jobs run one after another in completion order. */
  function Run(s: Settings, files: CacheFiles, world: World, completion: seq<Job>): BatchState
    decreases |completion|
  {
    if completion == [] then BatchState([], [], files)
    else Step(s, world, Run(s, files, world, completion[..|completion| - 1]), completion[|completion| - 1])
  }

  /** `[y for x in xs for y in f(x)]` */
  function Collect<T, U>(xs: seq<T>, f: T -> seq<U>): seq<U>
    decreases |xs|
  {
    if xs == [] then [] else Collect(xs[..|xs| - 1], f) + f(xs[|xs| - 1])
  }

  /** What a job contributes to `results` and to `errors` when run against `files`. */
  function ResultsFn(s: Settings, files: CacheFiles, world: World): Job -> seq<Record>
  {
    job => ResultsOf(RunJob(s, files, world, job).outcome)
  }

  function ErrorsFn(s: Settings, files: CacheFiles, world: World): Job -> seq<(string, string)>
  {
    job => ErrorsOf(job, RunJob(s, files, world, job).outcome)
  }

  /** The results and errors of `jobs`, each job run against `files`. */
  function Successes(s: Settings, files: CacheFiles, world: World, jobs: seq<Job>): seq<Record>
  {
    Collect(jobs, ResultsFn(s, files, world))
  }

  function Failures(s: Settings, files: CacheFiles, world: World, jobs: seq<Job>): seq<(string, string)>
  {
    Collect(jobs, ErrorsFn(s, files, world))
  }

  // ---- `results.sort(key=lambda x: x['metadata']['file_number'])` ----

  /** The sort key; every record in `results` has metadata (a cache hit
      without it raised KeyError instead). */
  function Key(rec: Record): int
  {
    if rec.metadata.Some? then rec.metadata.value.fileNumber else 0
  }

  predicate SortedBy<T>(rs: seq<T>, key: T -> int)
  {
    forall i, j :: 0 <= i < j < |rs| ==> key(rs[i]) <= key(rs[j])
  }

  predicate StrictlyBy<T>(rs: seq<T>, key: T -> int)
  {
    forall i, j :: 0 <= i < j < |rs| ==> key(rs[i]) < key(rs[j])
  }

  function InsertBy<T>(x: T, rs: seq<T>, key: T -> int): (r: seq<T>)
    ensures multiset(r) == multiset(rs) + multiset{x}
    decreases |rs|
  {
    if rs == [] || key(x) <= key(rs[0]) then [x] + rs
    else
      assert rs == [rs[0]] + rs[1..];
      [rs[0]] + InsertBy(x, rs[1..], key)
  }

  /** `list.sort(key=...)` (an insertion sort; stable like Python's). */
  function SortBy<T>(rs: seq<T>, key: T -> int): (r: seq<T>)
    ensures multiset(r) == multiset(rs)
    decreases |rs|
  {
    if rs == [] then []
    else
      assert rs == [rs[0]] + rs[1..];
      InsertBy(rs[0], SortBy(rs[1..], key), key)
  }

  function SortByFileNumber(rs: seq<Record>): seq<Record>
  {
    SortBy(rs, Key)
  }

  /** `process_audio_files` after the input check: no jobs means a pool of
      zero workers, which raises; otherwise run and sort. */
  function ProcessSpec(s: Settings, files: CacheFiles, world: World, input: InputPath, completion: seq<Job>): Outcome<BatchState>
  {
    match Discover(input)
    case Raises(m) => Raises(m)
    case Ok(jobs) =>
      if |jobs| == 0 then Raises(NoWorkersMessage)
      else Ok(Finish(s, files, world, completion))
  }

  /** Run the pool, then `results.sort(key=…)`. */
  function Finish(s: Settings, files: CacheFiles, world: World, completion: seq<Job>): BatchState
  {
    var st := Run(s, files, world, completion);
    st.(results := SortByFileNumber(st.results))
  }

  // ---------------------------------------------------------------- lemmas

  /** For a directory of distinct entries the jobs are exactly its audio
      entries, strictly ascending, numbered 1..N; their order does not depend
      on the order the directory is enumerated in. */
  lemma {:induction false} DirectoryJobs(input: InputPath, reordered: seq<string>)
    requires input.Directory? && Distinct(input.entries)
    requires multiset(reordered) == multiset(input.entries)
    ensures var jobs := Discover(input).value;
      && (forall p :: p in JobPaths(jobs) <==> p in input.entries && IsAudioFile(p))
      && (forall i, j :: 0 <= i < j < |jobs| ==> LexLeq(jobs[i].path, jobs[j].path) && jobs[i].path != jobs[j].path)
      && (forall i :: 0 <= i < |jobs| ==> jobs[i].number == i + 1)
      && jobs == Discover(Directory(input.path, reordered)).value
  {
    var paths := SortPaths(FilterAudio(input.entries));
    SortedAudioEntries(input.entries, reordered);
    SortedAudioEntriesDistinct(input.entries);
    assert JobPaths(Discover(input).value) == paths;
  }

  lemma {:induction false} CollectAppend<T, U>(a: seq<T>, b: seq<T>, f: T -> seq<U>)
    ensures Collect(a + b, f) == Collect(a, f) + Collect(b, f)
    decreases |b|
  {
    if b == [] {
      assert a + b == a;
    } else {
      var b' := b[..|b| - 1];
      var ab := a + b;
      assert ab[..|ab| - 1] == a + b' && ab[|ab| - 1] == b[|b| - 1];
      CollectAppend(a, b', f);
    }
  }

  lemma CollectLast<T, U>(a: seq<T>, x: T, f: T -> seq<U>)
    ensures Collect(a + [x], f) == Collect(a, f) + f(x)
  {
    assert (a + [x])[..|a|] == a;
  }

  lemma CollectSplit<T, U>(b1: seq<T>, x: T, b2: seq<T>, f: T -> seq<U>)
    ensures multiset(Collect(b1 + [x] + b2, f)) == multiset(Collect(b1 + b2, f)) + multiset(f(x))
  {
    CollectAppend(b1, b2, f);
    CollectAppend(b1 + [x], b2, f);
    CollectLast(b1, x, f);
    var cb1, cb2, fx := Collect(b1, f), Collect(b2, f), f(x);
    assert Collect(b1 + [x] + b2, f) == cb1 + fx + cb2;
    assert multiset(cb1 + fx + cb2) == multiset(cb1) + multiset(fx) + multiset(cb2);
  }

  /** Collecting over any arrangement of the same elements gives the same
      elements, up to order. */
  lemma {:induction false} CollectPermutation<T, U>(a: seq<T>, b: seq<T>, f: T -> seq<U>)
    requires multiset(a) == multiset(b)
    ensures multiset(Collect(a, f)) == multiset(Collect(b, f))
    decreases |a|
  {
    if a == [] {
      assert |b| == |multiset(b)| == 0;
    } else {
      var a', x := a[..|a| - 1], a[|a| - 1];
      assert a == a' + [x];
      assert x in multiset(b);
      var i :| 0 <= i < |b| && b[i] == x;
      var b1, b2 := b[..i], b[i + 1..];
      assert b == b1 + [x] + b2;
      assert multiset(a') == multiset(b1 + b2) by {
        assert multiset(a') == multiset(a) - multiset{x};
        assert multiset(b1 + b2) == multiset(b) - multiset{x};
      }
      CollectPermutation(a', b1 + b2, f);
      CollectLast(a', x, f);
      CollectSplit(b1, x, b2, f);
    }
  }

  /** Running the jobs in any completion order files each job's own outcome
      (the one it would have against the starting cache) under results or
      errors, in completion order, and leaves the served records unchanged. */
  lemma {:induction false} RunFilesEachOutcome(s: Settings, files: CacheFiles, world: World, completion: seq<Job>)
    ensures var st := Run(s, files, world, completion);
      && st.results == Successes(s, files, world, completion)
      && st.errors == Failures(s, files, world, completion)
      && SameValidEntries(s, st.files, files)
    decreases |completion|
  {
    if completion != [] {
      var init, job := completion[..|completion| - 1], completion[|completion| - 1];
      RunFilesEachOutcome(s, files, world, init);
      var st := Run(s, files, world, init);
      JobOutcomeDependsOnValidEntries(s, st.files, files, world, job);
      JobKeepsValidEntries(s, st.files, world, job);
      var after := RunJob(s, st.files, world, job).files;
      forall k ensures Lookup(s, after, k) == Lookup(s, files, k) {
        assert Lookup(s, after, k) == Lookup(s, st.files, k);
      }
    }
  }

  /** One more completed job. */
  lemma RunStep(s: Settings, files: CacheFiles, world: World, completion: seq<Job>, i: nat)
    requires i < |completion|
    ensures Run(s, files, world, completion[..i + 1]) == Step(s, world, Run(s, files, world, completion[..i]), completion[i])
  {
    assert completion[..i + 1][..i] == completion[..i];
  }

  /** Every job is filed exactly once, under results or under errors. */
  lemma {:induction false} RunPartition(s: Settings, files: CacheFiles, world: World, completion: seq<Job>)
    ensures var st := Run(s, files, world, completion);
      |st.results| + |st.errors| == |completion|
    decreases |completion|
  {
    if completion != [] {
      RunPartition(s, files, world, completion[..|completion| - 1]);
    }
  }

  /** A job's result, when it has one, carries metadata with that job's
      number: a hit gets the number written into it, a miss builds it. */
  lemma ResultNumber(s: Settings, files: CacheFiles, world: World, job: Job)
    ensures forall rec :: rec in ResultsOf(RunJob(s, files, world, job).outcome) ==>
      rec.metadata.Some? && Key(rec) == job.number
  {
    var check := CheckCacheSpec(s, files, world, job.path);
    if check.Ok? && check.value.Some? {
      JobOnHit(s, files, world, job);
    } else if check.Ok? {
      JobOnMiss(s, files, world, job);
      if MetadataSpec(s, world, job.path, job.number).Ok? {
        MetadataShape(s, world, job.path, job.number);
      }
    }
  }

  /** The results of jobs numbered below `high` have keys below it. */
  lemma {:induction false} SuccessKeysBelow(s: Settings, files: CacheFiles, world: World, jobs: seq<Job>, high: int)
    requires forall i :: 0 <= i < |jobs| ==> jobs[i].number < high
    ensures forall rec :: rec in Successes(s, files, world, jobs) ==> Key(rec) < high
    decreases |jobs|
  {
    if jobs != [] {
      var init, last := jobs[..|jobs| - 1], jobs[|jobs| - 1];
      SuccessKeysBelow(s, files, world, init, high);
      ResultNumber(s, files, world, last);
      assert Successes(s, files, world, jobs) == Successes(s, files, world, init) + ResultsOf(RunJob(s, files, world, last).outcome);
    }
  }

  /** Jobs numbered in increasing order give results in strictly increasing
      file-number order. */
  lemma {:induction false} SuccessesStrictlyOrdered(s: Settings, files: CacheFiles, world: World, jobs: seq<Job>)
    requires forall i, j :: 0 <= i < j < |jobs| ==> jobs[i].number < jobs[j].number
    ensures StrictlyBy(Successes(s, files, world, jobs), Key)
    decreases |jobs|
  {
    if jobs != [] {
      var init, last := jobs[..|jobs| - 1], jobs[|jobs| - 1];
      SuccessesStrictlyOrdered(s, files, world, init);
      ResultNumber(s, files, world, last);
      var t := Successes(s, files, world, init);
      var r := ResultsOf(RunJob(s, files, world, last).outcome);
      assert Successes(s, files, world, jobs) == t + r;
      assert |r| <= 1;
      SuccessKeysBelow(s, files, world, init, last.number);
      forall i, j | 0 <= i < j < |t + r| ensures Key((t + r)[i]) < Key((t + r)[j]) {
        if j >= |t| {
          assert (t + r)[j] in r;
          assert (t + r)[i] in t;
        }
      }
    }
  }

  lemma SortedHeadIsLeast<T>(a: seq<T>, x: T, key: T -> int)
    requires SortedBy(a, key) && x in a
    ensures key(a[0]) <= key(x)
  {
    var k :| 0 <= k < |a| && a[k] == x;
  }

  /** An arrangement sorted by a key that is strictly ascending in another
      arrangement of the same elements is that arrangement. */
  lemma {:induction false} SortedByUnique<T>(a: seq<T>, b: seq<T>, key: T -> int)
    requires SortedBy(a, key) && StrictlyBy(b, key) && multiset(a) == multiset(b)
    ensures a == b
    decreases |a|
  {
    assert |a| == |multiset(a)| == |multiset(b)| == |b|;
    if a != [] {
      assert a[0] in multiset(b) && b[0] in multiset(a);
      var k :| 0 <= k < |b| && b[k] == a[0];
      SortedHeadIsLeast(a, b[0], key);
      assert k == 0;
      TailsPermutation(a, b);
      SortedByUnique(a[1..], b[1..], key);
    }
  }

  lemma {:induction false} InsertBySorted<T>(x: T, rs: seq<T>, key: T -> int)
    requires SortedBy(rs, key)
    ensures SortedBy(InsertBy(x, rs, key), key)
    decreases |rs|
  {
    if rs != [] && key(x) > key(rs[0]) {
      InsertBySorted(x, rs[1..], key);
      var t := InsertBy(x, rs[1..], key);
      var r := [rs[0]] + t;
      forall i, j | 0 <= i < j < |r| ensures key(r[i]) <= key(r[j]) {
        if i == 0 {
          assert r[j] in multiset(t);
          assert r[j] == x || r[j] in multiset(rs[1..]);
          if r[j] != x {
            var k :| 0 <= k < |rs[1..]| && rs[1..][k] == r[j];
            assert rs[k + 1] == r[j];
          }
        }
      }
    }
  }

  /** The sort leaves the records ordered by file number. */
  lemma {:induction false} SortBySorted<T>(rs: seq<T>, key: T -> int)
    ensures SortedBy(SortBy(rs, key), key)
    decreases |rs|
  {
    if rs != [] {
      SortBySorted(rs[1..], key);
      InsertBySorted(rs[0], SortBy(rs[1..], key), key);
    }
  }

  /** The returned list is the same for every completion order: the results
      of the discovered jobs, in job order. Errors keep completion order, and
      every job lands in exactly one of the two lists. */
  lemma {:induction false} ResultsInJobOrder(s: Settings, files: CacheFiles, world: World, input: InputPath, completion: seq<Job>)
    requires Discover(input).Ok? && multiset(completion) == multiset(Discover(input).value)
    ensures var r, jobs := ProcessSpec(s, files, world, input, completion), Discover(input).value;
      && (r.Ok? <==> |jobs| > 0)
      && (r.Ok? ==>
            && r.value.results == Successes(s, files, world, jobs)
            && StrictlyBy(r.value.results, Key)
            && r.value.errors == Failures(s, files, world, completion)
            && |r.value.results| + |r.value.errors| == |jobs|
            && SameValidEntries(s, r.value.files, files))
  {
    var jobs := Discover(input).value;
    if |jobs| > 0 {
      assert ProcessSpec(s, files, world, input, completion) == Ok(Finish(s, files, world, completion));
      DiscoveredNumbersAscend(input);
      FinishInJobOrder(s, files, world, jobs, completion);
    }
  }

  lemma FinishInJobOrder(s: Settings, files: CacheFiles, world: World, jobs: seq<Job>, completion: seq<Job>)
    requires forall i, j :: 0 <= i < j < |jobs| ==> jobs[i].number < jobs[j].number
    requires multiset(completion) == multiset(jobs)
    ensures var st := Finish(s, files, world, completion);
      && st.results == Successes(s, files, world, jobs)
      && StrictlyBy(st.results, Key)
      && st.errors == Failures(s, files, world, completion)
      && |st.results| + |st.errors| == |jobs|
      && SameValidEntries(s, st.files, files)
  {
    var st := Run(s, files, world, completion);
    RunFilesEachOutcome(s, files, world, completion);
    RunPartition(s, files, world, completion);
    assert |completion| == |multiset(completion)| == |jobs|;
    SortedSuccesses(s, files, world, jobs, completion);
    assert |SortByFileNumber(st.results)| == |multiset(st.results)| == |st.results|;
  }

  lemma DiscoveredNumbersAscend(input: InputPath)
    requires Discover(input).Ok?
    ensures var jobs := Discover(input).value;
      forall i, j :: 0 <= i < j < |jobs| ==> jobs[i].number < jobs[j].number
  {
  }

  /** Sorting the results of any completion order by file number gives the
      results in job order. */
  lemma SortedSuccesses(s: Settings, files: CacheFiles, world: World, jobs: seq<Job>, completion: seq<Job>)
    requires forall i, j :: 0 <= i < j < |jobs| ==> jobs[i].number < jobs[j].number
    requires multiset(completion) == multiset(jobs)
    ensures SortByFileNumber(Successes(s, files, world, completion)) == Successes(s, files, world, jobs)
    ensures StrictlyBy(Successes(s, files, world, jobs), Key)
  {
    var done := Successes(s, files, world, completion);
    CollectPermutation(completion, jobs, ResultsFn(s, files, world));
    SuccessesStrictlyOrdered(s, files, world, jobs);
    SortBySorted(done, Key);
    SortedByUnique(SortByFileNumber(done), Successes(s, files, world, jobs), Key);
  }

  /** Two completion orders of the same jobs return the same list and the
      same errors up to order. */
  lemma OrderIndependent(s: Settings, files: CacheFiles, world: World, input: InputPath, c1: seq<Job>, c2: seq<Job>)
    requires Discover(input).Ok?
    requires multiset(c1) == multiset(Discover(input).value) && multiset(c2) == multiset(Discover(input).value)
    ensures var r1, r2 := ProcessSpec(s, files, world, input, c1), ProcessSpec(s, files, world, input, c2);
      && r1.Ok? == r2.Ok?
      && (r1.Ok? ==> r1.value.results == r2.value.results && multiset(r1.value.errors) == multiset(r2.value.errors))
  {
    ResultsInJobOrder(s, files, world, input, c1);
    ResultsInJobOrder(s, files, world, input, c2);
    CollectPermutation(c1, c2, ErrorsFn(s, files, world));
  }

  /** A cache that serves no record before the batch serves none after it:
      running the same files again recomputes every one of them. */
  lemma NoHitsAfterBatch(s: Settings, files: CacheFiles, world: World, completion: seq<Job>)
    requires forall key :: Lookup(s, files, key) == None
    ensures var after := Run(s, files, world, completion).files;
      forall key :: Lookup(s, after, key) == None
  {
    RunFilesEachOutcome(s, files, world, completion);
  }
}
