/** The pathlib and os.path operations the three drivers use: the final
    component of a path, its suffix, the ".mp3"/".flac" filter and the
    ordering `sorted()` puts paths in. */
module Paths {

  const Mp3Suffix := ".mp3"
  const FlacSuffix := ".flac"

  /** `str.lower` on one character; only ASCII letters are mapped. */
  function LowerChar(c: char): char
  {
    if 'A' <= c <= 'Z' then (c as int - 'A' as int + 'a' as int) as char else c
  }

  function Lower(s: string): string
  {
    seq(|s|, i requires 0 <= i < |s| => LowerChar(s[i]))
  }

  /** The final component of a path (`os.path.basename`, `PurePath.name`):
      the longest suffix without a '/'. */
  function Basename(p: string): (name: string)
    ensures '/' !in name
    ensures |name| <= |p| && name == p[|p| - |name|..]
    ensures |name| < |p| ==> p[|p| - |name| - 1] == '/'
    decreases |p|
  {
    if p == [] || p[|p| - 1] == '/' then []
    else Basename(p[..|p| - 1]) + [p[|p| - 1]]
  }

  /** `str.rfind('.')`: the index of the last '.', or -1. */
  function LastDot(s: string): (i: int)
    ensures -1 <= i < |s|
    ensures i >= 0 ==> s[i] == '.'
    ensures forall j :: i < j < |s| ==> s[j] != '.'
    decreases |s|
  {
    if s == [] then -1
    else if s[|s| - 1] == '.' then |s| - 1
    else LastDot(s[..|s| - 1])
  }

  /** `PurePath.suffix`: from the last '.' of the final component on, unless
      that dot is the component's first or last character. */
  function Suffix(p: string): (r: string)
    ensures r == [] || (2 <= |r| && r[0] == '.' && '.' !in r[1..] && '/' !in r)
    ensures r == [] || |r| < |Basename(p)|
  {
    var name := Basename(p);
    var i := LastDot(name);
    if 0 < i < |name| - 1 then name[i..] else []
  }

  /** The suffix is the tail of the final component from its last '.'. */
  lemma SuffixIsTail(p: string)
    ensures Suffix(p) == Basename(p)[|Basename(p)| - |Suffix(p)|..]
  {
    var name, r := Basename(p), Suffix(p);
    var k := LastDot(name);
    assert r == if 0 < k < |name| - 1 then name[k..] else [];
    if 0 < k < |name| - 1 {
      assert |name| - |r| == k;
    } else {
      assert name[|name| - |r|..] == [];
    }
  }

  /** `name` has a '.' that is neither its first nor its last character and
      has no '.' after it. */
  predicate HasSuffixDot(name: string)
  {
    exists i :: 0 < i < |name| - 1 && name[i] == '.' && forall j :: i < j < |name| ==> name[j] != '.'
  }

  /** A path has no suffix exactly when its final component has no such dot. */
  lemma SuffixEmptyExactly(p: string)
    ensures Suffix(p) == [] <==> !HasSuffixDot(Basename(p))
  {
    var name := Basename(p);
    var k := LastDot(name);
    InnerLastDot(name);
    if 0 < k < |name| - 1 {
      assert Suffix(p) == name[k..];
      assert |Suffix(p)| == |name| - k > 0;
    } else {
      assert Suffix(p) == [];
    }
  }

  /** The last '.' lies strictly inside `name` exactly when `name` has a
      suffix dot. */
  lemma InnerLastDot(name: string)
    ensures 0 < LastDot(name) < |name| - 1 <==> HasSuffixDot(name)
  {
    var k := LastDot(name);
    if HasSuffixDot(name) {
      var i :| 0 < i < |name| - 1 && name[i] == '.' && forall j :: i < j < |name| ==> name[j] != '.';
      assert k == i;
    }
  }

  /** `path.suffix.lower() in ['.mp3', '.flac']` */
  predicate IsAudioFile(p: string)
  {
    Lower(Suffix(p)) == Mp3Suffix || Lower(Suffix(p)) == FlacSuffix
  }

  /** `path.suffix.lower() == '.flac'` */
  predicate IsLossless(p: string)
  {
    Lower(Suffix(p)) == FlacSuffix
  }

  lemma LowerCharFixes(c: char, d: char)
    requires d == '.' || d == '/' || ('a' <= d <= 'z') || ('0' <= d <= '9')
    ensures LowerChar(c) == d <==> c == d || ('a' <= d <= 'z' && c as int == d as int - 32)
  {
  }

  /** A supported suffix is recognised from the last characters of the path
      alone, in any letter case, provided something precedes the dot in the
      final component (so ".mp3" on its own is a hidden file, not an MP3). */
  lemma SuffixIs(p: string, ext: string)
    requires ext == Mp3Suffix || ext == FlacSuffix
    ensures Lower(Suffix(p)) == ext <==> |Basename(p)| > |ext| && Lower(p[|p| - |ext|..]) == ext
  {
    if Lower(Suffix(p)) == ext {
      SuffixIsOnlyIf(p, ext);
    }
    if |Basename(p)| > |ext| && Lower(p[|p| - |ext|..]) == ext {
      SuffixIsIf(p, ext);
    }
  }

  lemma {:induction false} SuffixIsOnlyIf(p: string, ext: string)
    requires ext != []
    requires Lower(Suffix(p)) == ext
    ensures |Basename(p)| > |ext| && Lower(p[|p| - |ext|..]) == ext
  {
    var name := Basename(p);
    var i := LastDot(name);
    var r := Suffix(p);
    assert |Lower(r)| == |r|;
    assert 0 < i < |name| - 1 && r == name[i..];
    assert |r| == |ext| < |name|;
    assert p[|p| - |name|..][i..] == p[|p| - |ext|..];
  }

  lemma {:induction false} SuffixIsIf(p: string, ext: string)
    requires ext == Mp3Suffix || ext == FlacSuffix
    requires |Basename(p)| > |ext| && Lower(p[|p| - |ext|..]) == ext
    ensures Lower(Suffix(p)) == ext
  {
    var name := Basename(p);
    var t := p[|p| - |ext|..];
    var k := |name| - |ext|;
    assert t == name[k..];
    assert t[0] == '.' by {
      assert Lower(t)[0] == '.';
      LowerCharFixes(t[0], '.');
    }
    forall j | k < j < |name| ensures name[j] != '.' {
      assert name[j] == t[j - k];
      assert Lower(t)[j - k] == ext[j - k] && ext[j - k] != '.';
    }
    var i := LastDot(name);
    assert i == k;
    assert Suffix(p) == t;
  }

  /** `[x for x in s if keep(x)]` */
  function Filter<T>(s: seq<T>, keep: T -> bool): seq<T>
    decreases |s|
  {
    if s == [] then []
    else
      var init, last := s[..|s| - 1], s[|s| - 1];
      Filter(init, keep) + (if keep(last) then [last] else [])
  }

  /** The Python comprehension `[f for f in entries if f.suffix.lower() in
      ['.mp3', '.flac']]`: keeps the audio entries, in their order. */
  function FilterAudio(entries: seq<string>): seq<string>
  {
    Filter(entries, IsAudioFile)
  }

  /** A filter keeps every copy of a kept element and nothing else. */
  lemma {:induction false} FilterCounts<T>(s: seq<T>, keep: T -> bool)
    ensures forall x :: multiset(Filter(s, keep))[x] == if keep(x) then multiset(s)[x] else 0
    decreases |s|
  {
    if s != [] {
      var init, last := s[..|s| - 1], s[|s| - 1];
      assert s == init + [last];
      FilterCounts(init, keep);
    }
  }

  lemma {:induction false} FilterAppend<T>(a: seq<T>, b: seq<T>, keep: T -> bool)
    ensures Filter(a + b, keep) == Filter(a, keep) + Filter(b, keep)
    decreases |b|
  {
    if b == [] {
      assert a + b == a;
    } else {
      var b', last := b[..|b| - 1], b[|b| - 1];
      var ab := a + b;
      assert ab[..|ab| - 1] == a + b' && ab[|ab| - 1] == last;
      FilterAppend(a, b', keep);
    }
  }

  predicate Distinct<T(==)>(s: seq<T>)
  {
    forall i, j :: 0 <= i < j < |s| ==> s[i] != s[j]
  }

  lemma {:induction false} DistinctCounts<T>(s: seq<T>)
    ensures Distinct(s) <==> forall x :: multiset(s)[x] <= 1
    decreases |s|
  {
    if s != [] {
      DistinctCounts(s[1..]);
      assert s == [s[0]] + s[1..];
      if Distinct(s) {
        assert s[0] !in s[1..];
      }
      if forall x :: multiset(s)[x] <= 1 {
        assert multiset(s[1..])[s[0]] == 0;
        forall i, j | 0 <= i < j < |s| ensures s[i] != s[j] {
          if i == 0 {
            assert s[j] in s[1..];
          } else {
            assert forall x :: multiset(s[1..])[x] <= multiset(s)[x];
            assert s[i] == s[1..][i - 1] && s[j] == s[1..][j - 1];
          }
        }
      }
    }
  }

  // ---- the order of `sorted()` on sibling paths: code-point lexicographic ----

  predicate LexLeq(a: string, b: string)
    decreases |a|
  {
    |a| == 0 || (|b| > 0 && (a[0] < b[0] || (a[0] == b[0] && LexLeq(a[1..], b[1..]))))
  }

  lemma LexLeqTotal(a: string, b: string)
    ensures LexLeq(a, b) || LexLeq(b, a)
    decreases |a|
  {
    if |a| > 0 && |b| > 0 && a[0] == b[0] {
      LexLeqTotal(a[1..], b[1..]);
    }
  }

  lemma LexLeqAntisymmetric(a: string, b: string)
    requires LexLeq(a, b) && LexLeq(b, a)
    ensures a == b
    decreases |a|
  {
    if |a| > 0 && |b| > 0 {
      LexLeqAntisymmetric(a[1..], b[1..]);
      assert a == [a[0]] + a[1..] && b == [b[0]] + b[1..];
    }
  }

  lemma LexLeqTransitive(a: string, b: string, c: string)
    requires LexLeq(a, b) && LexLeq(b, c)
    ensures LexLeq(a, c)
    decreases |a|
  {
    if |a| > 0 && |b| > 0 && |c| > 0 && a[0] == b[0] && b[0] == c[0] {
      LexLeqTransitive(a[1..], b[1..], c[1..]);
    }
  }

  predicate SortedPaths(s: seq<string>)
  {
    forall i, j :: 0 <= i < j < |s| ==> LexLeq(s[i], s[j])
  }

  function InsertPath(x: string, s: seq<string>): (r: seq<string>)
    ensures multiset(r) == multiset(s) + multiset{x}
    decreases |s|
  {
    if s == [] || LexLeq(x, s[0]) then [x] + s
    else
      assert s == [s[0]] + s[1..];
      [s[0]] + InsertPath(x, s[1..])
  }

  /** `sorted(paths)` (an insertion sort; stable like Python's). Kept apart
      from `Batch.SortBy`, which sorts by an integer key: one sort generic over
      a comparison would need totality and transitivity as preconditions, and
      its proofs ran over the solver's resource limit. */
  function SortPaths(s: seq<string>): (r: seq<string>)
    ensures multiset(r) == multiset(s)
    decreases |s|
  {
    if s == [] then []
    else
      assert s == [s[0]] + s[1..];
      InsertPath(s[0], SortPaths(s[1..]))
  }

  lemma {:induction false} InsertPathSorted(x: string, s: seq<string>)
    requires SortedPaths(s)
    ensures SortedPaths(InsertPath(x, s))
    decreases |s|
  {
    if s == [] {
    } else if LexLeq(x, s[0]) {
      var r := [x] + s;
      forall i, j | 0 <= i < j < |r| ensures LexLeq(r[i], r[j]) {
        if i == 0 && j > 1 {
          LexLeqTransitive(x, s[0], s[j - 1]);
        }
      }
    } else {
      LexLeqTotal(x, s[0]);
      InsertPathSorted(x, s[1..]);
      var t := InsertPath(x, s[1..]);
      var r := [s[0]] + t;
      forall i, j | 0 <= i < j < |r| ensures LexLeq(r[i], r[j]) {
        if i == 0 {
          assert r[j] in multiset(t);
          assert r[j] == x || r[j] in multiset(s[1..]);
          if r[j] != x {
            var k :| 0 <= k < |s[1..]| && s[1..][k] == r[j];
            assert s[k + 1] == r[j];
          }
        }
      }
    }
  }

  lemma {:induction false} SortPathsSorted(s: seq<string>)
    ensures SortedPaths(SortPaths(s))
    decreases |s|
  {
    if s != [] {
      SortPathsSorted(s[1..]);
      InsertPathSorted(s[0], SortPaths(s[1..]));
    }
  }

  lemma SortedHeadIsLeast(a: seq<string>, x: string)
    requires SortedPaths(a) && x in a
    ensures LexLeq(a[0], x)
  {
    var k :| 0 <= k < |a| && a[k] == x;
    if k == 0 {
      LexLeqTotal(x, x);
    }
  }

  lemma TailsPermutation<T>(a: seq<T>, b: seq<T>)
    requires a != [] && b != [] && a[0] == b[0] && multiset(a) == multiset(b)
    ensures multiset(a[1..]) == multiset(b[1..])
  {
    assert a == [a[0]] + a[1..] && b == [b[0]] + b[1..];
    assert multiset(a[1..]) == multiset(a) - multiset{a[0]};
    assert multiset(b[1..]) == multiset(b) - multiset{b[0]};
  }

  /** Two sorted arrangements of the same paths are the same sequence. */
  lemma {:induction false} SortedPathsUnique(a: seq<string>, b: seq<string>)
    requires SortedPaths(a) && SortedPaths(b) && multiset(a) == multiset(b)
    ensures a == b
    decreases |a|
  {
    assert |a| == |multiset(a)| == |multiset(b)| == |b|;
    if a != [] {
      assert a[0] in multiset(b) && b[0] in multiset(a);
      SortedHeadIsLeast(b, a[0]);
      SortedHeadIsLeast(a, b[0]);
      LexLeqAntisymmetric(a[0], b[0]);
      TailsPermutation(a, b);
      SortedPathsUnique(a[1..], b[1..]);
    }
  }

  /** Filtering two arrangements of the same elements keeps the same elements. */
  lemma {:induction false} FilterPermutation<T>(a: seq<T>, b: seq<T>, keep: T -> bool)
    requires multiset(a) == multiset(b)
    ensures multiset(Filter(a, keep)) == multiset(Filter(b, keep))
    decreases |a|
  {
    if a == [] {
      assert |b| == |multiset(b)| == 0;
    } else {
      var a', x := a[..|a| - 1], a[|a| - 1];
      assert a == a' + [x];
      assert x in multiset(b);
      var i :| 0 <= i < |b| && b[i] == x;
      var b1, b2 := b[..i], b[i + 1..];
      assert b == b1 + [x] + b2;
      assert multiset(a') == multiset(b1 + b2) by {
        assert multiset(a') == multiset(a) - multiset{x};
        assert multiset(b1 + b2) == multiset(b) - multiset{x};
      }
      FilterPermutation(a', b1 + b2, keep);
      FilterRemoveOne(b1, x, b2, keep);
      FilterAppend(a', [x], keep);
    }
  }

  lemma FilterRemoveOne<T>(b1: seq<T>, x: T, b2: seq<T>, keep: T -> bool)
    ensures multiset(Filter(b1 + [x] + b2, keep)) == multiset(Filter(b1 + b2, keep)) + multiset(Filter([x], keep))
  {
    FilterAppend(b1, b2, keep);
    FilterAppend(b1 + [x], b2, keep);
    FilterAppend(b1, [x], keep);
  }

  lemma FilterMembers<T>(s: seq<T>, keep: T -> bool)
    ensures forall x :: x in Filter(s, keep) <==> x in s && keep(x)
  {
    FilterCounts(s, keep);
    forall x ensures x in Filter(s, keep) <==> x in s && keep(x) {
      assert x in Filter(s, keep) <==> x in multiset(Filter(s, keep));
      assert x in s <==> x in multiset(s);
    }
  }

  /** The sorted audio entries of a directory do not depend on the order in
      which the directory is enumerated, and list each audio entry, ascending. */
  lemma {:induction false} SortedAudioEntries(e1: seq<string>, e2: seq<string>)
    requires multiset(e1) == multiset(e2)
    ensures SortPaths(FilterAudio(e1)) == SortPaths(FilterAudio(e2))
    ensures SortedPaths(SortPaths(FilterAudio(e1)))
    ensures forall x :: x in SortPaths(FilterAudio(e1)) <==> x in e1 && IsAudioFile(x)
  {
    var f1, f2 := FilterAudio(e1), FilterAudio(e2);
    FilterPermutation(e1, e2, IsAudioFile);
    SortPathsSorted(f1);
    SortPathsSorted(f2);
    SortedPathsUnique(SortPaths(f1), SortPaths(f2));
    FilterMembers(e1, IsAudioFile);
    forall x ensures x in SortPaths(f1) <==> x in f1 {
      assert x in SortPaths(f1) <==> x in multiset(SortPaths(f1));
      assert x in f1 <==> x in multiset(f1);
    }
  }

  /** Distinct directory entries give distinct sorted audio paths. */
  lemma {:induction false} SortedAudioEntriesDistinct(entries: seq<string>)
    requires Distinct(entries)
    ensures Distinct(SortPaths(FilterAudio(entries)))
  {
    var f := FilterAudio(entries);
    FilterCounts(entries, IsAudioFile);
    DistinctCounts(entries);
    DistinctCounts(SortPaths(f));
    assert forall x :: multiset(SortPaths(f))[x] == multiset(f)[x];
  }
}
