/**
 * The two ways client.py takes a Drive file name apart:
 * `os.path.splitext` decides whether the file is a CSV (client.py:51-52), and
 * `name.split(".")[0]` gives the stem of the job descriptor's file name
 * (client.py:106). The first splits at the LAST dot, the second at the FIRST.
 */
module FileNames {

  /** Index of the last `c` among the first `n` characters of `s`, or -1. */
  function LastIndexBefore(s: string, c: char, n: int): (i: int)
    requires 0 <= n <= |s|
    ensures -1 <= i < n
    ensures i >= 0 ==> s[i] == c
    ensures forall k :: i < k < n ==> s[k] != c
    decreases n
  {
    if n == 0 then -1
    else if s[n - 1] == c then n - 1
    else LastIndexBefore(s, c, n - 1)
  }

  /** Index of the last occurrence of `c` in `s`, or -1 (Python's `str.rfind`). */
  function LastIndexOf(s: string, c: char): (i: int)
    ensures -1 <= i < |s|
    ensures i >= 0 ==> s[i] == c
    ensures forall k :: i < k < |s| ==> s[k] != c
  {
    LastIndexBefore(s, c, |s|)
  }

  predicate AllDots(s: string)
  {
    forall k :: 0 <= k < |s| ==> s[k] == '.'
  }

  /** The scan of `os.path.splitext` over `s[lo..hi]`: every character there is a dot. */
  predicate DotsBetween(s: string, lo: int, hi: int)
    requires 0 <= lo <= hi <= |s|
    decreases hi - lo
  {
    lo == hi || (s[lo] == '.' && DotsBetween(s, lo + 1, hi))
  }

  lemma {:induction false} DotsBetweenIff(s: string, lo: int, hi: int)
    requires 0 <= lo <= hi <= |s|
    ensures DotsBetween(s, lo, hi) <==> AllDots(s[lo..hi])
    decreases hi - lo
  {
    if lo < hi {
      DotsBetweenIff(s, lo + 1, hi);
      var whole, tail := s[lo..hi], s[lo + 1..hi];
      assert forall k :: 0 <= k < |tail| ==> tail[k] == whole[k + 1];
      assert whole[0] == s[lo];
    }
  }

  /** The part of a path after its last '/'. */
  function BaseName(p: string): (b: string)
    ensures |b| <= |p| && b == p[|p| - |b|..] && '/' !in b
    ensures |b| < |p| ==> p[|p| - |b| - 1] == '/'
  {
    var sep := LastIndexOf(p, '/');
    p[sep + 1..]
  }

  /**
   * POSIX `os.path.splitext`: the extension starts at the last '.' of the
   * base name, unless every character of the base name before that dot is
   * itself a dot (so ".csv" and "..csv" have no extension).
   */
  function SplitExt(p: string): (string, string)
  {
    var sep := LastIndexOf(p, '/');
    var dot := LastIndexOf(p, '.');
    if dot > sep && !DotsBetween(p, sep + 1, dot) then (p[..dot], p[dot..]) else (p, [])
  }

  /**
   * Root and extension concatenate back to the path; a non-empty extension
   * starts at a dot and holds no other dot and no '/'.
   */
  lemma SplitExtJoins(p: string)
    ensures var r := SplitExt(p);
            r.0 + r.1 == p &&
            (r.1 != [] ==> r.1[0] == '.' && '.' !in r.1[1..] && '/' !in r.1)
  {
    var sep := LastIndexOf(p, '/');
    var dot := LastIndexOf(p, '.');
    if dot > sep && !DotsBetween(p, sep + 1, dot) {
      var e := p[dot..];
      assert p[..dot] + e == p;
      assert e[1..] == p[dot + 1..];
      assert forall k :: 0 <= k < |e| ==> e[k] == p[dot + k];
    } else {
      assert p + [] == p;
    }
  }

  function Ext(p: string): string
  {
    SplitExt(p).1
  }

  /** The gate of `download_and_preprocess`: the extension is exactly ".csv" (case-sensitive). */
  predicate IsCsv(name: string)
  {
    Ext(name) == ".csv"
  }

  /** Appending characters other than `c` does not move the last `c`. */
  lemma LastIndexOfAppend(q: string, t: string, c: char)
    requires c !in t
    ensures LastIndexOf(q + t, c) == LastIndexOf(q, c)
  {
    var s := q + t;
    assert forall k :: 0 <= k < |q| ==> s[k] == q[k];
    assert forall k :: |q| <= k < |s| ==> s[k] == t[k - |q|] != c;
  }

  /** In `q + ".csv"` the last '.' is the one that starts the suffix. */
  lemma LastDotOfCsv(q: string)
    ensures LastIndexOf(q + ".csv", '.') == |q|
  {
    var p := q + ".csv";
    assert p[|q|] == '.';
    assert forall k :: |q| < k < |p| ==> p[k] == ".csv"[k - |q|] != '.';
  }

  /** A name `q + ".csv"` passes the gate exactly when the base name of `q` is not made of dots alone. */
  lemma CsvSuffix(q: string)
    ensures IsCsv(q + ".csv") <==> !AllDots(BaseName(q))
  {
    var p := q + ".csv";
    LastIndexOfAppend(q, ".csv", '/');
    LastDotOfCsv(q);
    var sep := LastIndexOf(p, '/');
    assert p[sep + 1..|q|] == q[sep + 1..];
    DotsBetweenIff(p, sep + 1, |q|);
    assert p[|q|..] == ".csv";
  }

  /**
   * A name passes the CSV gate exactly when it ends in ".csv" and the base
   * name in front of that suffix is not made of dots alone.
   */
  lemma CsvIff(p: string)
    ensures IsCsv(p) <==>
              |p| >= 4 && p[|p| - 4..] == ".csv" && !AllDots(BaseName(p[..|p| - 4]))
  {
    if |p| >= 4 && p[|p| - 4..] == ".csv" {
      assert p == p[..|p| - 4] + ".csv";
      CsvSuffix(p[..|p| - 4]);
    }
    if IsCsv(p) {
      SplitExtJoins(p);
      var r := SplitExt(p);
      assert p == r.0 + ".csv";
      assert p[|p| - 4..] == ".csv" && p[..|p| - 4] == r.0;
      CsvSuffix(r.0);
    }
  }

  /** `name.split(".")[0]`: everything before the first '.', or all of `s` when it has none. */
  function BeforeFirstDot(s: string): (r: string)
    ensures r <= s
    ensures '.' !in r
    ensures |r| < |s| ==> s[|r|] == '.'
    decreases |s|
  {
    if s == [] || s[0] == '.' then []
    else [s[0]] + BeforeFirstDot(s[1..])
  }

  /** The stem is the dot-free part in front of the first dot, whatever follows it. */
  lemma {:induction false} BeforeFirstDotOf(stem: string, rest: string)
    requires '.' !in stem
    requires rest == [] || rest[0] == '.'
    ensures BeforeFirstDot(stem + rest) == stem
    decreases |stem|
  {
    if stem == [] {
      assert stem + rest == rest;
    } else {
      var s := stem + rest;
      assert s[0] == stem[0] && s[1..] == stem[1..] + rest;
      BeforeFirstDotOf(stem[1..], rest);
    }
  }
}
