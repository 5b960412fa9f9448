/**
 * The string operations the recipe relies on: `str.replace("\\", "/")`,
 * `str.find`, `str.replace(search, replace)` and POSIX `os.path.join`.
 */
module Text {

  import opened Results

  /** `s` and `r` agree everywhere except that a backslash of `s` may be a slash in `r`. */
  ghost predicate SameUpToSeparators(r: string, s: string) {
    |r| == |s| &&
    forall i :: 0 <= i < |s| ==> r[i] == s[i] || (s[i] == '\\' && r[i] == '/')
  }

  /** `s.replace("\\", "/")`: every backslash turned into a forward slash. */
  function Slashed(s: string): (r: string)
    ensures |r| == |s|
    ensures '\\' !in r
    ensures '\\' !in s ==> r == s
  {
    var r := seq(|s|, i requires 0 <= i < |s| => if s[i] == '\\' then '/' else s[i]);
    assert '\\' !in s ==> r == s;
    r
  }

  /** Only backslashes change, and each becomes a slash. */
  lemma SlashedSameUpToSeparators(s: string)
    ensures SameUpToSeparators(Slashed(s), s)
  {
  }

  /** Normalising separators distributes over concatenation. */
  lemma SlashedAppend(a: string, b: string)
    ensures Slashed(a + b) == Slashed(a) + Slashed(b)
  {
    var l, r := Slashed(a + b), Slashed(a) + Slashed(b);
    forall i | 0 <= i < |l| ensures l[i] == r[i] {
      if i < |a| {
        assert (a + b)[i] == a[i];
      } else {
        assert (a + b)[i] == b[i - |a|];
      }
    }
  }

  /** Normalising twice equals normalising once. */
  lemma SlashedIdempotent(s: string)
    ensures Slashed(Slashed(s)) == Slashed(s)
  {
  }

  /**
   * POSIX `os.path.join(a, b)`: an absolute `b` replaces `a`; otherwise a `/`
   * is inserted unless `a` is empty or already ends with one.
   */
  function Join(a: string, b: string): (r: string)
    ensures b != [] && b[0] == '/' ==> r == b
    ensures (b == [] || b[0] != '/') ==> |a| + |b| <= |r| && r[..|a|] == a && r[|r| - |b|..] == b
    ensures (b == [] || b[0] != '/') && a != [] && a[|a| - 1] != '/' ==> r == a + "/" + b
    ensures (b == [] || b[0] != '/') && (a == [] || a[|a| - 1] == '/') ==> r == a + b
  {
    if b != [] && b[0] == '/' then b
    else if a == [] || a[|a| - 1] == '/' then a + b
    else a + "/" + b
  }

  /** Joining two relative components onto a directory puts one `/` before each. */
  lemma JoinTwice(a: string, b: string, c: string)
    requires a != [] && a[|a| - 1] != '/'
    requires b != [] && b[0] != '/' && b[|b| - 1] != '/'
    requires c == [] || c[0] != '/'
    ensures Join(Join(a, b), c) == a + "/" + b + "/" + c
  {
    var inner := Join(a, b);
    assert inner == a + "/" + b;
    assert inner[|inner| - 1] == b[|b| - 1];
  }

  /** `pat` occurs in `s` starting at index `i`. */
  predicate OccursAt(s: string, pat: string, i: nat) {
    i + |pat| <= |s| && s[i..i + |pat|] == pat
  }

  /** `s.find(pat)`: the first index at which `pat` occurs, or -1 when it does not occur. */
  function Find(s: string, pat: string): (r: int)
    ensures -1 <= r <= |s|
    ensures r >= 0 ==> OccursAt(s, pat, r)
    ensures r >= 0 ==> forall j :: 0 <= j < r ==> !OccursAt(s, pat, j)
    ensures r == -1 ==> forall j: nat :: !OccursAt(s, pat, j)
    decreases |s|
  {
    if OccursAt(s, pat, 0) then 0
    else if s == [] then -1
    else
      var k := Find(s[1..], pat);
      ShiftOccurrence(s, pat);
      if k == -1 then -1 else k + 1
  }

  /** An occurrence in the tail of `s` is an occurrence in `s` one index later, and back. */
  lemma ShiftOccurrence(s: string, pat: string)
    requires s != []
    ensures forall j: nat :: 1 <= j ==> (OccursAt(s, pat, j) <==> OccursAt(s[1..], pat, j - 1))
  {
    forall j: nat | 1 <= j ensures OccursAt(s, pat, j) <==> OccursAt(s[1..], pat, j - 1) {
      if j + |pat| <= |s| {
        assert s[1..][j - 1..j - 1 + |pat|] == s[j..j + |pat|];
      }
    }
  }

  /**
   * `s.replace(pat, rep)` for a non-empty `pat`: every occurrence found by a
   * left-to-right scan is replaced, and the scan resumes after the replaced text.
   */
  function ReplaceAll(s: string, pat: string, rep: string): (r: string)
    requires pat != []
    ensures rep == pat ==> r == s
    ensures |rep| == |pat| ==> |r| == |s|
  {
    ReplaceFrom(s, pat, rep, 0)
  }

  /** The scan of `ReplaceAll` from index `i` of `s` on. */
  function ReplaceFrom(s: string, pat: string, rep: string, i: nat): (r: string)
    requires pat != [] && i <= |s|
    ensures rep == pat ==> r == s[i..]
    ensures |rep| == |pat| ==> |r| == |s| - i
    decreases |s| - i
  {
    if OccursAt(s, pat, i) then
      var r := rep + ReplaceFrom(s, pat, rep, i + |pat|);
      assert rep == pat ==> r == s[i..] by {
        if rep == pat {
          assert s[i..] == s[i..i + |pat|] + s[i + |pat|..];
        }
      }
      r
    else if i == |s| then []
    else
      var r := [s[i]] + ReplaceFrom(s, pat, rep, i + 1);
      assert rep == pat ==> r == s[i..] by {
        if rep == pat {
          assert s[i..] == [s[i]] + s[i + 1..];
        }
      }
      r
  }

  /** A scan that meets no occurrence copies the rest of the text unchanged. */
  lemma {:induction false} ReplaceFromAbsent(s: string, pat: string, rep: string, i: nat)
    requires pat != [] && i <= |s|
    requires forall j: nat :: i <= j ==> !OccursAt(s, pat, j)
    ensures ReplaceFrom(s, pat, rep, i) == s[i..]
    decreases |s| - i
  {
    if i < |s| {
      assert !OccursAt(s, pat, i);
      ReplaceFromAbsent(s, pat, rep, i + 1);
      assert s[i..] == [s[i]] + s[i + 1..];
    }
  }

  /** A text in which `pat` does not occur is not changed by replacing it. */
  lemma ReplaceAllAbsent(s: string, pat: string, rep: string)
    requires pat != []
    requires forall j: nat :: !OccursAt(s, pat, j)
    ensures ReplaceAll(s, pat, rep) == s
  {
    ReplaceFromAbsent(s, pat, rep, 0);
  }

  /**
   * Scanning from `i` up to the next occurrence, at `k`: the text in between
   * is kept as is, the occurrence becomes `rep`, and the scan goes on after it.
   */
  lemma {:induction false} ReplaceFromAt(s: string, pat: string, rep: string, i: nat, k: nat)
    requires pat != [] && i <= k && OccursAt(s, pat, k)
    requires forall j :: i <= j < k ==> !OccursAt(s, pat, j)
    ensures ReplaceFrom(s, pat, rep, i) == s[i..k] + rep + ReplaceFrom(s, pat, rep, k + |pat|)
    decreases k - i
  {
    if i == k {
      assert s[i..k] + rep == rep;
    } else {
      var rest := ReplaceFrom(s, pat, rep, k + |pat|);
      ReplaceFromAt(s, pat, rep, i + 1, k);
      calc {
        ReplaceFrom(s, pat, rep, i);
        [s[i]] + ReplaceFrom(s, pat, rep, i + 1);
        [s[i]] + (s[i + 1..k] + rep + rest);
        { assert [s[i]] + s[i + 1..k] == s[i..k]; }
        s[i..k] + rep + rest;
      }
    }
  }

  /**
   * Conan's strict `replace_in_file` on the file's text: `None` (an error) when
   * `search` does not occur, otherwise the text with every occurrence replaced.
   */
  function ReplaceInText(s: string, search: string, rep: string): (r: Option<string>)
    requires search != []
    ensures r.None? <==> forall j: nat :: !OccursAt(s, search, j)
    ensures r.Some? ==> r.value == ReplaceAll(s, search, rep)
  {
    if Find(s, search) == -1 then None else Some(ReplaceAll(s, search, rep))
  }

  /**
   * A successful `replace_in_file` keeps the text before the first occurrence,
   * puts `rep` in its place, and goes on replacing after it.
   */
  lemma ReplaceInTextAtFirst(s: string, search: string, rep: string)
    requires search != [] && Find(s, search) >= 0
    ensures var k := Find(s, search);
      ReplaceInText(s, search, rep) == Some(s[..k] + rep + ReplaceFrom(s, search, rep, k + |search|))
  {
    var k := Find(s, search);
    ReplaceFromAt(s, search, rep, 0, k);
    assert s[0..k] == s[..k];
  }

  /**
   * Replacing `search` by `search + suffix` puts `suffix` right after the end
   * of the first occurrence, and keeps everything before it.
   */
  lemma ReplaceInTextAppends(s: string, search: string, suffix: string)
    requires search != [] && Find(s, search) >= 0
    ensures var n := Find(s, search) + |search|;
      var r := ReplaceInText(s, search, search + suffix);
      r.Some? && |r.value| >= n + |suffix| && r.value[..n + |suffix|] == s[..n] + suffix
  {
    var k := Find(s, search);
    var n := k + |search|;
    var rep := search + suffix;
    ReplaceInTextAtFirst(s, search, rep);
    var rest := ReplaceFrom(s, search, rep, n);
    PrefixThroughOccurrence(s, search, k);
    Regroup(s[..k], search, suffix, rest);
    PrefixOfAppend(s[..n] + suffix, rest);
  }

  /** The text up to an occurrence, followed by the occurrence, is the text through its end. */
  lemma PrefixThroughOccurrence(s: string, pat: string, k: nat)
    requires OccursAt(s, pat, k)
    ensures s[..k] + pat == s[..k + |pat|]
  {
    assert s[k..k + |pat|] == pat;
  }

  lemma Regroup(a: string, b: string, c: string, d: string)
    ensures a + (b + c) + d == (a + b) + c + d
  {
  }

  lemma PrefixOfAppend(a: string, b: string)
    ensures (a + b)[..|a|] == a
  {
  }
}
