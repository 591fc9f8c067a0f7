/** The repository full name the verify route derives from a repository URL:
    `url.split("/").slice(-2).join("/").replace(".git", "")`. */
module RepoName {
  import opened Wrappers

  /** The pattern `String.prototype.replace` removes, first occurrence only. */
  const GitSuffix: string := ".git"

  /** Number of '/' characters in `s`. */
  function Slashes(s: string): nat {
    multiset(s)['/']
  }

  /** `Array.prototype.join("/")`. */
  function Join(parts: seq<string>): string
    decreases |parts|
  {
    if |parts| == 0 then ""
    else if |parts| == 1 then parts[0]
    else parts[0] + "/" + Join(parts[1..])
  }

  /** `String.prototype.split("/")`: the pieces between separators, empty ones
      included. */
  function Split(s: string): (parts: seq<string>)
    ensures |parts| >= 1
    decreases |s|
  {
    if |s| == 0 then [""]
    else
      var rest := Split(s[1..]);
      if s[0] == '/' then [""] + rest
      else [[s[0]] + rest[0]] + rest[1..]
  }

  /** There is one more piece than there are separators, and no piece holds one. */
  lemma {:induction false} SplitPieces(s: string)
    ensures |Split(s)| == Slashes(s) + 1
    ensures forall i :: 0 <= i < |Split(s)| ==> '/' !in Split(s)[i]
    decreases |s|
  {
    if |s| > 0 {
      SplitPieces(s[1..]);
      assert s == [s[0]] + s[1..];
      assert multiset(s) == multiset{s[0]} + multiset(s[1..]);
      var rest := Split(s[1..]);
      if s[0] != '/' {
        assert '/' !in [s[0]] + rest[0];
      }
    }
  }

  /** Joining the pieces gives the input back. */
  lemma {:induction false} SplitJoin(s: string)
    ensures Join(Split(s)) == s
    decreases |s|
  {
    if |s| > 0 {
      SplitJoin(s[1..]);
      var rest := Split(s[1..]);
      var parts := Split(s);
      assert s == [s[0]] + s[1..];
      if s[0] == '/' {
        assert parts == [""] + rest;
        assert parts[1..] == rest;
        assert Join(parts) == "/" + Join(rest);
      } else {
        var head := [s[0]] + rest[0];
        assert parts == [head] + rest[1..];
        if |rest| == 1 {
          assert Join(rest) == rest[0];
          assert parts == [head];
        } else {
          assert parts[1..] == rest[1..];
          JoinHead(s[0], rest);
        }
      }
    }
  }

  /** Prepending a character to the first piece prepends it to the joined string. */
  lemma JoinHead(c: char, parts: seq<string>)
    requires |parts| > 1
    ensures Join([[c] + parts[0]] + parts[1..]) == [c] + Join(parts)
  {
    var cut := [[c] + parts[0]] + parts[1..];
    assert cut[1..] == parts[1..];
    assert Join(cut) == ([c] + parts[0]) + "/" + Join(parts[1..]);
  }

  /** `Array.prototype.slice(-2)`: the last two elements, or all of them if fewer. */
  function LastTwo<T>(xs: seq<T>): (r: seq<T>)
    ensures |xs| >= 2 ==> |r| == 2 && r[0] == xs[|xs| - 2] && r[1] == xs[|xs| - 1]
    ensures |xs| < 2 ==> r == xs
  {
    if |xs| >= 2 then xs[|xs| - 2..] else xs
  }

  /** Joining a list cut in two is joining the halves with one more separator. */
  lemma {:induction false} JoinCut(parts: seq<string>, k: nat)
    requires 0 < k < |parts|
    ensures Join(parts) == Join(parts[..k]) + "/" + Join(parts[k..])
    decreases k
  {
    if k > 1 {
      JoinCut(parts[1..], k - 1);
      assert parts[1..][..k - 1] == parts[..k][1..];
      assert parts[1..][k - 1..] == parts[k..];
    }
  }

  predicate IsSuffix(t: string, s: string) {
    |t| <= |s| && s[|s| - |t|..] == t
  }

  /** `t` is the tail of `s` made of its last two '/'-separated pieces: a suffix
      with at most one '/', which is either all of `s` or starts right after a '/'
      and then holds exactly one '/'. */
  predicate IsTailName(t: string, s: string) {
    && IsSuffix(t, s)
    && Slashes(t) <= 1
    && (t == s || (s[|s| - |t| - 1] == '/' && Slashes(t) == 1))
  }

  /** The last two segments of `url` joined by '/'. */
  function TailName(url: string): (t: string)
    ensures IsTailName(t, url)
  {
    TailNameShape(url);
    Join(LastTwo(Split(url)))
  }

  lemma TailNameShape(url: string)
    ensures IsTailName(Join(LastTwo(Split(url))), url)
  {
    var parts := Split(url);
    SplitPieces(url);
    SplitJoin(url);
    assert Join(parts) == url;
    if |parts| >= 3 {
      TailOfLongJoin(parts);
    } else {
      assert LastTwo(parts) == parts;
      assert Slashes(url) == |parts| - 1;
    }
  }

  /** With three or more slash-free pieces, the last two joined are a suffix that
      follows a '/' and holds exactly one. */
  lemma TailOfLongJoin(parts: seq<string>)
    requires |parts| >= 3
    requires forall i :: 0 <= i < |parts| ==> '/' !in parts[i]
    ensures IsTailName(Join(LastTwo(parts)), Join(parts))
  {
    var n := |parts|;
    var url := Join(parts);
    var t := Join(LastTwo(parts));
    JoinCut(parts, n - 2);
    assert parts[n - 2..][1..] == [parts[n - 1]];
    assert t == parts[n - 2] + "/" + parts[n - 1];
    assert multiset(parts[n - 2])['/'] == 0 && multiset(parts[n - 1])['/'] == 0;
    assert Slashes(t) == 1;
    var pre := Join(parts[..n - 2]) + "/";
    assert url == pre + t;
    assert url[|url| - |t|..] == t;
    assert url[|url| - |t| - 1] == pre[|pre| - 1] == '/';
  }

  /** At most one suffix of `s` has the tail-name shape. */
  lemma TailNameUnique(t1: string, t2: string, s: string)
    requires IsTailName(t1, s) && IsTailName(t2, s)
    ensures t1 == t2
  {
    if |t1| < |t2| {
      LongerTailSlashes(t1, t2, s);
      assert false;
    } else if |t2| < |t1| {
      LongerTailSlashes(t2, t1, s);
      assert false;
    }
  }

  /** A suffix strictly longer than a tail name holds the '/' before it as well
      as the tail name's own. */
  lemma LongerTailSlashes(t1: string, t2: string, s: string)
    requires IsTailName(t1, s) && IsSuffix(t2, s)
    requires |t1| < |t2|
    ensures Slashes(t2) >= 2
  {
    var a := |s| - |t2|;
    var k := |t2| - |t1| - 1;
    assert t1 != s;
    assert s[a + k] == '/';
    assert t2[k] == '/';
    assert t2[k + 1..] == s[a + k + 1..] == t1;
    var front := t2[..k];
    assert t2 == front + ([t2[k]] + t1);
    assert multiset(t2) == multiset(front) + multiset{'/'} + multiset(t1);
  }

  /** `pat` occurs in `s` starting at index `i`. */
  predicate OccursAt(s: string, pat: string, i: int) {
    0 <= i && i + |pat| <= |s| && s[i..i + |pat|] == pat
  }

  /** Index of the first occurrence of `pat` at or after `from`, as `indexOf`. */
  function IndexOf(s: string, pat: string, from: nat): (r: Option<nat>)
    ensures r.Some? ==> from <= r.value && OccursAt(s, pat, r.value)
    ensures r.Some? ==> forall j :: from <= j < r.value ==> !OccursAt(s, pat, j)
    ensures r.None? ==> forall j :: from <= j ==> !OccursAt(s, pat, j)
    decreases |s| - from
  {
    if from + |pat| > |s| then None
    else if s[from..from + |pat|] == pat then Some(from)
    else IndexOf(s, pat, from + 1)
  }

  /** `s.replace(pat, "")` with a string pattern: only the first occurrence goes. */
  function RemoveFirst(s: string, pat: string): (r: string)
    ensures (forall j :: !OccursAt(s, pat, j)) ==> r == s
    ensures forall i :: OccursAt(s, pat, i) && (forall j :: 0 <= j < i ==> !OccursAt(s, pat, j)) ==>
      r == s[..i] + s[i + |pat|..]
    ensures multiset(r) <= multiset(s)
  {
    match IndexOf(s, pat, 0)
    case None => s
    case Some(i) =>
      assert s == s[..i] + s[i..i + |pat|] + s[i + |pat|..];
      s[..i] + s[i + |pat|..]
  }

  /** The `repoFullName` of the verify route. */
  function FullName(url: string): (name: string)
    ensures Slashes(name) <= 1
    ensures forall t :: IsTailName(t, url) ==> name == RemoveFirst(t, GitSuffix)
  {
    var t := TailName(url);
    forall t' | IsTailName(t', url) ensures t' == t {
      TailNameUnique(t', t, url);
    }
    RemoveFirst(t, GitSuffix)
  }

  /** A URL whose part after some '/' holds exactly one '/' is named by that part,
      first `.git` removed. */
  lemma FullNameOfTail(host: string, t: string)
    requires Slashes(t) == 1
    ensures FullName(host + "/" + t) == RemoveFirst(t, GitSuffix)
  {
    var url := host + "/" + t;
    assert url == (host + "/") + t;
    assert IsTailName(t, url);
  }

  /** A URL ending in `<owner>/<name>` gives `<owner>/<name>` when neither holds `.git`. */
  lemma FullNameOfPlainUrl(host: string, owner: string, repo: string)
    requires '/' !in owner && '/' !in repo
    requires forall j :: !OccursAt(owner + "/" + repo, GitSuffix, j)
    ensures FullName(host + "/" + owner + "/" + repo) == owner + "/" + repo
  {
    var t := owner + "/" + repo;
    assert host + "/" + owner + "/" + repo == host + "/" + t;
    assert multiset(t) == multiset(owner) + multiset{'/'} + multiset(repo);
    FullNameOfTail(host, t);
  }

  /** In `<owner>/<a>.git<b>` the first `.git` is the one after `<a>` when `<owner>/<a>`
      holds none, and it is removed wherever it sits: at the end of a clone URL
      (`b` empty) or inside the repository name (`my.github-tools` gives
      `myhub-tools`); any later `.git` in `b` stays. */
  lemma FullNameDropsFirstGit(host: string, owner: string, a: string, b: string)
    requires '/' !in owner && '/' !in a && '/' !in b
    requires forall j :: !OccursAt(owner + "/" + a, GitSuffix, j)
    ensures FullName(host + "/" + owner + "/" + a + GitSuffix + b) == owner + "/" + a + b
  {
    var front := owner + "/" + a;
    var t := front + GitSuffix + b;
    assert host + "/" + owner + "/" + a + GitSuffix + b == host + "/" + t;
    assert multiset(t) == multiset(owner) + multiset{'/'} + multiset(a) + multiset(GitSuffix) + multiset(b);
    FullNameOfTail(host, t);
    FirstGitAfter(front, b);
  }

  /** `.git` right after a prefix free of it is the first occurrence: it cannot
      straddle the prefix's end, since `.git` has no proper prefix that is also a suffix. */
  lemma FirstGitAfter(front: string, b: string)
    requires forall j :: !OccursAt(front, GitSuffix, j)
    ensures RemoveFirst(front + GitSuffix + b, GitSuffix) == front + b
  {
    var t := front + GitSuffix + b;
    var n := |front|;
    assert t[n..n + 4] == GitSuffix;
    forall j | 0 <= j < n ensures !OccursAt(t, GitSuffix, j) {
      if j + 4 <= n {
        assert t[j..j + 4] == front[j..j + 4];
        assert !OccursAt(front, GitSuffix, j);
      } else {
        assert t[n] == '.';
      }
    }
    assert t[..n] + t[n + 4..] == front + b;
  }
}
