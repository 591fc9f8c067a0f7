/** The image of a multiset under a function, counting multiplicities. The source
    collects records in an unspecified order, so facts about them are stated on
    multisets; this is the multiset counterpart of `Seqs.Map`. */
module Multisets {
  import opened Seqs

  /** Some element of a non-empty multiset. */
  ghost function Pick<A>(m: multiset<A>): (x: A)
    requires m != multiset{}
    ensures x in m
  {
    var x :| x in m; x
  }

  /** Every element of `m` mapped through `f`, with multiplicities kept. */
  ghost function Image<A, B>(m: multiset<A>, f: A -> B): multiset<B>
    decreases |m|
  {
    if m == multiset{} then multiset{}
    else
      var x := Pick(m);
      multiset{f(x)} + Image(m - multiset{x}, f)
  }

  /** The image does not depend on which element is taken out first. */
  lemma {:induction false} ImagePick<A, B>(m: multiset<A>, f: A -> B, x: A)
    requires x in m
    ensures Image(m, f) == multiset{f(x)} + Image(m - multiset{x}, f)
    decreases |m|
  {
    var y := Pick(m);
    if y != x {
      var mx := m - multiset{x};
      var my := m - multiset{y};
      var rest := my - multiset{x};
      assert x in my && y in mx;
      assert mx - multiset{y} == rest;
      ImagePick(my, f, x);
      ImagePick(mx, f, y);
      assert Image(m, f) == multiset{f(y)} + Image(my, f);
    }
  }

  /** Mapping then counting equals counting then mapping. */
  lemma {:induction false} ImageOfSeq<A, B>(s: seq<A>, f: A -> B)
    ensures Image(multiset(s), f) == multiset(Map(f, s))
    decreases |s|
  {
    if |s| == 0 {
    } else {
      assert s == [s[0]] + s[1..];
      assert multiset(s) - multiset{s[0]} == multiset(s[1..]);
      ImagePick(multiset(s), f, s[0]);
      ImageOfSeq(s[1..], f);
      assert Map(f, s) == [f(s[0])] + Map(f, s[1..]);
    }
  }
}
