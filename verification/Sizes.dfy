/** Counting: two finite sets in correspondence have the same size. */
module Sizes {

  lemma {:induction false} SameSize(s: set<nat>, t: set<nat>, f: map<nat, nat>, g: map<nat, nat>)
    requires forall x :: x in s ==> x in f && f[x] in t && f[x] in g && g[f[x]] == x
    requires forall y :: y in t ==> y in g && g[y] in s && g[y] in f && f[g[y]] == y
    ensures |s| == |t|
    decreases s
  {
    if s == {} {
      assert forall y :: y in t ==> g[y] in s;
    } else {
      var x :| x in s;
      SameSize(s - {x}, t - {f[x]}, f, g);
    }
  }

  lemma {:induction false} PrefixSize(line: seq<nat>, n: nat)
    requires n <= |line| && forall i, j :: 0 <= i < j < |line| ==> line[i] != line[j]
    ensures |set i | 0 <= i < n :: line[i]| == n
  {
    if n > 0 {
      PrefixSize(line, n - 1);
      var shorter := set i | 0 <= i < n - 1 :: line[i];
      assert (set i | 0 <= i < n :: line[i]) == shorter + {line[n - 1]};
    }
  }

  lemma SubsetSize<T>(s: set<T>, t: set<T>)
    requires s <= t
    ensures |s| <= |t|
  {
    assert t == s + (t - s);
  }

  lemma AtMostOne(s: set<nat>)
    requires forall x, y :: x in s && y in s ==> x == y
    ensures |s| <= 1
  {
    if s != {} {
      var x :| x in s;
      assert s == {x};
    }
  }

  lemma CoveredByThree(s: set<nat>, a: set<nat>, b: set<nat>, c: set<nat>)
    requires s <= a + b + c && |a| <= 1 && |b| <= 1 && |c| <= 1
    ensures |s| <= 3
  {
    SubsetSize(s, a + b + c);
    assert |a + b + c| <= |a + b| + |c| <= |a| + |b| + |c|;
  }

  function UpTo(n: nat): (s: set<nat>)
    ensures |s| == n && forall i: nat :: i in s <==> i < n
  {
    if n == 0 then {} else UpTo(n - 1) + {n - 1}
  }
}
