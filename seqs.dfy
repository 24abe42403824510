/** Sequence helpers standing for the JavaScript array methods the game uses (`filter`, counting by `filter(...).length`). */
module Seqs {

  /** `xs` can be obtained from `ys` by deleting elements: the elements of `xs` appear in `ys` in the same order. */
  ghost predicate IsSubsequence<T>(xs: seq<T>, ys: seq<T>)
    decreases |ys|
  {
    |xs| == 0 || (|ys| > 0 && if xs[0] == ys[0] then IsSubsequence(xs[1..], ys[1..]) else IsSubsequence(xs, ys[1..]))
  }

  /** `Array.prototype.filter`: the elements of `s` that satisfy `p`, in their original order, each kept as often as it occurs. */
  function Filter<T(==,!new)>(s: seq<T>, p: T -> bool): (r: seq<T>)
    ensures |r| <= |s|
    ensures forall x :: x in r <==> x in s && p(x)
    ensures IsSubsequence(r, s)
    ensures forall x {:trigger multiset(r)[x]} :: multiset(r)[x] == if p(x) then multiset(s)[x] else 0
  {
    if |s| == 0 then []
    else
      var rest := Filter(s[1..], p);
      assert s == [s[0]] + s[1..];
      assert multiset(s) == multiset{s[0]} + multiset(s[1..]);
      if p(s[0]) then
        var r := [s[0]] + rest;
        assert r[1..] == rest;
        assert multiset(r) == multiset{s[0]} + multiset(rest);
        r
      else
        assert |rest| > 0 ==> rest[0] in rest && rest[0] != s[0];
        rest
  }

  /** One step of `Filter`: the head is kept exactly when it satisfies the predicate. */
  lemma FilterUnfold<T(!new)>(s: seq<T>, p: T -> bool)
    requires |s| > 0
    ensures Filter(s, p) == (if p(s[0]) then [s[0]] else []) + Filter(s[1..], p)
  {
  }

  /** Filtering distributes over concatenation. */
  lemma {:induction false} FilterAppend<T(!new)>(a: seq<T>, b: seq<T>, p: T -> bool)
    ensures Filter(a + b, p) == Filter(a, p) + Filter(b, p)
    decreases |a|
  {
    if |a| == 0 {
      assert a + b == b;
    } else {
      assert (a + b)[1..] == a[1..] + b;
      FilterAppend(a[1..], b, p);
    }
  }

  /** Filtering with a predicate every element meets keeps the whole sequence. */
  lemma {:induction false} FilterKeepsAll<T(!new)>(s: seq<T>, p: T -> bool)
    requires forall i :: 0 <= i < |s| ==> p(s[i])
    ensures Filter(s, p) == s
  {
    if |s| > 0 {
      FilterKeepsAll(s[1..], p);
    }
  }

  /** Filtering with a predicate no element meets leaves nothing. */
  lemma {:induction false} FilterKeepsNone<T(!new)>(s: seq<T>, p: T -> bool)
    requires forall i :: 0 <= i < |s| ==> !p(s[i])
    ensures Filter(s, p) == []
  {
    if |s| > 0 {
      FilterKeepsNone(s[1..], p);
    }
  }

  /** When no two positions both satisfy the predicate, filtering keeps one element if some element satisfies it, none otherwise. */
  lemma {:induction false} FilterAtMostOne<T(!new)>(s: seq<T>, p: T -> bool)
    requires forall i, j :: 0 <= i < j < |s| && p(s[i]) ==> !p(s[j])
    ensures |Filter(s, p)| == if exists i :: 0 <= i < |s| && p(s[i]) then 1 else 0
  {
    if |s| > 0 {
      FilterUnfold(s, p);
      var t := s[1..];
      forall i, j | 0 <= i < j < |t| && p(t[i]) ensures !p(t[j]) {
        assert t[i] == s[i + 1] && t[j] == s[j + 1];
      }
      FilterAtMostOne(t, p);
      if p(s[0]) {
        forall i | 0 <= i < |t| ensures !p(t[i]) {
          assert t[i] == s[i + 1];
        }
      } else {
        forall i | 0 <= i < |s| && p(s[i]) ensures 0 <= i - 1 < |t| && p(t[i - 1]) {
          assert t[i - 1] == s[i];
        }
        forall i | 0 <= i < |t| && p(t[i]) ensures p(s[i + 1]) {
          assert t[i] == s[i + 1];
        }
      }
    }
  }
}
