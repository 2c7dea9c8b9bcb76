/** Python's sequence slicing as the modelled code uses it, and subsequences. */
module PySeqs {

  function Min(a: int, b: int): int { if a <= b then a else b }
  function Max(a: int, b: int): int { if a >= b then a else b }

  /**
   * Python's `s[-limit:]`.  A positive limit keeps the last `limit` elements (all
   * of them when there are fewer); `-0` is `0`, so a zero limit keeps everything;
   * a negative limit drops the first `-limit` elements.
   */
  function PyTail<T>(s: seq<T>, limit: int): (r: seq<T>)
    ensures |r| <= |s|
    ensures limit > 0 ==> |r| == Min(limit, |s|)
    ensures limit < 0 ==> |r| == Max(0, |s| + limit)
    ensures limit == 0 || limit >= |s| ==> r == s
    ensures 0 < limit < |s| ==> r == s[|s| - limit..]
    ensures limit < 0 && -limit < |s| ==> r == s[-limit..]
    ensures limit < 0 && -limit >= |s| ==> r == []
  {
    if limit > 0 then
      (if limit >= |s| then s else s[|s| - limit..])
    else
      (if -limit >= |s| then [] else s[-limit..])
  }

  /** The tail holds only elements of `s`, and a limit of at least `|s|` keeps them all. */
  lemma PyTailMembers<T>(s: seq<T>, limit: int, e: T)
    ensures e in PyTail(s, limit) ==> e in s
    ensures limit >= |s| ==> PyTail(s, limit) == s
  {
    var r := PyTail(s, limit);
    if e in r && r != s {
      var k := if limit > 0 then |s| - limit else -limit;
      assert r == s[k..];
      var i :| 0 <= i < |r| && r[i] == e;
      assert r[i] == s[k + i];
    }
  }

  /** Indexing past the first part of a concatenation. */
  lemma AppendIndex<T>(a: seq<T>, b: seq<T>, i: int)
    requires |a| <= i < |a| + |b|
    ensures (a + b)[i] == b[i - |a|]
  {
  }

  /** Concatenation regroups freely. */
  lemma AppendAssoc<T>(a: seq<T>, b: seq<T>, c: seq<T>)
    ensures a + (b + c) == (a + b) + c
  {
  }

  /**
   * `r` is a subsequence of `s`: `r` is `s` with some elements left out, the rest
   * in their order.  Matched from the back.
   */
  predicate Subsequence<T(==)>(r: seq<T>, s: seq<T>)
    decreases |s|
  {
    r == [] ||
    (s != [] &&
      if r[|r| - 1] == s[|s| - 1] then Subsequence(r[..|r| - 1], s[..|s| - 1])
      else Subsequence(r, s[..|s| - 1]))
  }

  /** Every suffix of a subsequence is a subsequence. */
  lemma {:induction false} SuffixOfSubsequence<T>(r: seq<T>, s: seq<T>, k: nat)
    requires Subsequence(r, s) && k <= |r|
    ensures Subsequence(r[k..], s)
    decreases |s|
  {
    if k < |r| {
      var t := r[k..];
      assert t[|t| - 1] == r[|r| - 1];
      if r[|r| - 1] == s[|s| - 1] {
        SuffixOfSubsequence(r[..|r| - 1], s[..|s| - 1], k);
        assert t[..|t| - 1] == r[..|r| - 1][k..];
      } else {
        SuffixOfSubsequence(r, s[..|s| - 1], k);
      }
    }
  }

  lemma PyTailIsSubsequence<T>(r: seq<T>, s: seq<T>, limit: int)
    requires Subsequence(r, s)
    ensures Subsequence(PyTail(r, limit), s)
  {
    var t := PyTail(r, limit);
    var k := if limit == 0 || limit >= |r| then 0
      else if limit > 0 then |r| - limit
      else if -limit < |r| then -limit
      else |r|;
    assert t == r[k..];
    SuffixOfSubsequence(r, s, k);
  }

  lemma {:induction false} SubsequenceRefl<T>(s: seq<T>)
    ensures Subsequence(s, s)
    decreases |s|
  {
    if s != [] {
      SubsequenceRefl(s[..|s| - 1]);
    }
  }
}
