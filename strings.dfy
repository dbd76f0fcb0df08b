/** Searches over strings shared by the line parser, the token scanner and the path helpers. */
module Strings {

  /** No character of `s` is `c`. */
  predicate Lacks(s: string, c: char)
  {
    forall k :: 0 <= k < |s| ==> s[k] != c
  }

  /** `p` is a prefix of `s`. */
  predicate IsPrefix(p: string, s: string)
  {
    |p| <= |s| && s[..|p|] == p
  }

  /** Position of the first `c` in `s`, or `|s|` when `s` holds none: what a
      greedy `[^c]*` consumes from the start of `s`. */
  function IndexOf(s: string, c: char): (r: nat)
    ensures r <= |s|
    ensures r < |s| ==> s[r] == c
    ensures Lacks(s[..r], c)
  {
    if s == [] || s[0] == c then 0
    else
      var r := 1 + IndexOf(s[1..], c);
      assert s[..r] == [s[0]] + s[1..][..r - 1];
      r
  }

  /** A `c` at `k` with none before it is the first `c`. */
  lemma IndexOfAt(s: string, c: char, k: nat)
    requires k < |s| && s[k] == c && Lacks(s[..k], c)
    ensures IndexOf(s, c) == k
  {
  }

  /** A prefix of a string without `c` has no `c` either. */
  lemma PrefixLacks(p: string, s: string, c: char)
    requires IsPrefix(p, s) && Lacks(s, c)
    ensures Lacks(p, c)
  {
    forall k | 0 <= k < |p| ensures p[k] != c {
      assert p[k] == s[k];
    }
  }

  /** The text of `s` after its last `c` (all of `s` when it holds no `c`). */
  function AfterLast(s: string, c: char): (r: string)
    ensures |r| <= |s| && r == s[|s| - |r|..]
    ensures Lacks(r, c)
    ensures |r| == |s| || s[|s| - |r| - 1] == c
  {
    if s == [] || s[|s| - 1] == c then []
    else
      var init := s[..|s| - 1];
      var r := AfterLast(init, c) + [s[|s| - 1]];
      assert init[|init| - (|r| - 1)..] + [s[|s| - 1]] == s[|s| - |r|..];
      r
  }

  /** The text after the last `c` of `pre + [c] + post` is `post` when `post` holds no `c`. */
  lemma {:induction false} AfterLastSplit(pre: string, c: char, post: string)
    requires Lacks(post, c)
    ensures AfterLast(pre + [c] + post, c) == post
  {
    var s := pre + [c] + post;
    if post != [] {
      var init := post[..|post| - 1];
      assert s[..|s| - 1] == pre + [c] + init;
      AfterLastSplit(pre, c, init);
      assert post == init + [post[|post| - 1]];
    }
  }

  /** The text before the first newline: what `.*` matches, since `.` does not match `\n`. */
  function BeforeNewline(s: string): (r: string)
    ensures IsPrefix(r, s) && Lacks(r, '\n')
    ensures |r| == |s| || s[|r|] == '\n'
  {
    s[..IndexOf(s, '\n')]
  }
}
