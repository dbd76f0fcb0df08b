/** The inner parse of a log line's args: `re.finditer(r'-([a-zA-Z]{1}) ?([^ ]+)', args)`,
    written out as a scanner, and the table that names the flag letters. */
module ArgTokens {
  import opened Wrappers
  import opened Strings

  predicate IsAsciiLetter(c: char)
  {
    'a' <= c <= 'z' || 'A' <= c <= 'Z'
  }

  /** One match of the token pattern: group 1 is `letter`, group 2 is `value`, and the
      match spans `[start, end)` of the scanned text. */
  datatype Token = Token(letter: char, value: string, start: nat, end: nat)

  /** `t` is a match of `-([a-zA-Z]{1}) ?([^ ]+)` starting at position `i` of `s`: a dash,
      one ASCII letter, an optional space, then a maximal run of non-space characters. */
  predicate MatchesAt(s: string, i: nat, t: Token)
  {
    && t.start == i
    && i + 1 < |s| && s[i] == '-' && s[i + 1] == t.letter && IsAsciiLetter(t.letter)
    && t.value != [] && Lacks(t.value, ' ')
    && t.end <= |s|
    && (t.end == i + 2 + |t.value| || (t.end == i + 3 + |t.value| && s[i + 2] == ' '))
    && s[t.end - |t.value|..t.end] == t.value
    && (t.end == |s| || s[t.end] == ' ')
  }

  /** No match of the token pattern starts at `i`. */
  ghost predicate NoMatchAt(s: string, i: nat)
  {
    forall t :: !MatchesAt(s, i, t)
  }

  /** The regex engine's attempt at position `i`. The optional space is tried first; when
      it is present the value must start right after it, because the fallback (no space)
      would put that space inside the value, which `[^ ]` forbids. */
  function MatchAt(s: string, i: nat): (r: Option<Token>)
    ensures r.Some? ==> MatchesAt(s, i, r.value)
  {
    if |s| <= i + 2 || s[i] != '-' || !IsAsciiLetter(s[i + 1]) then None
    else
      var from := if s[i + 2] == ' ' then i + 3 else i + 2;
      if |s| <= from || s[from] == ' ' then None
      else
        var end := from + IndexOf(s[from..], ' ');
        assert s[from..end] == s[from..][..end - from];
        Some(Token(s[i + 1], s[from..end], i, end))
  }

  /** Every match at `i` is the one the attempt at `i` returns: the match at a position is
      unique, because the value can start neither with nor before a space. */
  lemma MatchAtExact(s: string, i: nat, t: Token)
    requires MatchesAt(s, i, t)
    ensures MatchAt(s, i) == Some(t)
  {
    var from := t.end - |t.value|;
    assert s[from] == t.value[0];
    var rest := s[from..];
    assert rest[..t.end - from] == t.value;
    if t.end < |s| {
      IndexOfAt(rest, ' ', t.end - from);
    } else {
      assert rest == t.value;
    }
  }

  /** When the attempt at `i` fails, no match starts at `i`. */
  lemma MatchAtComplete(s: string, i: nat)
    requires MatchAt(s, i).None?
    ensures NoMatchAt(s, i)
  {
  }

  /** The matches `finditer` yields from position `i` on: try every position left to right
      and resume after each match, so matches never overlap. */
  function TokensFrom(s: string, i: nat): (toks: seq<Token>)
    requires i <= |s|
    decreases |s| - i
  {
    if i == |s| then []
    else match MatchAt(s, i)
      case Some(t) => [t] + TokensFrom(s, t.end)
      case None => TokensFrom(s, i + 1)
  }

  /** Position `p` lies inside the span of one of `toks`. */
  ghost predicate Covered(toks: seq<Token>, p: nat)
  {
    exists k :: 0 <= k < |toks| && toks[k].start <= p < toks[k].end
  }

  /** `toks` is what a left-to-right, non-overlapping search for the token pattern finds in
      `s` from position `i`: each one is a match, they are in order and disjoint, and no
      match starts at any position from `i` on that none of them covers. */
  ghost predicate IsScanFrom(s: string, i: nat, toks: seq<Token>)
  {
    && (forall k :: 0 <= k < |toks| ==> i <= toks[k].start && MatchesAt(s, toks[k].start, toks[k]))
    && (forall j, k :: 0 <= j < k < |toks| ==> toks[j].end <= toks[k].start)
    && (forall p :: i <= p < |s| && !Covered(toks, p) ==> NoMatchAt(s, p))
  }

  lemma CoveredCons(t: Token, rest: seq<Token>, p: nat)
    ensures Covered([t] + rest, p) <==> t.start <= p < t.end || Covered(rest, p)
  {
    var toks := [t] + rest;
    if t.start <= p < t.end {
      assert toks[0] == t;
    }
    if Covered(rest, p) {
      var k :| 0 <= k < |rest| && rest[k].start <= p < rest[k].end;
      assert toks[k + 1] == rest[k];
    }
  }

  /** A match at `i` followed by a scan from its end is a scan from `i`. */
  lemma ScanCons(s: string, i: nat, t: Token, rest: seq<Token>)
    requires MatchesAt(s, i, t) && IsScanFrom(s, t.end, rest)
    ensures IsScanFrom(s, i, [t] + rest)
  {
    var toks := [t] + rest;
    forall k | 0 <= k < |toks|
      ensures i <= toks[k].start && MatchesAt(s, toks[k].start, toks[k])
    {
      if k > 0 { assert toks[k] == rest[k - 1]; }
    }
    forall j, k | 0 <= j < k < |toks|
      ensures toks[j].end <= toks[k].start
    {
      assert toks[k] == rest[k - 1];
      if j > 0 { assert toks[j] == rest[j - 1]; }
    }
    forall p | i <= p < |s| && !Covered(toks, p)
      ensures NoMatchAt(s, p)
    {
      CoveredCons(t, rest, p);
    }
  }

  lemma {:induction false} TokensFromIsScan(s: string, i: nat)
    requires i <= |s|
    ensures IsScanFrom(s, i, TokensFrom(s, i))
    decreases |s| - i
  {
    if i < |s| {
      match MatchAt(s, i)
      case Some(t) =>
        TokensFromIsScan(s, t.end);
        ScanCons(s, i, t, TokensFrom(s, t.end));
      case None =>
        TokensFromIsScan(s, i + 1);
        MatchAtComplete(s, i);
    }
  }

  /** A scan from `i` that has a first token also is a scan, from that token's end, of
      the tokens after it. */
  lemma ScanTail(s: string, i: nat, toks: seq<Token>)
    requires IsScanFrom(s, i, toks) && toks != []
    ensures IsScanFrom(s, toks[0].end, toks[1..])
  {
    var rest := toks[1..];
    assert toks == [toks[0]] + rest;
    forall k | 0 <= k < |rest|
      ensures toks[0].end <= rest[k].start
    {
      assert rest[k] == toks[k + 1];
    }
    forall p | toks[0].end <= p < |s| && !Covered(rest, p)
      ensures NoMatchAt(s, p)
    {
      CoveredCons(toks[0], rest, p);
    }
  }

  /** The first match of one scan from `i` is covered by the other, so the other starts
      no later. */
  lemma FirstCovered(s: string, i: nat, a: seq<Token>, b: seq<Token>)
    requires IsScanFrom(s, i, a) && IsScanFrom(s, i, b) && a != []
    ensures b != [] && b[0].start <= a[0].start
  {
    var p := a[0].start;
    assert MatchesAt(s, p, a[0]);
    assert !NoMatchAt(s, p);
    assert Covered(b, p);
    var k :| 0 <= k < |b| && b[k].start <= p < b[k].end;
    if k > 0 {
      assert b[0].end <= b[k].start;
    }
  }

  /** The scan specification determines the tokens: there is exactly one left-to-right,
      non-overlapping sequence of matches that misses no match. */
  lemma {:induction false} ScanUnique(s: string, i: nat, a: seq<Token>, b: seq<Token>)
    requires IsScanFrom(s, i, a) && IsScanFrom(s, i, b)
    ensures a == b
    decreases |a|
  {
    if a != [] {
      FirstCovered(s, i, a, b);
    }
    if b != [] {
      FirstCovered(s, i, b, a);
    }
    if a != [] {
      MatchAtExact(s, a[0].start, a[0]);
      MatchAtExact(s, b[0].start, b[0]);
      ScanTail(s, i, a);
      ScanTail(s, i, b);
      ScanUnique(s, a[0].end, a[1..], b[1..]);
      assert a == [a[0]] + a[1..] && b == [b[0]] + b[1..];
    }
  }

  /** All matches of the token pattern in `args`, as `finditer` yields them. */
  function Tokens(args: string): seq<Token>
  {
    TokensFrom(args, 0)
  }

  /** The scanner meets the `finditer` specification, and is the only sequence that does. */
  lemma TokensAreFinditer(args: string)
    ensures IsScanFrom(args, 0, Tokens(args))
    ensures forall toks :: IsScanFrom(args, 0, toks) ==> toks == Tokens(args)
  {
    TokensFromIsScan(args, 0);
    forall toks | IsScanFrom(args, 0, toks)
      ensures toks == Tokens(args)
    {
      ScanUnique(args, 0, toks, Tokens(args));
    }
  }

  /** The `arg_names` table: the long name of each known flag letter (case-sensitive). */
  const ArgNames: map<char, string> := map[
    's' := "steps",
    'W' := "width",
    'H' := "height",
    'C' := "cfg_scale",
    'A' := "sampler",
    'F' := "full_precision",
    'S' := "seed",
    'G' := "gfpgan_strength",
    'I' := "init_img"
  ]

  /** The record key for a flag letter: its long name when the table knows the letter,
      otherwise the letter itself. No key is one of the record's fixed entries. */
  function ArgName(letter: char): (key: string)
    ensures |key| == 1 <==> letter !in ArgNames
    ensures key != "image" && key != "prompt" && key != "progress_images"
  {
    if letter in ArgNames then ArgNames[letter] else [letter]
  }

  /** Distinct flag letters give distinct keys, so `s` (steps) and `S` (seed) never collide. */
  lemma ArgNameInjective(a: char, b: char)
    requires a != b
    ensures ArgName(a) != ArgName(b)
  {
  }
}
