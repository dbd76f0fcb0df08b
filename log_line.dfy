/** The outer parse of one dream-log line: the record pattern `^([^:]+): "([^"]+)" (.*)`
    splits `<image>: "<prompt>" <args>` into its three groups. */
module LogLine {
  import opened Wrappers
  import opened Strings

  /** The three groups of the record pattern. */
  datatype Entry = Entry(image: string, prompt: string, args: string)

  /** `line` is `<image>: "<prompt>" <tail>` with a non-empty image free of `:` and a
      non-empty prompt free of `"`: the shape the record pattern accepts. */
  predicate Shaped(line: string, image: string, prompt: string, tail: string)
  {
    && line == image + ": \"" + prompt + "\" " + tail
    && image != [] && Lacks(image, ':')
    && prompt != [] && Lacks(prompt, '"')
  }

  /** A group `([^c]+)` followed by the literal `sep`, where `c` is `sep[0]`: the group
      can only stop at the first `c` of `s`, so the match, if any, splits `s` there into the
      group and what follows `sep`. */
  function SplitField(s: string, sep: string): (r: Option<(string, string)>)
    requires sep != []
    ensures r.Some? ==> s == r.value.0 + sep + r.value.1 && r.value.0 != [] && Lacks(r.value.0, sep[0])
  {
    var k := IndexOf(s, sep[0]);
    if k == 0 || |s| < k + |sep| || s[k..k + |sep|] != sep then None
    else
      assert s == s[..k] + s[k..k + |sep|] + s[k + |sep|..];
      Some((s[..k], s[k + |sep|..]))
  }

  /** Every string of the form `field + sep + post`, with a non-empty `field` free of
      `sep[0]`, splits into exactly those parts. */
  lemma SplitFieldExact(field: string, sep: string, post: string)
    requires sep != [] && field != [] && Lacks(field, sep[0])
    ensures SplitField(field + sep + post, sep) == Some((field, post))
  {
    var s := field + sep + post;
    assert s[..|field|] == field;
    IndexOfAt(s, sep[0], |field|);
    assert s[|field|..|field| + |sep|] == sep;
    assert s[|field| + |sep|..] == post;
  }

  /** The record pattern applied to `line`; `None` where the pattern finds no match:
      `([^:]+)` then `: "`, `([^"]+)` then `" `, and `(.*)` up to the first newline. */
  function Parse(line: string): (r: Option<Entry>)
    ensures r.Some? ==> Lacks(r.value.image, ':') && Lacks(r.value.prompt, '"') && Lacks(r.value.args, '\n')
  {
    match SplitField(line, ": \"")
    case None => None
    case Some((image, rest)) =>
      match SplitField(rest, "\" ")
      case None => None
      case Some((prompt, tail)) => Some(Entry(image, prompt, BeforeNewline(tail)))
  }

  /** A parsed line has the accepted shape, and its args are the rest of the line up to
      (excluding) the first newline. */
  lemma ParseSound(line: string, e: Entry)
    requires Parse(line) == Some(e)
    ensures exists tail :: Shaped(line, e.image, e.prompt, tail) && e.args == BeforeNewline(tail)
  {
    var (image, rest) := SplitField(line, ": \"").value;
    var (prompt, tail) := SplitField(rest, "\" ").value;
    assert line == image + ": \"" + prompt + "\" " + tail;
    assert Shaped(line, e.image, e.prompt, tail);
  }

  /** Every line of the accepted shape parses, into exactly its image, its prompt and the
      part of its tail before the first newline. */
  lemma ParseComplete(line: string, image: string, prompt: string, tail: string)
    requires Shaped(line, image, prompt, tail)
    ensures Parse(line) == Some(Entry(image, prompt, BeforeNewline(tail)))
  {
    var rest := prompt + "\" " + tail;
    assert line == image + ": \"" + rest;
    SplitFieldExact(image, ": \"", rest);
    SplitFieldExact(prompt, "\" ", tail);
  }

  /** A line parses exactly when it has the accepted shape; every other line is malformed. */
  lemma ParseSucceedsIffShaped(line: string)
    ensures Parse(line).Some? <==> exists image, prompt, tail :: Shaped(line, image, prompt, tail)
  {
    if Parse(line).Some? {
      ParseSound(line, Parse(line).value);
    }
    if exists image, prompt, tail :: Shaped(line, image, prompt, tail) {
      var image, prompt, tail :| Shaped(line, image, prompt, tail);
      ParseComplete(line, image, prompt, tail);
    }
  }
}
