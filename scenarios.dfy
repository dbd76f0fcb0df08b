/** Concrete lines and argument strings, worked through the model. */
module Scenarios {
  import opened Wrappers
  import opened Strings
  import opened LogLine
  import opened ArgTokens
  import opened ImagePaths
  import opened SearchLog

  /** A well-formed log line splits at its first colon and its prompt's closing quote, and
      the newline is not part of the args. */
  lemma SampleLineParses()
    ensures Parse("out/1.png: \"a cat\" -S 42 -W 512\n")
      == Some(Entry("out/1.png", "a cat", "-S 42 -W 512"))
  {
    SampleLineShaped();
    SampleArgsEndAtNewline();
    ParseComplete("out/1.png: \"a cat\" -S 42 -W 512\n", "out/1.png", "a cat",
      "-S 42 -W 512\n");
  }

  lemma SampleLineShaped()
    ensures Shaped("out/1.png: \"a cat\" -S 42 -W 512\n", "out/1.png", "a cat",
      "-S 42 -W 512\n")
  {
    assert "out/1.png: \"a cat\" -S 42 -W 512\n"
      == "out/1.png" + ": \"" + "a cat" + "\" " + "-S 42 -W 512\n";
  }

  lemma SampleArgsEndAtNewline()
    ensures BeforeNewline("-S 42 -W 512\n") == "-S 42 -W 512"
  {
    var tail := "-S 42 -W 512\n";
    assert tail[..12] == "-S 42 -W 512";
    IndexOfAt(tail, '\n', 12);
  }

  /** With a space between the flag and its value or without one, each flag yields one token. */
  lemma SampleArgsTokens()
    ensures Tokens("-S 42 -W512") == [Token('S', "42", 0, 5), Token('W', "512", 6, 11)]
  {
    var s := "-S 42 -W512";
    var toks := [Token('S', "42", 0, 5), Token('W', "512", 6, 11)];
    SampleArgsMatch();
    SampleArgsGaps();
    assert toks[0].start <= 0 < toks[0].end && toks[1].start <= 6 < toks[1].end;
    assert IsScanFrom(s, 0, toks);
    TokensAreFinditer(s);
  }

  lemma SampleArgsMatch()
    ensures MatchesAt("-S 42 -W512", 0, Token('S', "42", 0, 5))
    ensures MatchesAt("-S 42 -W512", 6, Token('W', "512", 6, 11))
  {
    var s := "-S 42 -W512";
    assert s[3..5] == "42" && s[8..11] == "512";
  }

  lemma SampleArgsGaps()
    ensures forall p :: 0 <= p < 11 && p != 0 && p != 6 ==> NoMatchAt("-S 42 -W512", p)
  {
    var s := "-S 42 -W512";
    forall p | 0 <= p < |s| && p != 0 && p != 6
      ensures NoMatchAt(s, p)
    {
      assert s[p] != '-';
    }
  }

  /** A value is any run of non-spaces, so in `-F -S 1` the flag `F` takes `-S` as its
      value and the `1` is left unmatched. */
  lemma DashValueSwallowsNextFlag()
    ensures Tokens("-F -S 1") == [Token('F', "-S", 0, 5)]
  {
    var s := "-F -S 1";
    var toks := [Token('F', "-S", 0, 5)];
    assert s[3..5] == "-S";
    assert MatchesAt(s, 0, toks[0]);
    assert toks[0].start <= 0 < toks[0].end && toks[0].start <= 3 < toks[0].end;
    forall p | 0 <= p < |s| && p != 0 && p != 3
      ensures NoMatchAt(s, p)
    {
      assert s[p] != '-';
    }
    assert IsScanFrom(s, 0, toks);
    TokensAreFinditer(s);
  }

  /** Two spaces after a flag leave it without a value: nothing matches in `-S  42`. */
  lemma DoubleSpaceNoMatch()
    ensures Tokens("-S  42") == []
  {
    var s := "-S  42";
    assert MatchAt(s, 0).None?;
    MatchAtComplete(s, 0);
    assert IsScanFrom(s, 0, []);
    TokensAreFinditer(s);
  }

  /** The record of image `out/000001.png` lists the two intermediates of stem `000001`
      and not those of `000002`, in listing order, under `out/intermediates/`. */
  lemma SampleProgressImages()
    ensures var r := RecordFor(Entry("out/000001.png", "a cat", ""), Options(true, true, "out"),
                               ["000001.0.png", "000001.1.png", "000002.0.png"]);
      r["progress_images"] == StrList(["out/intermediates/000001.0.png", "out/intermediates/000001.1.png"])
  {
    SampleStem();
    SampleListing("out", "000001", ["000001.0.png", "000001.1.png", "000002.0.png"]);
  }

  lemma SampleStem()
    ensures Stem("out/000001.png") == "000001"
  {
    assert "out/000001.png" == "out" + ['/'] + "000001.png";
    AfterLastSplit("out", '/', "000001.png");
    assert "000001.png"[..6] == "000001";
    IndexOfAt("000001.png", '.', 6);
  }

  lemma SampleListing(outdir: string, stem: string, listing: seq<string>)
    requires outdir == "out" && stem == "000001"
    requires listing == ["000001.0.png", "000001.1.png", "000002.0.png"]
    ensures ProgressImages(outdir, stem, listing)
      == ["out/intermediates/000001.0.png", "out/intermediates/000001.1.png"]
  {
    SampleListingEntries(stem, listing);
    SampleEntryPath(outdir, listing[0]);
    SampleEntryPath(outdir, listing[1]);
    ThreeEntries(outdir, stem, listing[0], listing[1], listing[2]);
    assert listing == [listing[0], listing[1], listing[2]];
  }

  lemma SampleListingEntries(stem: string, listing: seq<string>)
    requires stem == "000001"
    requires listing == ["000001.0.png", "000001.1.png", "000002.0.png"]
    ensures IsPrefix(stem + ".", listing[0]) && IsPrefix(stem + ".", listing[1])
    ensures !IsPrefix(stem + ".", listing[2])
    ensures Lacks(listing[0], '/') && Lacks(listing[1], '/')
    ensures "out/intermediates/" + listing[0] == "out/intermediates/000001.0.png"
    ensures "out/intermediates/" + listing[1] == "out/intermediates/000001.1.png"
  {
    assert stem + "." == "000001.";
    assert listing[0][..7] == "000001." && listing[1][..7] == "000001.";
    assert listing[2][..7][5] == '2';
  }

  /** Two entries with the stem's prefix and a third without it. */
  lemma ThreeEntries(outdir: string, stem: string, a: string, b: string, c: string)
    requires IsPrefix(stem + ".", a) && IsPrefix(stem + ".", b) && !IsPrefix(stem + ".", c)
    ensures ProgressImages(outdir, stem, [a, b, c]) == [IntermediatePath(outdir, a), IntermediatePath(outdir, b)]
  {
    assert [c][1..] == [];
    assert ProgressImages(outdir, stem, [c]) == [];
    assert [b, c][1..] == [c];
    assert ProgressImages(outdir, stem, [b, c]) == [IntermediatePath(outdir, b)];
    assert [a, b, c][1..] == [b, c];
  }

  lemma SampleEntryPath(outdir: string, name: string)
    requires outdir == "out" && Lacks(name, '/')
    ensures IntermediatePath(outdir, name) == "out/intermediates/" + name
  {
    IntermediatesSpelled(outdir, name);
  }
}
