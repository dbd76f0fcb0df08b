/** The search itself: one pass over the dream log that keeps the lines whose prompt the
    user's pattern finds, echoing them (text mode) or turning each into a record of its
    image, prompt and generation arguments (JSON mode). */
module SearchLog {
  import opened Wrappers
  import opened Strings
  import opened LogLine
  import opened ArgTokens
  import opened ImagePaths

  /** A value in a match record: a string, or the list of progress-image paths. */
  datatype JsonValue = Str(text: string) | StrList(items: seq<string>)

  /** One JSON match record, keyed by entry name. */
  type Record = map<string, JsonValue>

  /** The parsed command-line options that the search consults. */
  datatype Options = Options(json: bool, progressImages: bool, outdir: string)

  /** How a run ends. The first four are raised before the log is read (`OutdirUnset` is
      the unbound `current_outdir` when the output directory is empty); `MalformedLine`
      is the crash on a line the record pattern rejects, after `printed` was echoed;
      `Text` and `Json` are normal ends with what was written to standard output. */
  datatype Outcome =
    | UsageError
    | OutdirUnset
    | PatternError
    | LogUnreadable
    | MalformedLine(index: nat, printed: seq<string>)
    | Text(printed: seq<string>)
    | Json(records: seq<Record>)

  /** `data` after `data[arg_name] = value` for each token in turn. */
  function ApplyArgs(data: Record, toks: seq<Token>): Record
    decreases |toks|
  {
    if toks == [] then data
    else
      var last := toks[|toks| - 1];
      ApplyArgs(data, toks[..|toks| - 1])[ArgName(last.letter) := Str(last.value)]
  }

  /** The record holds, under a token's key, the value of the last token with that key. */
  lemma {:induction false} LastWriteWins(data: Record, toks: seq<Token>, i: nat)
    requires i < |toks|
    requires forall j :: i < j < |toks| ==> ArgName(toks[j].letter) != ArgName(toks[i].letter)
    ensures ArgName(toks[i].letter) in ApplyArgs(data, toks)
    ensures ApplyArgs(data, toks)[ArgName(toks[i].letter)] == Str(toks[i].value)
  {
    if i < |toks| - 1 {
      LastWriteWins(data, toks[..|toks| - 1], i);
    }
  }

  /** A key that no token names keeps whatever `data` held under it. */
  lemma {:induction false} ArgsLeaveOthers(data: Record, toks: seq<Token>, key: string)
    requires forall j :: 0 <= j < |toks| ==> ArgName(toks[j].letter) != key
    ensures key in ApplyArgs(data, toks) <==> key in data
    ensures key in data ==> ApplyArgs(data, toks)[key] == data[key]
  {
    if toks != [] {
      ArgsLeaveOthers(data, toks[..|toks| - 1], key);
    }
  }

  /** The keys the tokens `toks` write to. */
  ghost function ArgKeys(toks: seq<Token>): set<string>
  {
    set j | 0 <= j < |toks| :: ArgName(toks[j].letter)
  }

  lemma ArgKeysSnoc(toks: seq<Token>)
    requires toks != []
    ensures ArgKeys(toks) == ArgKeys(toks[..|toks| - 1]) + {ArgName(toks[|toks| - 1].letter)}
  {
    var init := toks[..|toks| - 1];
    forall k | k in ArgKeys(toks) ensures k in ArgKeys(init) + {ArgName(toks[|toks| - 1].letter)} {
      var j :| 0 <= j < |toks| && k == ArgName(toks[j].letter);
      if j < |init| { assert init[j] == toks[j]; }
    }
    forall k | k in ArgKeys(init) ensures k in ArgKeys(toks) {
      var j :| 0 <= j < |init| && k == ArgName(init[j].letter);
      assert init[j] == toks[j];
    }
  }

  /** The keys after the arguments are applied: those of `data` and one per token. */
  lemma {:induction false} ApplyArgsKeys(data: Record, toks: seq<Token>)
    ensures ApplyArgs(data, toks).Keys == data.Keys + ArgKeys(toks)
  {
    if toks != [] {
      ApplyArgsKeys(data, toks[..|toks| - 1]);
      ArgKeysSnoc(toks);
    }
  }

  /** The record built for a matching line in JSON mode. Its `image` and `prompt` entries
      are the parsed ones (no argument key can replace them), and it has a
      `progress_images` entry exactly when progress images were requested, listing the
      intermediates of the image's stem. */
  function RecordFor(e: Entry, opt: Options, listing: seq<string>): (r: Record)
    ensures "image" in r && r["image"] == Str(e.image)
    ensures "prompt" in r && r["prompt"] == Str(e.prompt)
    ensures "progress_images" in r <==> opt.progressImages
    ensures opt.progressImages ==>
      r["progress_images"] == StrList(ProgressImages(opt.outdir, Stem(e.image), listing))
  {
    var base := map["image" := Str(e.image), "prompt" := Str(e.prompt)];
    var toks := Tokens(e.args);
    ArgsLeaveOthers(base, toks, "image");
    ArgsLeaveOthers(base, toks, "prompt");
    ArgsLeaveOthers(base, toks, "progress_images");
    var data := ApplyArgs(base, toks);
    if opt.progressImages then
      data["progress_images" := StrList(ProgressImages(opt.outdir, Stem(e.image), listing))]
    else data
  }

  /** A record's entries: `image`, `prompt`, one key per argument token, and
      `progress_images` when requested. */
  lemma RecordKeys(e: Entry, opt: Options, listing: seq<string>)
    ensures RecordFor(e, opt, listing).Keys ==
      {"image", "prompt"}
      + ArgKeys(Tokens(e.args))
      + (if opt.progressImages then {"progress_images"} else {})
  {
    ApplyArgsKeys(map["image" := Str(e.image), "prompt" := Str(e.prompt)], Tokens(e.args));
  }

  /** When a flag letter occurs several times in a line's args, the record holds the value
      of its last occurrence, under the letter's key. */
  lemma RecordLastWriteWins(e: Entry, opt: Options, listing: seq<string>, i: nat)
    requires i < |Tokens(e.args)|
    requires forall j :: i < j < |Tokens(e.args)| ==> Tokens(e.args)[j].letter != Tokens(e.args)[i].letter
    ensures ArgName(Tokens(e.args)[i].letter) in RecordFor(e, opt, listing)
    ensures RecordFor(e, opt, listing)[ArgName(Tokens(e.args)[i].letter)] == Str(Tokens(e.args)[i].value)
  {
    var toks := Tokens(e.args);
    forall j | i < j < |toks|
      ensures ArgName(toks[j].letter) != ArgName(toks[i].letter)
    {
      ArgNameInjective(toks[j].letter, toks[i].letter);
    }
    LastWriteWins(map["image" := Str(e.image), "prompt" := Str(e.prompt)], toks, i);
  }

  /** The test `main` applies to each line: it parses and the user's pattern finds its
      prompt. */
  function Keeps(search: string -> bool): string -> bool
  {
    (line: string) => Parse(line).Some? && search(Parse(line).value.prompt)
  }

  /** The JSON-mode record of a kept line (kept lines always parse). */
  function RecordOfLine(opt: Options, listing: seq<string>): string -> Record
  {
    (line: string) => if Parse(line).Some? then RecordFor(Parse(line).value, opt, listing) else map[]
  }

  /** The lines `keep` accepts, in log order. */
  function Selected(lines: seq<string>, keep: string -> bool): seq<string>
  {
    if lines == [] then []
    else
      var last := lines[|lines| - 1];
      Selected(lines[..|lines| - 1], keep) + (if keep(last) then [last] else [])
  }

  /** The records of the lines `keep` accepts, appended in log order. */
  function Records(lines: seq<string>, keep: string -> bool, record: string -> Record): seq<Record>
  {
    if lines == [] then []
    else
      var last := lines[|lines| - 1];
      Records(lines[..|lines| - 1], keep, record) + (if keep(last) then [record(last)] else [])
  }

  /** The positions of the lines `keep` accepts. */
  ghost function KeptIndices(lines: seq<string>, keep: string -> bool): seq<nat>
  {
    if lines == [] then []
    else
      KeptIndices(lines[..|lines| - 1], keep) + (if keep(lines[|lines| - 1]) then [|lines| - 1] else [])
  }

  /** The selected lines are the accepted lines, verbatim and in log order: one for each
      line `keep` accepts, and no other. */
  lemma {:induction false} SelectedInLogOrder(lines: seq<string>, keep: string -> bool)
    ensures |KeptIndices(lines, keep)| == |Selected(lines, keep)|
    ensures forall j :: 0 <= j < |KeptIndices(lines, keep)| ==>
      KeptIndices(lines, keep)[j] < |lines| && Selected(lines, keep)[j] == lines[KeptIndices(lines, keep)[j]]
    ensures forall j, k :: 0 <= j < k < |KeptIndices(lines, keep)| ==>
      KeptIndices(lines, keep)[j] < KeptIndices(lines, keep)[k]
    ensures forall i :: 0 <= i < |lines| ==> (keep(lines[i]) <==> i in KeptIndices(lines, keep))
  {
    if lines != [] {
      var init := lines[..|lines| - 1];
      SelectedInLogOrder(init, keep);
      forall i | 0 <= i < |init| ensures lines[i] == init[i] { }
    }
  }

  /** JSON mode keeps the same lines as text mode: one record per selected line, in the
      same order. */
  lemma {:induction false} RecordsFollowSelected(lines: seq<string>, keep: string -> bool, record: string -> Record)
    ensures |Records(lines, keep, record)| == |Selected(lines, keep)|
    ensures forall j :: 0 <= j < |Selected(lines, keep)| ==>
      keep(Selected(lines, keep)[j]) && Records(lines, keep, record)[j] == record(Selected(lines, keep)[j])
  {
    if lines != [] {
      RecordsFollowSelected(lines[..|lines| - 1], keep, record);
    }
  }

  /** With no line accepted, nothing is selected and the record list is empty. */
  lemma {:induction false} NothingKeptNoOutput(lines: seq<string>, keep: string -> bool, record: string -> Record)
    requires forall i :: 0 <= i < |lines| ==> !keep(lines[i])
    ensures Selected(lines, keep) == [] && Records(lines, keep, record) == []
  {
    if lines != [] {
      NothingKeptNoOutput(lines[..|lines| - 1], keep, record);
    }
  }

  /** Every JSON record describes its line: its `image` and `prompt` entries are that
      line's parsed image and prompt, and the user's pattern finds that prompt. */
  lemma JsonRecordsDescribeLines(lines: seq<string>, search: string -> bool, opt: Options, listing: seq<string>, j: nat)
    requires j < |Records(lines, Keeps(search), RecordOfLine(opt, listing))|
    ensures j < |Selected(lines, Keeps(search))|
    ensures var line := Selected(lines, Keeps(search))[j];
      var r := Records(lines, Keeps(search), RecordOfLine(opt, listing))[j];
      && Parse(line).Some? && search(Parse(line).value.prompt)
      && "image" in r && r["image"] == Str(Parse(line).value.image)
      && "prompt" in r && r["prompt"] == Str(Parse(line).value.prompt)
  {
    RecordsFollowSelected(lines, Keeps(search), RecordOfLine(opt, listing));
  }

  /** The position of the first line `ok` rejects, or `|lines|`. */
  function FirstRejected(lines: seq<string>, ok: string -> bool): (k: nat)
    ensures k <= |lines|
    ensures forall j :: 0 <= j < k ==> ok(lines[j])
    ensures k < |lines| ==> !ok(lines[k])
  {
    if lines == [] || !ok(lines[0]) then 0
    else 1 + FirstRejected(lines[1..], ok)
  }

  /** A line that passes, met before the first rejected one, is not the first rejected one. */
  lemma FirstRejectedPast(lines: seq<string>, ok: string -> bool, i: nat)
    requires i < |lines| && i <= FirstRejected(lines, ok) && ok(lines[i])
    ensures i + 1 <= FirstRejected(lines, ok)
  {
  }

  /** A line that fails, met at or before the first rejected one, is the first rejected one. */
  lemma FirstRejectedAt(lines: seq<string>, ok: string -> bool, i: nat)
    requires i < |lines| && i <= FirstRejected(lines, ok) && !ok(lines[i])
    ensures FirstRejected(lines, ok) == i
  {
  }

  /** The test the record pattern applies to a line. */
  function Parses(): string -> bool
  {
    (line: string) => Parse(line).Some?
  }

  /** What the pass over the log's `lines` produces, once the options, the pattern and the
      log have been accepted. */
  function ScanOutcome(lines: seq<string>, search: string -> bool, opt: Options, listing: seq<string>): Outcome
  {
    var bad := FirstRejected(lines, Parses());
    if bad < |lines| then MalformedLine(bad, if opt.json then [] else Selected(lines[..bad], Keeps(search)))
    else if opt.json then Json(Records(lines, Keeps(search), RecordOfLine(opt, listing)))
    else Text(Selected(lines, Keeps(search)))
  }

  /** What a run produces. `regex` is the user's pattern, `None` when it does not compile,
      otherwise its search on a prompt; `log` is the log's lines, `None` when it cannot be
      opened; `listing` is the intermediates directory's entries in enumeration order. */
  function Search(opt: Options, regex: Option<string -> bool>, log: Option<seq<string>>, listing: seq<string>): Outcome
  {
    if opt.progressImages && !opt.json then UsageError
    else if opt.outdir == [] then OutdirUnset
    else if regex.None? then PatternError
    else if log.None? then LogUnreadable
    else ScanOutcome(log.value, regex.value, opt, listing)
  }

  /** A run over an accepted log crashes exactly when some line does not fit the record
      pattern, and then at the first such line. */
  lemma CrashAtFirstMalformedLine(lines: seq<string>, search: string -> bool, opt: Options, listing: seq<string>)
    ensures ScanOutcome(lines, search, opt, listing).MalformedLine?
      <==> exists i :: 0 <= i < |lines| && Parse(lines[i]).None?
    ensures ScanOutcome(lines, search, opt, listing).MalformedLine? ==>
      var k := ScanOutcome(lines, search, opt, listing).index;
      && k < |lines| && Parse(lines[k]).None?
      && forall j :: 0 <= j < k ==> Parse(lines[j]).Some?
  {
    var k := FirstRejected(lines, Parses());
    if k == |lines| {
      forall i | 0 <= i < |lines| ensures Parse(lines[i]).Some? {
        assert Parses()(lines[i]);
      }
    } else {
      assert !Parses()(lines[k]);
    }
    forall j | 0 <= j < k ensures Parse(lines[j]).Some? {
      assert Parses()(lines[j]);
    }
  }

  /** The pass stops at a line the record pattern rejects when all lines before it parse. */
  lemma MalformedOutcome(lines: seq<string>, search: string -> bool, opt: Options, listing: seq<string>, i: nat)
    requires i < |lines| && i <= FirstRejected(lines, Parses()) && Parse(lines[i]).None?
    ensures ScanOutcome(lines, search, opt, listing)
      == MalformedLine(i, if opt.json then [] else Selected(lines[..i], Keeps(search)))
  {
    assert !Parses()(lines[i]);
    FirstRejectedAt(lines, Parses(), i);
  }

  /** A log whose every line parses ends normally. */
  lemma CleanOutcome(lines: seq<string>, search: string -> bool, opt: Options, listing: seq<string>)
    requires |lines| <= FirstRejected(lines, Parses())
    ensures ScanOutcome(lines, search, opt, listing)
      == if opt.json then Json(Records(lines, Keeps(search), RecordOfLine(opt, listing)))
         else Text(Selected(lines, Keeps(search)))
  {
  }

  /** Keeping or dropping one more line extends the output by that line alone. */
  lemma ScanStep(lines: seq<string>, i: nat, keep: string -> bool, record: string -> Record)
    requires i < |lines|
    ensures Selected(lines[..i + 1], keep) == Selected(lines[..i], keep) + (if keep(lines[i]) then [lines[i]] else [])
    ensures Records(lines[..i + 1], keep, record)
      == Records(lines[..i], keep, record) + (if keep(lines[i]) then [record(lines[i])] else [])
  {
    assert lines[..i + 1][..i] == lines[..i];
  }

  /** The `for arg_match in args_matches` loop: store each token's value under its key. */
  method CollectArgs(data: Record, args: string) returns (r: Record)
    ensures r == ApplyArgs(data, Tokens(args))
  {
    var toks := Tokens(args);
    r := data;
    var j := 0;
    while j < |toks|
      invariant 0 <= j <= |toks|
      invariant r == ApplyArgs(data, toks[..j])
    {
      assert toks[..j + 1][..j] == toks[..j];
      r := r[ArgName(toks[j].letter) := Str(toks[j].value)];
      j := j + 1;
    }
    assert toks[..j] == toks;
  }

  /** The `data` dict of one matching line, entry by entry as `main` fills it. */
  method BuildRecord(e: Entry, opt: Options, listing: seq<string>) returns (data: Record)
    ensures data == RecordFor(e, opt, listing)
  {
    data := map["image" := Str(e.image), "prompt" := Str(e.prompt)];
    data := CollectArgs(data, e.args);
    if opt.progressImages {
      var stem := Stem(e.image);
      data := data["progress_images" := StrList(ProgressImages(opt.outdir, stem, listing))];
    }
  }

  /** `main` after argument parsing: the option check, the output directory, the pattern,
      the log, then the pass. */
  method Run(opt: Options, regex: Option<string -> bool>, log: Option<seq<string>>, listing: seq<string>)
    returns (outcome: Outcome)
    ensures opt.progressImages && !opt.json ==> outcome == UsageError
    ensures outcome == Search(opt, regex, log, listing)
  {
    if opt.progressImages && !opt.json {
      return UsageError;
    }
    if opt.outdir == [] {
      return OutdirUnset;
    }
    if regex.None? {
      return PatternError;
    }
    if log.None? {
      return LogUnreadable;
    }
    outcome := ScanLog(log.value, regex.value, opt, listing);
  }

  /** The `while True: line = f.readline()` pass: parse each line, and echo or accumulate
      it when the pattern finds its prompt; a line the record pattern rejects ends the run. */
  method ScanLog(lines: seq<string>, search: string -> bool, opt: Options, listing: seq<string>)
    returns (outcome: Outcome)
    ensures outcome == ScanOutcome(lines, search, opt, listing)
  {
    var keep, record := Keeps(search), RecordOfLine(opt, listing);
    var printed: seq<string> := [];
    var jsonMatches: seq<Record> := [];
    var i := 0;
    while i < |lines|
      invariant 0 <= i <= |lines|
      invariant i <= FirstRejected(lines, Parses())
      invariant Emitted(lines[..i], keep, record, opt.json, printed, jsonMatches)
    {
      var line := lines[i];
      var m := Parse(line);
      if m.None? {
        MalformedOutcome(lines, search, opt, listing, i);
        return MalformedLine(i, printed);
      }
      FirstRejectedPast(lines, Parses(), i);
      var printed', jsonMatches' := ScanLine(line, m.value, search, opt, listing, printed, jsonMatches);
      EmittedStep(lines, i, keep, record, opt.json, printed, jsonMatches, printed', jsonMatches');
      printed, jsonMatches, i := printed', jsonMatches', i + 1;
    }
    assert lines[..i] == lines;
    CleanOutcome(lines, search, opt, listing);
    if opt.json {
      return Json(jsonMatches);
    }
    return Text(printed);
  }

  /** What the pass has written after reading `seen`: the kept lines in text mode, their
      records in JSON mode, and nothing on the other channel. */
  predicate Emitted(seen: seq<string>, keep: string -> bool, record: string -> Record, json: bool,
                    printed: seq<string>, jsonMatches: seq<Record>)
  {
    if json then printed == [] && jsonMatches == Records(seen, keep, record)
    else jsonMatches == [] && printed == Selected(seen, keep)
  }

  /** Appending line `i`'s output, when it is kept, to what was written after the first `i`
      lines gives what is written after the first `i + 1`. */
  lemma EmittedStep(lines: seq<string>, i: nat, keep: string -> bool, record: string -> Record, json: bool,
                    printed: seq<string>, jsonMatches: seq<Record>, printed': seq<string>, jsonMatches': seq<Record>)
    requires i < |lines|
    requires Emitted(lines[..i], keep, record, json, printed, jsonMatches)
    requires printed' == printed + (if !json && keep(lines[i]) then [lines[i]] else [])
    requires jsonMatches' == jsonMatches + (if json && keep(lines[i]) then [record(lines[i])] else [])
    ensures Emitted(lines[..i + 1], keep, record, json, printed', jsonMatches')
  {
    ScanStep(lines, i, keep, record);
  }

  /** One turn of the readline loop on a line that parses: echo it, or append its record,
      when the pattern finds its prompt. */
  method ScanLine(line: string, e: Entry, search: string -> bool, opt: Options, listing: seq<string>,
                  printed: seq<string>, jsonMatches: seq<Record>)
    returns (printed': seq<string>, jsonMatches': seq<Record>)
    requires Parse(line) == Some(e)
    ensures printed' == printed + (if !opt.json && Keeps(search)(line) then [line] else [])
    ensures jsonMatches' == jsonMatches + (if opt.json && Keeps(search)(line) then [RecordOfLine(opt, listing)(line)] else [])
  {
    printed', jsonMatches' := printed, jsonMatches;
    if search(e.prompt) {
      if !opt.json {
        printed' := printed + [line];
      } else {
        var data := BuildRecord(e, opt, listing);
        jsonMatches' := jsonMatches + [data];
      }
    }
  }
}
