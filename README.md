# search_log — a verified model of the dream-log search script

`scripts/search_log.py` searches the dream log that the image generator writes to
`<outdir>/dream_log.txt`. Each line of the log has the form

    <image path>: "<prompt>" <generation arguments>

The script keeps every line whose prompt the user's regular expression finds. By default
it echoes the kept lines verbatim. With `--json` it prints one record per kept line. A
record holds the line's `image`, its `prompt`, and one entry per `-<letter> <value>`
argument token. Each entry's key is the flag's long name from the `arg_names` table
(`S` is `seed`, `W` is `width`, …), or the bare letter for an unknown flag. With
`--progress-images`, which requires `--json`, a record also lists the image's files in
`<outdir>/intermediates/` whose names start with the image's stem and a dot.

The model follows the script's structure:

| file | module | what it models |
|---|---|---|
| `wrappers.dfy` | `Wrappers` | `Option` |
| `strings.dfy` | `Strings` | first and last occurrence of a character, the text before a newline |
| `log_line.dfy` | `LogLine` | the record pattern `^([^\:]+): "([^"]+)" (.*)` as a parser, proved sound and complete against the line shape it accepts |
| `arg_tokens.dfy` | `ArgTokens` | `re.finditer` of `-([a-zA-Z]{1}) ?([^ ]+)` as a scanner, proved to be the unique left-to-right, non-overlapping, nothing-skipped sequence of matches; the `arg_names` table |
| `image_paths.dfy` | `ImagePaths` | `basename`, the stem before the first `.`, POSIX `os.path.join`, the `<stem>.*` glob over a directory listing |
| `search_log.dfy` | `SearchLog` | the record of one line, the pass over the log (`ScanLog`, with loop invariants), and `main` after argument parsing (`Run`) against the specification function `Search` |
| `scenarios.dfy` | `Scenarios` | concrete lines and argument strings worked through the model |

A run ends in one of these ways (`SearchLog.Outcome`), checked in the script's order:
1. `UsageError`: `--progress-images` was given without `--json`.
2. `OutdirUnset`: the output directory is empty, so `current_outdir` is never bound.
3. `PatternError`: the regular expression does not compile.
4. `LogUnreadable`: the log cannot be opened.
5. `MalformedLine(i, printed)`: line `i` does not fit the record pattern, so `match.group` fails on `None`. The run crashes there, after echoing `printed` in text mode; JSON mode has printed nothing yet.
6. `Text(lines)` or `Json(records)`: the run ends normally.

On a line the record pattern rejects, `re.search` returns `None` and `match.group` raises
(scripts/search_log.py:49-50), so the run crashes there; the model does the same.

## Model

| member | source | states |
|---|---|---|
| LogLine.Parse | scripts/search_log.py:49-51 | a successful parse yields an image without `:`, a prompt without `"`, and args without a newline |
| LogLine.ParseSound | scripts/search_log.py:49-61 | a parsed line is exactly `image + ": \"" + prompt + "\" " + tail`, and the args are the tail up to its first newline |
| LogLine.ParseComplete | scripts/search_log.py:49-61 | every line of that shape parses, to exactly that image, prompt and newline-cut tail (the split is unique) |
| LogLine.ParseSucceedsIffShaped | scripts/search_log.py:49 | the record pattern matches a line if and only if the line has that shape |
| LogLine.SplitFieldExact | scripts/search_log.py:49 | a field free of the separator's first character, followed by the separator, splits back into that field and the rest |
| Strings.BeforeNewline | scripts/search_log.py:61 | group 3 (`.*`) is the longest newline-free prefix of the tail |
| ArgTokens.MatchAt | scripts/search_log.py:62 | the attempt at a position returns only a real match of `-<letter>[ ]<non-spaces>` ending at a space or the end |
| ArgTokens.MatchAtExact | scripts/search_log.py:62 | any match at a position is the one the attempt returns (a match at a position is unique) |
| ArgTokens.MatchAtComplete | scripts/search_log.py:62 | when the attempt fails, no match starts at that position |
| ArgTokens.TokensFromIsScan | scripts/search_log.py:62 | the scanner's tokens are matches, in increasing and non-overlapping order, and no match starts at any position they leave uncovered |
| ArgTokens.ScanUnique | scripts/search_log.py:62 | two token sequences that both meet that specification are equal |
| ArgTokens.TokensFrom | scripts/search_log.py:62 | `finditer` from a position: try each position, resume after a match; specified by `TokensFromIsScan` |
| ArgTokens.Tokens | scripts/search_log.py:62 | all matches in the args; `TokensAreFinditer` proves it is the unique `finditer` sequence |
| ArgTokens.TokensAreFinditer | scripts/search_log.py:62-64 | `Tokens(args)` is the one sequence that `finditer` can yield |
| ArgTokens.ArgName | scripts/search_log.py:66-69 | a letter's key is a single letter exactly when `arg_names` lacks it; no key is `image`, `prompt` or `progress_images` |
| ArgTokens.ArgNameInjective | scripts/search_log.py:11-21 | distinct letters get distinct keys (`s`/`S` give `steps`/`seed`) |
| ImagePaths.Basename | scripts/search_log.py:75 | the basename is the slash-free suffix after the last `/` |
| ImagePaths.Stem | scripts/search_log.py:75 | the stem is the basename's prefix before its first `.`, with no `.` and no `/` |
| ImagePaths.IntermediatePath | scripts/search_log.py:78 | a reported path is exactly `<outdir>/intermediates/<entry>` (no extra `/` after an `outdir` ending in one); it lies under `outdir` and its basename is the entry's name |
| ImagePaths.IntermediatesSpelled | scripts/search_log.py:78 | `os.path.join(outdir, 'intermediates', name)` spelled out for a bare name, with and without a trailing `/` on `outdir` |
| ImagePaths.Join | scripts/search_log.py:78 | POSIX `os.path.join`; its separator rule is stated by `JoinSeparated` and `IntermediatesSpelled` |
| ImagePaths.JoinSeparated | scripts/search_log.py:78 | `os.path.join` of a directory and a bare name puts a `/` between them |
| ImagePaths.ProgressImages | scripts/search_log.py:77-78 | no more paths than directory entries |
| ImagePaths.ProgressImagesExactly | scripts/search_log.py:77-78 | a path is reported if and only if some entry starting with `<stem>.` maps to it |
| SearchLog.LastWriteWins | scripts/search_log.py:64-71 | under a token's key the record holds the value of the last token with that key |
| SearchLog.ArgsLeaveOthers | scripts/search_log.py:64-71 | a key that no token names keeps its earlier presence and value |
| SearchLog.ApplyArgsKeys | scripts/search_log.py:64-71 | the keys after the loop are the earlier keys plus one per token |
| SearchLog.CollectArgs | scripts/search_log.py:64-71 | the loop over the tokens leaves the record the fold `ApplyArgs` describes |
| SearchLog.RecordFor | scripts/search_log.py:57-79 | `image` and `prompt` are the parsed values and no argument overwrites them; `progress_images` is present exactly when requested, and then holds the `<stem>.*` intermediates of the image's stem (`ProgressImages` of `Stem(image)`) |
| SearchLog.ApplyArgs | scripts/search_log.py:64-71 | the `data[arg_name] = value` loop as a left fold over the tokens; what it leaves is stated by `LastWriteWins`, `ArgsLeaveOthers` and `ApplyArgsKeys` |
| SearchLog.RecordKeys | scripts/search_log.py:57-79 | a record's keys are `image`, `prompt`, one per argument token, and `progress_images` when requested |
| SearchLog.RecordLastWriteWins | scripts/search_log.py:62-71 | a flag letter repeated in one line is recorded with the value of its last occurrence |
| SearchLog.BuildRecord | scripts/search_log.py:57-79 | the dict built entry by entry is `RecordFor` |
| SearchLog.Keeps | scripts/search_log.py:49-53 | the per-line test: the line parses and the user's pattern finds its prompt |
| SearchLog.Parses | scripts/search_log.py:49-50 | the per-line test that the record pattern matches |
| SearchLog.RecordOfLine | scripts/search_log.py:57-81 | the record of a kept line, `RecordFor` of its parse |
| SearchLog.Selected | scripts/search_log.py:53-55 | the lines text mode echoes; `SelectedInLogOrder` states they are exactly the kept lines in log order |
| SearchLog.Records | scripts/search_log.py:57-81 | the list JSON mode accumulates; `RecordsFollowSelected` pairs it with the kept lines |
| SearchLog.SelectedInLogOrder | scripts/search_log.py:53-55 | echoed lines are the kept lines, verbatim, in log order, one per kept line, and no others |
| SearchLog.RecordsFollowSelected | scripts/search_log.py:53-81 | JSON mode has one record per kept line, in the same order, each built from its own line |
| SearchLog.NothingKeptNoOutput | scripts/search_log.py:53-84 | when no prompt matches, nothing is echoed and the JSON list is empty |
| SearchLog.JsonRecordsDescribeLines | scripts/search_log.py:53-81 | each record's line parses, the pattern finds its prompt, and the record's `image`/`prompt` are that line's |
| SearchLog.FirstRejected | scripts/search_log.py:44-51 | the index of the first line the record pattern rejects (or the line count); every line before it passes |
| SearchLog.FirstRejectedPast | scripts/search_log.py:44-51 | a passing line before the first rejected one moves that bound past it |
| SearchLog.FirstRejectedAt | scripts/search_log.py:44-51 | a failing line at or before the bound is the first rejected one |
| SearchLog.CrashAtFirstMalformedLine | scripts/search_log.py:44-51 | the run crashes if and only if some line is malformed, and then at the first malformed line, after all earlier lines parsed |
| SearchLog.MalformedOutcome | scripts/search_log.py:49-55 | the crash at line `i` carries exactly the lines echoed before it (none in JSON mode) |
| SearchLog.CleanOutcome | scripts/search_log.py:43-84 | a log whose lines all parse ends with the echoed lines or the record list |
| SearchLog.ScanStep | scripts/search_log.py:53-81 | one more line extends the output by that line alone, or not at all |
| SearchLog.EmittedStep | scripts/search_log.py:53-81 | one loop turn's output extends what was written for the first `i` lines to what is written for the first `i + 1` |
| SearchLog.ScanLine | scripts/search_log.py:53-81 | one loop turn appends the line (text) or its record (JSON) exactly when the pattern finds its prompt |
| SearchLog.ScanLog | scripts/search_log.py:43-84 | the readline loop produces `ScanOutcome`: crash at the first malformed line, otherwise the kept lines or their records |
| SearchLog.ScanOutcome | scripts/search_log.py:43-84 | the pass over an opened log; `CrashAtFirstMalformedLine`, `MalformedOutcome` and `CleanOutcome` state its cases |
| SearchLog.Search | scripts/search_log.py:31-84 | a whole run: usage error, unset output directory, bad pattern, unreadable log, in that order, then `ScanOutcome` |
| SearchLog.Run | scripts/search_log.py:31-43 | `--progress-images` without `--json` is a usage error; otherwise the checks run in order (output directory, pattern, log), then the pass |
| Scenarios.SampleLineParses | scripts/search_log.py:49-61 | `out/1.png: "a cat" -S 42 -W 512` parses to that image, prompt and args |
| Scenarios.SampleArgsTokens | scripts/search_log.py:62-64 | `-S 42 -W512` yields the tokens `S`=`42` and `W`=`512` |
| Scenarios.DashValueSwallowsNextFlag | scripts/search_log.py:62 | in `-F -S 1` the flag `F` takes `-S` as its value and nothing else matches |
| Scenarios.DoubleSpaceNoMatch | scripts/search_log.py:62 | `-S  42` (two spaces) yields no token |
| Scenarios.SampleStem | scripts/search_log.py:75 | the stem of `out/000001.png` is `000001` |
| Scenarios.SampleListing | scripts/search_log.py:77-78 | over the entries `000001.0.png`, `000001.1.png`, `000002.0.png`, stem `000001` selects exactly `out/intermediates/000001.0.png` and `out/intermediates/000001.1.png` |
| Scenarios.SampleProgressImages | scripts/search_log.py:73-79 | the record of image `out/000001.png` lists exactly those two paths under `progress_images` |

## Left out

- Argument parsing (`create_argv_parser`, `argparse`) is not modelled. The parsed options are the input `Options(json, progressImages, outdir)`.
- Resolving the log and intermediates directories relative to the script (`os.path.dirname(__file__)`, `..`) is not modelled. Only the reported paths, built from `outdir`, are modelled.
- Reading the file is an input. The log is the sequence of lines `readline` returns before the empty string that ends the loop (scripts/search_log.py:45-47). `None` stands for a log that cannot be opened.
- The model does not restrict `lines` to what `readline` can return: non-empty strings, with a `\n` only at the end, where only the last line may lack it. The scan accepts any strings. An empty element is treated as a line the record pattern rejects, whereas `readline` returns `""` only at the end of the file, where the loop stops. Lines of the readline form behave as in the script.
- Python's regular-expression engine for the user's pattern is left out. The compiled pattern is the input `Option<string -> bool>`: its search on a prompt, or `None` when it does not compile. Only the two fixed patterns are modelled, character by character.
- Printing is left out. `json.dumps` formatting and indentation are not modelled, and output is the outcome's list of echoed lines or records. In `Run`, a crash leaves the text lines printed before it in the outcome.
- The order of dict keys in the JSON output is left out. A record is an unordered `map`, so insertion order is not modelled, but the value behind each key is.
- The directory read by `glob` is an input. `listing` holds the intermediates directory's entry names, without `/`, in enumeration order. Glob metacharacters (`*`, `?`, `[`) are not interpreted: not in the image stem, and not in the output directory, which is part of the globbed path `progress_dir` (scripts/search_log.py:76-77). Both are treated as literal characters.
- SearchLog.RecordOfLine: it gives `map[]` for a line that does not parse. Such a line is never kept, because the pass stops at it first, so the value is never used.
- Exception types and messages are not modelled. Each error is one `Outcome` constructor.
