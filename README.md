# xcel-1 decoding engine: a Dafny model of its sequential core

The `xcel-1` engine adapter (`api_collection/engines/xcel1_decode.py`) runs a
speech decoder in a container. The container reads audio chunks from a shared
directory and appends one line per decoded segment to an *output index* file:
`artifact duration offset`, ending with a line whose first field is
`__done__`. The adapter follows that file. For each segment line it opens the
segment's JSON transcript and streams its words to the caller, with each
word's start moved onto the recording's time line.

This project models the deterministic logic inside that glue, and proves
properties of it:

- **Engine-argument schema** (`ArgsSchema`). The `alpha`/`beta` pattern
  `^([0-4](\.\d+)?|5(\.0+)?)$` is a predicate on characters, stated twice.
  As written (`$` also matches before a final newline), it accepts the
  numerals with one digit before the point whose value is at most 5, each
  alone or followed by one newline. As evidently intended (the whole string is
  a numeral), it accepts exactly those numerals, and every string it accepts
  is read by `float()` as a value in [0, 5]. What reaches the engine is
  `engine_args.get(key, '')`.
- **Paths** (`Paths`). A path is a list of components with an absolute flag.
  The module covers `os.path.join`, `relpath` for a path under a directory,
  and `dirname`. It also covers the rebasing of the two index paths from the
  adapter's mount of the shared directory to the container's mount (the
  mounts are called `SHARED_DIR` and `DECODER_SHARED_DIR`). Rebasing keeps the
  relative part, and rebasing back gives the original path.
- **Output-index reading** (`Text`, `Decimal`, `OutputIndex`).
  - Each line is stripped and split on whitespace (Python's `str.strip`/`str.split`).
    Stripping first is proved to change nothing.
  - A line must have exactly three fields, or it is an error. This holds even
    for the sentinel line.
  - `__done__` ends the stream. Any other line becomes a record, and `float()`
    must accept its last two fields.
  - `DecodeAudio` is the loop. It is proved equal to the function `Scan`.
    `Scan` is characterised line by line, and lines appended after the stream
    stopped are proved to change nothing.
- **Transcript mapping** (`Transcript`). `read_transcript` yields one item per
  `extended_output` entry, in entry order, with `stime = offset + start_time`.
  A `null` document, or one without that key, yields nothing. A file that
  cannot be read is an error.
- **Composition** (`Pipeline`). `xcel1_decode` interleaves the two generators.
  This is proved equal to reading the whole index first and then
  concatenating each record's transcript in record order. A one-word example
  is proved from the raw text of the output index to the items the caller receives.

The live tail of the output index is replaced by the finite list of lines
written so far. A list that ends before the sentinel ends the stream as
`AwaitingLines`: the real reader would block there until the timeout wrapper
raises. The transcript files are a map from path to parsed document. A path
missing from the map is a file that cannot be opened or decoded (an empty
file is one, since `json.load` rejects it). The shared-directory prefixes, the
scratch directory and the file contents are parameters. The model does not
read them from configuration.

Two places where the code behaves in a way one might not expect; the model
follows the code:

- The sentinel line must still split into three fields. The code unpacks the
  fields before it compares the first one with `__done__`, so a bare
  `__done__` line is an error.
- An unreadable transcript fails with whatever `open`/`json.load` raise; the
  source has no error type of its own for it. The model records the failure
  as `Unreadable(path)`.

## Model

| member | source | states |
|---|---|---|
| ArgsSchema.PatternLanguage | api_collection/engines/xcel1_decode.py:21-28 | the alpha/beta pattern, matched against the whole string, accepts exactly the strings with one digit, then optionally `.` and one or more digits, whose value is at most 5 (so `0`–`4` with any fraction, or `5` with only zeros after the point) |
| ArgsSchema.PatternRange | api_collection/engines/xcel1_decode.py:23 | every string the pattern accepts is read by `float()` as a number, and that number lies in [0, 5] |
| ArgsSchema.PatternAsWrittenAcceptsNewline | api_collection/engines/xcel1_decode.py:23 | under `re.search` semantics (`$` also matches before a final newline), the pattern as written accepts `"5\n"`, which the intended pattern refuses and which is not a numeral |
| ArgsSchema.PatternAsWrittenLanguage | api_collection/engines/xcel1_decode.py:23 | the pattern as written accepts exactly the one-digit numerals of value at most 5, each either alone or followed by one newline |
| ArgsSchema.ArgsAsWrittenLetThrough | api_collection/engines/xcel1_decode.py:18-30 | the schema as written passes an argument object exactly when each of `alpha`/`beta` it holds is such a numeral, alone or followed by one newline; it passes every object the intended schema passes, and also `{"alpha": "5\n"}`, which the intended schema refuses |
| ArgsSchema.EngineArgsInRange | api_collection/engines/xcel1_decode.py:18-30 | the intended schema (whole-string match), not the one as written: an argument object passes it exactly when each of `alpha`/`beta` it holds is a one-digit numeral of value at most 5; then what the engine receives for each is empty or a number in [0, 5] |
| Paths.FromStringOfToString | api_collection/engines/xcel1_decode.py:76 | a path whose components are non-empty and hold no `/`, written as a string the way `os.path.join` writes it, reads back as the same path |
| Paths.FromStringParts | api_collection/engines/xcel1_decode.py:76 | the components of a path string are non-empty and hold no `/` |
| Paths.Join | api_collection/engines/xcel1_decode.py:38-43 | `os.path.join`, characterised by `RelPath` and `Dirname`, whose ensures state that joining their results back gives the original path, and by `Rebase`, `RebaseLeaf` and `DirnameOfLeaf` |
| Paths.RelPath | api_collection/engines/xcel1_decode.py:40 | `relpath` of a path under a directory is relative, and joining it back onto the directory gives the path |
| Paths.Dirname | api_collection/engines/xcel1_decode.py:70 | `dirname` drops the last component: joining that component back gives the path |
| Paths.Rebase | api_collection/engines/xcel1_decode.py:38-43 | the rebased index path lies under the container's shared directory, followed by the same components that followed the adapter's shared directory |
| Paths.RebaseInverse | api_collection/engines/xcel1_decode.py:38-43 | rebasing from the container's view back to the adapter's gives the original path |
| Paths.RebaseLeaf | api_collection/engines/xcel1_decode.py:38-43 | an index file inside a scratch directory under the shared directory is rebased to the same file name inside the rebased scratch directory |
| Paths.DirnameOfLeaf | api_collection/engines/xcel1_decode.py:70 | the output directory of `workdir/outputindex.txt` is `workdir` |
| Text.FieldsSolid | api_collection/engines/xcel1_decode.py:72 | `split()` yields non-empty fields that contain no whitespace |
| Text.FieldsAtSeparator | api_collection/engines/xcel1_decode.py:72 | splitting at a whitespace character gives the fields on its left followed by those on its right |
| Text.FieldsOfSolid | api_collection/engines/xcel1_decode.py:72 | a non-empty string without whitespace is one field |
| Text.FieldsConsWord | api_collection/engines/xcel1_decode.py:72 | a word followed by whitespace contributes exactly that word before the remaining fields |
| Text.ThreeFields | api_collection/engines/xcel1_decode.py:72 | three words, each followed by a separator, split into exactly those three words |
| Text.StripThenSplit | api_collection/engines/xcel1_decode.py:72 | `line.strip().split()` equals `line.split()` for every line |
| Decimal.ParseDecimal | api_collection/engines/xcel1_decode.py:77 | `float()` on a plain decimal numeral, characterised by `ParseUnitNumeral` and `PatternRange` |
| Decimal.ParseUnitNumeral | api_collection/engines/xcel1_decode.py:77 | `float()` reads a one-digit numeral such as `1.0` as the value its digits denote |
| OutputIndex.ParseLine | api_collection/engines/xcel1_decode.py:72-77 | one pass of the loop body, characterised by `ParseLineShape` |
| OutputIndex.LineOfThreeWords | api_collection/engines/xcel1_decode.py:72 | a line of three printable words, separated by spaces and ended by a newline, has those three words as its fields |
| OutputIndex.RecordFields | api_collection/engines/xcel1_decode.py:72-77 | three fields, the first not `__done__` and the last two read by `float()`, give the record of the joined path and the two values |
| OutputIndex.ParseLineShape | api_collection/engines/xcel1_decode.py:72-77 | a line with other than three fields is an error, even a `__done__` line; three fields starting with `__done__` are the sentinel; any other three fields give a record exactly when the last two are numerals; the record's path is the output directory joined with the first field, and its duration and offset are the values of the second and third |
| OutputIndex.ScanCharacterized | api_collection/engines/xcel1_decode.py:71-77 | the k records emitted are those of the first k lines, in line order; line k, if there is one, yields no record and decides how the scan stopped (sentinel or that line's error); the scan runs out of lines exactly when every line gave a record |
| OutputIndex.SentinelStops | api_collection/engines/xcel1_decode.py:73-74 | when line k is the first that is not a record and it is the sentinel, exactly k records are emitted, one per earlier line in order, and the scan stops at the sentinel |
| OutputIndex.ScanIgnoresLaterLines | api_collection/engines/xcel1_decode.py:73-74 | after the sentinel or a bad line, lines appended later yield nothing and change nothing |
| OutputIndex.ScanContinues | api_collection/engines/xcel1_decode.py:71 | when the scan ran out of lines, the lines appended later are read on from where it stopped, both orders of reading giving the same records |
| OutputIndex.ScanWith | api_collection/engines/xcel1_decode.py:71-77 | the loop, for any loop body applied to each line: it emits the records of the leading lines that yield one, in order, and stops at the first line that does not (sentinel or error) or when the lines run out |
| OutputIndex.DecodeAudio | api_collection/engines/xcel1_decode.py:70-77 | the loop emits exactly the records `Scan` gives for the lines, with the output directory taken as the output index's directory, and stops as `Scan` does |
| Transcript.ItemsPointwise | api_collection/engines/xcel1_decode.py:90-96 | exactly one item per entry, in entry order: `stime` is offset plus `start_time`; duration, content (from `word`) and confidence are copied |
| Transcript.TranscriptOf | api_collection/engines/xcel1_decode.py:86-96 | what `read_transcript` yields, characterised by `TranscriptShape` and `ItemsPointwise` |
| Transcript.TranscriptShape | api_collection/engines/xcel1_decode.py:86-96 | reading fails exactly when the file cannot be read; a missing or empty payload gives zero items, not an error; otherwise the item count equals the entry count |
| Transcript.ReadTranscript | api_collection/engines/xcel1_decode.py:86-96 | the loop yields exactly `TranscriptOf`: the shifted entries in order, or the error for an unreadable file |
| Pipeline.Stream | api_collection/engines/xcel1_decode.py:105-112 | the two generators interleaved; `StreamIsFlatten` proves it equal to `FlattenRecords` of the scanned records |
| Pipeline.StreamIsFlatten | api_collection/engines/xcel1_decode.py:105-112 | running the two generators interleaved equals scanning the whole index first and then expanding the records in order, stopping at the first unreadable transcript |
| Pipeline.FlattenReadable | api_collection/engines/xcel1_decode.py:111-112 | when every transcript is readable, the output is the concatenation of the records' transcripts in record order, and the stream ends as the records did |
| Pipeline.FlattenUnreadable | api_collection/engines/xcel1_decode.py:111-112 | when transcript j is the first unreadable one, the caller has received the transcripts of records 0..j-1, and the stream fails on record j's path |
| Pipeline.DecodeFlattens | api_collection/engines/xcel1_decode.py:111-112 | the output is the concatenation, over the output-index records in order, of each record's transcript items, with no reordering across records |
| Pipeline.DecodeIgnoresLaterLines | api_collection/engines/xcel1_decode.py:71-74 | once the stream has completed or failed, lines appended to the index later change nothing |
| Pipeline.DecodeContinues | api_collection/engines/xcel1_decode.py:111-112 | while the stream awaits lines, the items of lines appended later follow those already yielded |
| Pipeline.StreamOfOneSegment | api_collection/engines/xcel1_decode.py:111-112 | one readable segment and then the sentinel yield that segment's items, and the stream completes |
| Pipeline.DecodeByRecords | api_collection/engines/xcel1_decode.py:104-112 | with the output index at `workdir/outputindex.txt`, whatever record scan `decode_audio` produces for it, expanding those records one after another gives what the caller receives |
| Pipeline.ExpandRecords | api_collection/engines/xcel1_decode.py:111-112 | the `for`/`yield from` loop yields the records' transcripts, in record order, up to the first unreadable one, and then it fails on that one's path or ends as the records did |
| Pipeline.Xcel1Decode | api_collection/engines/xcel1_decode.py:100-112 | the composed loop (output index `workdir/outputindex.txt`, then `read_transcript` per record) yields exactly `Decode`'s items and ends as `Decode` does |
| Pipeline.SegmentLineExample | api_collection/engines/xcel1_decode.py:72-77 | the line `out1.json 1.0 0.0` gives the record of `workdir/out1.json` with duration 1.0 and offset 0.0 |
| Pipeline.SentinelLineExample | api_collection/engines/xcel1_decode.py:72-74 | the line `__done__ 0 0` is the sentinel |
| Pipeline.OneWordDecodeExample | api_collection/engines/xcel1_decode.py:70-112 | the output index `out1.json 1.0 0.0` then `__done__ 0 0`, with `workdir/out1.json` holding one word (start 0.2, duration 0.3, `hi`, confidence 0.9), gives the caller exactly that word with `stime` 0.2, and the stream completes |
| Pipeline.OneWordExample | api_collection/engines/xcel1_decode.py:90-96 | a record for `workdir/out1.json` (duration 1.0, offset 0.0), whose transcript holds one word (start 0.2, duration 0.3, `hi`, confidence 0.9), followed by the sentinel, yields exactly that word with `stime` 0.2, and the stream completes |

## Left out

- Container launch and teardown (lines 44-69 and 78-83): the image, the environment and volume maps, the `nvidia` runtime, `detach`/`remove`, and `container.kill()` with its `APIError` swallow. These are calls into the Docker client with no logic to state.
- Flask configuration (lines 36-37, 48-69, 101): the shared-directory prefixes and the scratch directory are explicit parameters.
- The writer thread and `wavutils.save_chunks` (lines 107-110), which produce the input index: this is concurrency, and `wavutils` is not part of this model. The input-index path is only rebased.
- `follow_file` and `iter_with_timeout` (lines 13-14, 71, 99): they are blocking I/O and wall-clock timeouts, and neither is part of this model. The lines are a finite sequence, and running out of them ends the stream as `AwaitingLines` rather than blocking or raising `TimeoutError`.
- File-system effects (lines 35, 87-88, 102): `TemporaryDirectory` creation and removal, `Path.touch`, opening files and JSON decoding. Transcripts are a map from path to parsed document.
- Decimal.ParseDecimal: reads only plain decimal numerals (sign, digits, point, digits). Python's `float()` also accepts exponents, `inf`/`nan`, underscores between digits, surrounding whitespace and non-ASCII digits, so a duration such as `1e-3` is a record in the source but `NotAFloat` in the model.
- Decimal.ParseDecimal: values are exact reals. IEEE rounding in `float()` and in `offset + start_time` is not modelled.
- ArgsSchema.MatchesGroup: `\d` is the ASCII digits. Python 3's `\d` also matches every other Unicode decimal digit (for example U+0660..U+0669), and such strings pass the source's schema.
- ArgsSchema.ArgsValid: the schema's `'type': 'object'` and `'type': 'string'` checks are not modelled. The arguments are a map from strings to strings, so a non-object or non-string value cannot be represented.
- Paths.RelPath: defined only for a path under the directory, with both absolute or both relative. Python returns `..` components for a path outside the directory. It first makes a relative argument absolute against the working directory, so it also accepts a relative `SHARED_DIR` with an absolute index path, a case `Under` excludes. It then normalises `.` and `..` as text (`abspath`/`normpath`; symbolic links are not resolved). None of this is modelled.
- Paths.FromString: repeated and trailing `/` collapse. Repeated `/` name the same file when it is opened, but a trailing `/` does not: opening `workdir/out1.json/` fails with `NotADirectoryError`, and the model reads the transcript of `workdir/out1.json` instead. That error is not captured. `.` and `..` components are kept as well: `workdir/./out1.json`, `workdir/sub/../out1.json` and `workdir/out1.json` are different keys of the transcript map, although opening any of them reads the same file.
- Transcript.Document: only `null` and objects are modelled. Other top-level JSON values are not, and the source treats them as follows:
  - `false`, `0`, `""` and `[]` give zero words (`if data` fails, line 89);
  - `true` or a non-zero number raises `TypeError` at `'extended_output' in data` (line 89);
  - a non-empty string or list gives zero words unless it contains `extended_output`: as a substring of the string, or as an element of the list. In that case `data['extended_output']` raises `TypeError`. An entry missing any of the four keys raises `KeyError` in the source. Only `start_time` takes part in arithmetic (`offset + word['start_time']`, line 92). A `start_time` that is a string, `null`, a list or an object raises `TypeError` there, and a boolean is added as 0 or 1. The source copies `duration`, `word` and `confidence` unchanged whatever their JSON type, so `{"start_time": 0.2, "duration": "x", "word": 7, "confidence": null}` yields an item there, and the typed `Word` cannot represent it. An `extended_output` that is not iterable (`null`, a number, a boolean) makes the source raise `TypeError`. One that iterates to items that are not objects (a non-empty string, or an object's keys) raises `TypeError` as well. `""` and `{}` give zero words. `Option<seq<Word>>` expresses none of these cases.

## Findings

| source | as written | input that shows it | evidently intended | confidence | as-written member | corrected member |
|---|---|---|---|---|---|---|
| api_collection/engines/xcel1_decode.py:23 | the pattern ends in `$`, and a schema `pattern` is applied with `re.search`, where `$` also matches just before a final newline | `alpha` = `"5\n"` passes the schema and reaches the engine as `ALPHA`; `float()` would still read it as 5.0, since it strips whitespace | the whole string is a numeral in [0, 5] (`\Z` instead of `$`, or a full match) | medium: assumes the usual JSON-schema validator for Python, which applies `re.search`; not executed | ArgsSchema.PatternAsWrittenAcceptsNewline | ArgsSchema.PatternRange |
