/**
 * `xcel1_decode`: the records of the output index, each expanded into the
 * items of its transcript, flattened into one stream in record order. A
 * scratch directory `workdir` holds the two index files and the
 * transcripts; the output index is `workdir/outputindex.txt`.
 */
module Pipeline {
  import opened Wrappers
  import opened Paths
  import opened OutputIndex
  import opened Transcript
  import Text
  import Decimal

  /** Why the stream failed: a bad output-index line, or a transcript file that
      could not be read. */
  datatype Fault = BadLine(fault: LineFault) | Unreadable(path: Path)

  /** How the stream ended. `AwaitingLines`: the lines ran out before the
      sentinel; the live reader would wait for more, and only the timeout
      wrapper would end it. */
  datatype RunEnd = Completed | AwaitingLines | Failed(fault: Fault)

  /** The items yielded to the caller (kept even when the stream then
      fails), and how the stream ended. */
  datatype Run = Run(items: seq<Item>, end: RunEnd)

  const OutputIndexName: string := "outputindex.txt"

  function EndOf(stop: IndexStop): RunEnd
  {
    match stop
    case Sentinel => Completed
    case EndOfLines => AwaitingLines
    case LineError(e) => Failed(BadLine(e))
  }

  function Prepend(items: seq<Item>, run: Run): Run
  {
    Run(items + run.items, run.end)
  }

  /** The generators as they run: take one line's result, read its transcript
      and yield its items, then take the next line. */
  function Stream(rs: seq<LineResult>, files: map<Path, Document>): Run
  {
    if rs == [] then Run([], AwaitingLines)
    else if !rs[0].Emit? then Run([], EndOf(StopAt(rs[0])))
    else
      var rec := rs[0].record;
      match TranscriptOf(files, rec.path, rec.offset)
      case Err(p) => Run([], Failed(Unreadable(p)))
      case Ok(items) => Prepend(items, Stream(rs[1..], files))
  }

  /** What the caller receives for the lines of the output index of `workdir`. */
  function Decode(lines: seq<string>, workdir: Path, files: map<Path, Document>): Run
  {
    Stream(ParseAll(lines, workdir), files)
  }

  /** The reference reading: the records first, then each one's transcript,
      stopping at the first that cannot be read; `tail` is how the records ended. */
  function FlattenRecords(recs: seq<Record>, files: map<Path, Document>, tail: RunEnd): Run
  {
    if recs == [] then Run([], tail)
    else match TranscriptOf(files, recs[0].path, recs[0].offset)
      case Err(p) => Run([], Failed(Unreadable(p)))
      case Ok(items) => Prepend(items, FlattenRecords(recs[1..], files, tail))
  }

  /** Running the two generators interleaved gives the same as scanning the
      index to its end first and then expanding the records in order. */
  lemma {:induction false} StreamIsFlatten(rs: seq<LineResult>, files: map<Path, Document>)
    ensures Stream(rs, files) ==
      FlattenRecords(ScanResults(rs).records, files, EndOf(ScanResults(rs).stop))
  {
    if rs != [] && rs[0].Emit? {
      StreamIsFlatten(rs[1..], files);
      var recs := ScanResults(rs).records;
      assert recs[0] == rs[0].record && recs[1..] == ScanResults(rs[1..]).records;
    }
  }

  function Concat(ss: seq<seq<Item>>): seq<Item>
  {
    if ss == [] then [] else ss[0] + Concat(ss[1..])
  }

  predicate AllReadable(recs: seq<Record>, files: map<Path, Document>)
  {
    forall i :: 0 <= i < |recs| ==> recs[i].path in files
  }

  /** Each record's transcript items, in record order. */
  function Transcripts(recs: seq<Record>, files: map<Path, Document>): seq<seq<Item>>
    requires AllReadable(recs, files)
  {
    seq(|recs|, i requires 0 <= i < |recs| => Items(Entries(files[recs[i].path]), recs[i].offset))
  }

  /** When every transcript can be read, the output is the concatenation of
      the records' transcripts, in record order, and ends as the records did. */
  lemma {:induction false} FlattenReadable(recs: seq<Record>, files: map<Path, Document>, tail: RunEnd)
    requires AllReadable(recs, files)
    ensures FlattenRecords(recs, files, tail) == Run(Concat(Transcripts(recs, files)), tail)
  {
    if recs != [] {
      assert AllReadable(recs[1..], files) by {
        forall i | 0 <= i < |recs| - 1 ensures recs[1..][i].path in files {
          assert recs[1..][i] == recs[i + 1];
        }
      }
      FlattenReadable(recs[1..], files, tail);
      assert Transcripts(recs, files)[1..] == Transcripts(recs[1..], files);
    }
  }

  /** When transcript `j` is the first that cannot be read, the output is the
      transcripts before it, and the stream fails on its path. */
  lemma {:induction false} FlattenUnreadable(recs: seq<Record>, files: map<Path, Document>, tail: RunEnd, j: nat)
    requires j < |recs| && recs[j].path !in files && AllReadable(recs[..j], files)
    ensures FlattenRecords(recs, files, tail) ==
      Run(Concat(Transcripts(recs[..j], files)), Failed(Unreadable(recs[j].path)))
  {
    if j > 0 {
      assert recs[1..][j - 1] == recs[j];
      assert recs[1..][..j - 1] == recs[..j][1..];
      var before := recs[1..][..j - 1];
      assert AllReadable(before, files) by {
        forall i | 0 <= i < j - 1 ensures before[i].path in files {
          assert before[i] == recs[..j][i + 1];
        }
      }
      FlattenUnreadable(recs[1..], files, tail, j - 1);
      assert Transcripts(recs[..j], files)[1..] == Transcripts(recs[1..][..j - 1], files);
      assert recs[..j][0] == recs[0];
    }
  }

  /** The output is the concatenation, over the records of the output index in
      order, of each record's transcript, and ends as the index did. */
  lemma DecodeFlattens(lines: seq<string>, workdir: Path, files: map<Path, Document>)
    requires AllReadable(Scan(lines, workdir).records, files)
    ensures Decode(lines, workdir, files) ==
      Run(Concat(Transcripts(Scan(lines, workdir).records, files)), EndOf(Scan(lines, workdir).stop))
  {
    StreamIsFlatten(ParseAll(lines, workdir), files);
    FlattenReadable(Scan(lines, workdir).records, files, EndOf(Scan(lines, workdir).stop));
  }

  lemma {:induction false} StreamIgnoresLater(p: seq<LineResult>, more: seq<LineResult>, files: map<Path, Document>)
    requires Stream(p, files).end != AwaitingLines
    ensures Stream(p + more, files) == Stream(p, files)
  {
    assert (p + more)[0] == p[0];
    if p[0].Emit? && TranscriptOf(files, p[0].record.path, p[0].record.offset).Ok? {
      assert (p + more)[1..] == p[1..] + more;
      StreamIgnoresLater(p[1..], more, files);
    }
  }

  lemma {:induction false} StreamContinues(p: seq<LineResult>, more: seq<LineResult>, files: map<Path, Document>)
    requires Stream(p, files).end == AwaitingLines
    ensures Stream(p + more, files) == Prepend(Stream(p, files).items, Stream(more, files))
  {
    if p == [] {
      assert p + more == more;
    } else {
      assert (p + more)[0] == p[0];
      assert (p + more)[1..] == p[1..] + more;
      StreamContinues(p[1..], more, files);
    }
  }

  /** Once the stream has ended (sentinel, bad line or unreadable transcript),
      lines appended to the index later change nothing. */
  lemma DecodeIgnoresLaterLines(p: seq<string>, more: seq<string>, workdir: Path, files: map<Path, Document>)
    requires Decode(p, workdir, files).end != AwaitingLines
    ensures Decode(p + more, workdir, files) == Decode(p, workdir, files)
  {
    ParseAllAppend(p, more, workdir);
    StreamIgnoresLater(ParseAll(p, workdir), ParseAll(more, workdir), files);
  }

  /** While the stream waits for lines, the items of lines appended later follow
      those already yielded: reading the index in pieces gives the same stream. */
  lemma DecodeContinues(p: seq<string>, more: seq<string>, workdir: Path, files: map<Path, Document>)
    requires Decode(p, workdir, files).end == AwaitingLines
    ensures Decode(p + more, workdir, files) ==
      Prepend(Decode(p, workdir, files).items, Decode(more, workdir, files))
  {
    ParseAllAppend(p, more, workdir);
    StreamContinues(ParseAll(p, workdir), ParseAll(more, workdir), files);
  }

  lemma FlattenStep(recs: seq<Record>, files: map<Path, Document>, tail: RunEnd, i: nat)
    requires i < |recs|
    ensures var t := TranscriptOf(files, recs[i].path, recs[i].offset);
      && (t.Err? ==> FlattenRecords(recs[i..], files, tail) == Run([], Failed(Unreadable(t.error))))
      && (t.Ok? ==> FlattenRecords(recs[i..], files, tail) ==
                    Prepend(t.value, FlattenRecords(recs[i + 1..], files, tail)))
  {
    assert recs[i..][0] == recs[i];
    assert recs[i..][1..] == recs[i + 1..];
  }

  /** The records `decode_audio` yields for the output index of `workdir`,
      expanded in order, are what the caller receives. */
  lemma DecodeByRecords(lines: seq<string>, workdir: Path, files: map<Path, Document>,
                        records: seq<Record>, stop: IndexStop)
    requires IndexScan(records, stop) == Scan(lines, Dirname(Join(workdir, Leaf(OutputIndexName))))
    ensures Decode(lines, workdir, files) == FlattenRecords(records, files, EndOf(stop))
  {
    DirnameOfLeaf(workdir, OutputIndexName);
    StreamIsFlatten(ParseAll(lines, workdir), files);
  }

  /** The loop of `xcel1_decode`: each record's transcript, read and yielded
      in record order, until one cannot be read. */
  method ExpandRecords(records: seq<Record>, files: map<Path, Document>, tail: RunEnd)
    returns (items: seq<Item>, end: RunEnd)
    ensures Run(items, end) == FlattenRecords(records, files, tail)
  {
    items := [];
    end := tail;
    var i := 0;
    while i < |records|
      invariant 0 <= i <= |records|
      invariant FlattenRecords(records, files, tail) == Prepend(items, FlattenRecords(records[i..], files, tail))
      invariant end == tail
    {
      FlattenStep(records, files, tail, i);
      var rec := records[i];
      var r := ReadTranscript(files, rec.path, rec.duration, rec.offset);
      if r.Err? {
        end := Failed(Unreadable(r.error));
        break;
      }
      ghost var rest := FlattenRecords(records[i + 1..], files, tail);
      assert items + (r.value + rest.items) == (items + r.value) + rest.items;
      items := items + r.value;
      i := i + 1;
    }
    assert i == |records| ==> records[i..] == [];
  }

  /** `xcel1_decode`: read the output index of `workdir` and yield, record by
      record, the items of each record's transcript. */
  method Xcel1Decode(workdir: Path, lines: seq<string>, files: map<Path, Document>)
    returns (items: seq<Item>, end: RunEnd)
    ensures Run(items, end) == Decode(lines, workdir, files)
  {
    var outputIndex := Join(workdir, Leaf(OutputIndexName));
    var records, stop := DecodeAudio(outputIndex, lines);
    var tail := EndOf(stop);
    DecodeByRecords(lines, workdir, files, records, stop);
    items, end := ExpandRecords(records, files, tail);
  }

  /** A stream of one segment, whose transcript is readable, then the sentinel. */
  lemma StreamOfOneSegment(rec: Record, files: map<Path, Document>)
    requires rec.path in files
    ensures Stream([Emit(rec), Done], files) ==
      Run(Items(Entries(files[rec.path]), rec.offset), Completed)
  {
  }

  /** The segment `out1.json` (duration 1.0, offset 0.0) whose transcript holds one
      word (start 0.2, duration 0.3, `hi`, confidence 0.9), then the sentinel: the
      caller receives that word with `stime` 0.2, and the stream completes. */
  lemma OneWordExample(workdir: Path)
    ensures var rec := Record(Join(workdir, Leaf("out1.json")), 1.0, 0.0);
      Stream([Emit(rec), Done], map[rec.path := Object(Some([Word(0.2, 0.3, "hi", 0.9)]))]) ==
      Run([Item(0.2, 0.3, "hi", 0.9)], Completed)
  {
    var rec := Record(Join(workdir, Leaf("out1.json")), 1.0, 0.0);
    StreamOfOneSegment(rec, map[rec.path := Object(Some([Word(0.2, 0.3, "hi", 0.9)]))]);
    ItemsPointwise([Word(0.2, 0.3, "hi", 0.9)], 0.0);
  }

  /** The segment line of the example: a record for `out1.json` under the
      output directory, with duration 1.0 and offset 0.0. */
  lemma SegmentLineExample(line: string, workdir: Path)
    requires line == "out1.json 1.0 0.0\n"
    ensures ParseLine(line, workdir) == Emit(Record(Join(workdir, Leaf("out1.json")), 1.0, 0.0))
  {
    var f := ["out1.json", "1.0", "0.0"];
    LineOfThreeWords(line, f[0], f[1], f[2]);
    DurationExample();
    OffsetExample();
    FileNameExample();
    RecordFields(f, workdir, 1.0, 0.0);
  }

  /** `float("1.0")`, the segment's duration. */
  lemma DurationExample()
    ensures Decimal.ParseDecimal("1.0") == Some(1.0)
  {
    Decimal.ParseUnitNumeral("1.0");
  }

  /** `float("0.0")`, the segment's offset. */
  lemma OffsetExample()
    ensures Decimal.ParseDecimal("0.0") == Some(0.0)
  {
    Decimal.ParseUnitNumeral("0.0");
  }

  /** The segment's file name is one relative component. */
  lemma FileNameExample()
    ensures FromString("out1.json") == Leaf("out1.json")
  {
    Text.FieldsOfSolid("out1.json", {'/'});
  }

  /** The sentinel line of the example ends the stream. */
  lemma SentinelLineExample(line: string, workdir: Path)
    requires line == "__done__ 0 0\n"
    ensures ParseLine(line, workdir) == Done
  {
    LineOfThreeWords(line, SentinelName, "0", "0");
  }

  /** The output index `out1.json 1.0 0.0` then `__done__ 0 0`, where
      `workdir/out1.json` holds one word (start 0.2, duration 0.3, `hi`,
      confidence 0.9): the caller receives that word with `stime` 0.2, and the
      stream completes. */
  lemma OneWordDecodeExample(workdir: Path)
    ensures Decode(["out1.json 1.0 0.0\n", "__done__ 0 0\n"], workdir,
                   map[Join(workdir, Leaf("out1.json")) := Object(Some([Word(0.2, 0.3, "hi", 0.9)]))]) ==
            Run([Item(0.2, 0.3, "hi", 0.9)], Completed)
  {
    var lines := ["out1.json 1.0 0.0\n", "__done__ 0 0\n"];
    var rec := Record(Join(workdir, Leaf("out1.json")), 1.0, 0.0);
    SegmentLineExample(lines[0], workdir);
    SentinelLineExample(lines[1], workdir);
    ParseAllOfTwo(lines, workdir, Emit(rec), Done);
    OneWordExample(workdir);
  }
}
