/**
 * The output index the decoder container appends to: one line per decoded
 * segment, `artifact duration offset`, ended by a line whose first field is
 * `__done__`. `decode_audio` reads it line by line and yields one record per
 * segment. The live, blocking tail of the file is replaced here by the
 * finite sequence of lines seen so far.
 */
module OutputIndex {
  import opened Wrappers
  import Text
  import Decimal
  import opened Paths
  import Seqs

  const SentinelName: string := "__done__"

  /** A decoded segment: its transcript file in the caller's view, and its timing. */
  datatype Record = Record(path: Path, duration: real, offset: real)

  /** Why a line is rejected: `outfile, duration, offset = ...` unpacks the
      wrong number of fields, or `float()` refuses a field. */
  datatype LineFault = FieldCount(count: nat) | NotAFloat(token: string)

  datatype LineResult = Emit(record: Record) | Done | Malformed(fault: LineFault)

  /** How the scan of the lines ended: at the sentinel, by running out of
      lines (the live reader would go on waiting), or at a bad line. */
  datatype IndexStop = Sentinel | EndOfLines | LineError(fault: LineFault)

  /** The records yielded, in order, and how the scan ended. */
  datatype IndexScan = IndexScan(records: seq<Record>, stop: IndexStop)

  /** `line.strip().split()`. */
  function LineFields(line: string): seq<string>
  {
    Text.Fields(Text.Strip(line, Text.Whitespace), Text.Whitespace)
  }

  /** The loop body on the fields of one line. */
  function ParseFields(f: seq<string>, outdir: Path): LineResult
  {
    if |f| != 3 then Malformed(FieldCount(|f|))
    else if f[0] == SentinelName then Done
    else match Decimal.ParseDecimal(f[1])
      case None => Malformed(NotAFloat(f[1]))
      case Some(duration) =>
        match Decimal.ParseDecimal(f[2])
        case None => Malformed(NotAFloat(f[2]))
        case Some(offset) => Emit(Record(Join(outdir, FromString(f[0])), duration, offset))
  }

  /** One iteration of the loop body. */
  function ParseLine(line: string, outdir: Path): LineResult
  {
    ParseFields(LineFields(line), outdir)
  }

  /** The shape of a line, read on its whitespace-separated fields: anything
      but three fields is an error, even a `__done__` line; three fields
      starting with `__done__` end the stream; any other three fields yield
      a record exactly when the last two are numerals, and the record holds
      the first as a path under the output directory and the last two as
      duration and offset. */
  predicate LineShape(f: seq<string>, outdir: Path, r: LineResult)
  {
    && (r.Malformed? && r.fault.FieldCount? <==> |f| != 3)
    && (r.Done? <==> |f| == 3 && f[0] == SentinelName)
    && (r.Emit? <==>
          |f| == 3 && f[0] != SentinelName &&
          Decimal.ParseDecimal(f[1]).Some? && Decimal.ParseDecimal(f[2]).Some?)
    && (r.Emit? ==>
          r.record == Record(Join(outdir, FromString(f[0])),
                             Decimal.ParseDecimal(f[1]).value,
                             Decimal.ParseDecimal(f[2]).value))
  }

  lemma ParseFieldsShape(f: seq<string>, outdir: Path)
    ensures LineShape(f, outdir, ParseFields(f, outdir))
  {
  }

  /** A line has that shape on its fields; stripping it first changes nothing. */
  lemma ParseLineShape(line: string, outdir: Path)
    ensures LineShape(Text.Fields(line, Text.Whitespace), outdir, ParseLine(line, outdir))
  {
    var f := Text.Fields(line, Text.Whitespace);
    Text.StripThenSplit(line, Text.Whitespace);
    ParseFieldsShape(f, outdir);
  }

  /** How a line that yields no record ends the scan. */
  function StopAt(r: LineResult): IndexStop
    requires !r.Emit?
  {
    if r.Done? then Sentinel else LineError(r.fault)
  }

  /** The loop body, as a function of the line. */
  function LineParser(outdir: Path): string -> LineResult
  {
    line => ParseLine(line, outdir)
  }

  /** Each line's result, in line order. */
  function ParseAll(lines: seq<string>, outdir: Path): seq<LineResult>
  {
    Seqs.Map(LineParser(outdir), lines)
  }

  /** A line of three printable words, separated by spaces and ended by a
      newline, has those three words as its fields. */
  lemma LineOfThreeWords(line: string, a: string, b: string, c: string)
    requires line == a + [' '] + (b + [' '] + (c + ['\n']))
    requires |a| > 0 && |b| > 0 && |c| > 0
    requires forall i :: 0 <= i < |a| ==> '!' <= a[i] <= '~'
    requires forall i :: 0 <= i < |b| ==> '!' <= b[i] <= '~'
    requires forall i :: 0 <= i < |c| ==> '!' <= c[i] <= '~'
    ensures LineFields(line) == [a, b, c]
  {
    Text.VisibleIsSolid(a);
    Text.VisibleIsSolid(b);
    Text.VisibleIsSolid(c);
    Text.ThreeFields(a, ' ', b, ' ', c, '\n', Text.Whitespace);
    Text.StripThenSplit(line, Text.Whitespace);
  }

  /** Three fields, the first not the sentinel and the last two numerals, give a record. */
  lemma RecordFields(f: seq<string>, outdir: Path, duration: real, offset: real)
    requires |f| == 3 && f[0] != SentinelName
    requires Decimal.ParseDecimal(f[1]) == Some(duration) && Decimal.ParseDecimal(f[2]) == Some(offset)
    ensures ParseFields(f, outdir) == Emit(Record(Join(outdir, FromString(f[0])), duration, offset))
  {
  }

  /** Two lines give their two results, in order. */
  lemma ParseAllOfTwo(lines: seq<string>, outdir: Path, r0: LineResult, r1: LineResult)
    requires |lines| == 2 && ParseLine(lines[0], outdir) == r0 && ParseLine(lines[1], outdir) == r1
    ensures ParseAll(lines, outdir) == [r0, r1]
  {
  }

  /** What the loop yields from the line results, read front to back. */
  function ScanResults(rs: seq<LineResult>): (s: IndexScan)
    ensures |s.records| <= |rs|
  {
    if rs == [] then IndexScan([], EndOfLines)
    else if !rs[0].Emit? then IndexScan([], StopAt(rs[0]))
    else
      var rest := ScanResults(rs[1..]);
      IndexScan([rs[0].record] + rest.records, rest.stop)
  }

  /** What the loop yields from `lines`. */
  function Scan(lines: seq<string>, outdir: Path): IndexScan
  {
    ScanResults(ParseAll(lines, outdir))
  }

  function PrependRecords(rs: seq<Record>, s: IndexScan): IndexScan
  {
    IndexScan(rs + s.records, s.stop)
  }

  /** The scan, characterised result by result: the records are those of the
      leading lines that each yield one, in order; the first line that does
      not decides the stop; and the scan runs out of lines only if there
      is no such line. */
  lemma {:induction false} ScanResultsCharacterized(rs: seq<LineResult>)
    ensures var s := ScanResults(rs); var k := |s.records|;
      && (forall j :: 0 <= j < k ==> rs[j] == Emit(s.records[j]))
      && (s.stop == EndOfLines <==> k == |rs|)
      && (k < |rs| ==> !rs[k].Emit? && s.stop == StopAt(rs[k]))
  {
    if rs != [] && rs[0].Emit? {
      ScanResultsCharacterized(rs[1..]);
      var s := ScanResults(rs);
      forall j | 0 <= j < |s.records|
        ensures rs[j] == Emit(s.records[j])
      {
        if j > 0 { assert rs[j] == rs[1..][j - 1]; }
      }
    }
  }

  /** The same, on the lines themselves. */
  lemma ScanCharacterized(lines: seq<string>, outdir: Path)
    ensures var s := Scan(lines, outdir); var k := |s.records|;
      && (forall j :: 0 <= j < k ==> ParseLine(lines[j], outdir) == Emit(s.records[j]))
      && (s.stop == EndOfLines <==> k == |lines|)
      && (k < |lines| ==> !ParseLine(lines[k], outdir).Emit? && s.stop == StopAt(ParseLine(lines[k], outdir)))
  {
    var rs := ParseAll(lines, outdir);
    ScanResultsCharacterized(rs);
  }

  /** The sentinel ends the stream: when line `k` is the sentinel and every
      earlier line yields a record, the scan yields exactly those `k`
      records, in line order, and stops there. */
  lemma SentinelStops(lines: seq<string>, outdir: Path, k: nat)
    requires k < |lines| && ParseLine(lines[k], outdir).Done?
    requires forall j :: 0 <= j < k ==> ParseLine(lines[j], outdir).Emit?
    ensures Scan(lines, outdir).stop == Sentinel
    ensures |Scan(lines, outdir).records| == k
    ensures forall j :: 0 <= j < k ==> Scan(lines, outdir).records[j] == ParseLine(lines[j], outdir).record
  {
    var rs := ParseAll(lines, outdir);
    assert forall j :: 0 <= j < |lines| ==> rs[j] == ParseLine(lines[j], outdir);
    ResultsSentinelStops(rs, k);
  }

  /** The same, on the line results. */
  lemma ResultsSentinelStops(rs: seq<LineResult>, k: nat)
    requires k < |rs| && rs[k].Done?
    requires forall j :: 0 <= j < k ==> rs[j].Emit?
    ensures ScanResults(rs).stop == Sentinel
    ensures |ScanResults(rs).records| == k
    ensures forall j :: 0 <= j < k ==> ScanResults(rs).records[j] == rs[j].record
  {
    ScanResultsCharacterized(rs);
    var n := |ScanResults(rs).records|;
    if n < k {
      assert false;
    } else if n > k {
      assert false;
    }
  }

  lemma {:induction false} ScanResultsIgnoresLater(p: seq<LineResult>, more: seq<LineResult>)
    requires ScanResults(p).stop != EndOfLines
    ensures ScanResults(p + more) == ScanResults(p)
  {
    assert (p + more)[0] == p[0];
    if p[0].Emit? {
      assert (p + more)[1..] == p[1..] + more;
      ScanResultsIgnoresLater(p[1..], more);
    }
  }

  lemma {:induction false} ScanResultsContinues(p: seq<LineResult>, more: seq<LineResult>)
    requires ScanResults(p).stop == EndOfLines
    ensures ScanResults(p + more) == PrependRecords(ScanResults(p).records, ScanResults(more))
  {
    if p == [] {
      assert p + more == more;
    } else {
      assert (p + more)[0] == p[0];
      assert (p + more)[1..] == p[1..] + more;
      ScanResultsContinues(p[1..], more);
    }
  }

  lemma ParseAllAppend(p: seq<string>, more: seq<string>, outdir: Path)
    ensures ParseAll(p + more, outdir) == ParseAll(p, outdir) + ParseAll(more, outdir)
  {
    Seqs.MapAppend(LineParser(outdir), p, more);
  }

  /** Once the scan has stopped (sentinel or bad line), lines appended later change nothing. */
  lemma ScanIgnoresLaterLines(p: seq<string>, more: seq<string>, outdir: Path)
    requires Scan(p, outdir).stop != EndOfLines
    ensures Scan(p + more, outdir) == Scan(p, outdir)
  {
    ParseAllAppend(p, more, outdir);
    ScanResultsIgnoresLater(ParseAll(p, outdir), ParseAll(more, outdir));
  }

  /** Lines appended while the scan is still waiting are read on from where it was. */
  lemma ScanContinues(p: seq<string>, more: seq<string>, outdir: Path)
    requires Scan(p, outdir).stop == EndOfLines
    ensures Scan(p + more, outdir) == PrependRecords(Scan(p, outdir).records, Scan(more, outdir))
  {
    ParseAllAppend(p, more, outdir);
    ScanResultsContinues(ParseAll(p, outdir), ParseAll(more, outdir));
  }

  /** One step of the scan at position `i`. */
  lemma ScanStep(rs: seq<LineResult>, i: nat)
    requires i < |rs|
    ensures ScanResults(rs[i..]) ==
      if !rs[i].Emit? then IndexScan([], StopAt(rs[i]))
      else PrependRecords([rs[i].record], ScanResults(rs[i + 1..]))
  {
  }

  /** The loop of `decode_audio`, given the loop body `parse`: the records
      of the leading lines that yield one, up to the first that does not. */
  method ScanWith(parse: string -> LineResult, lines: seq<string>)
    returns (records: seq<Record>, stop: IndexStop)
    ensures IndexScan(records, stop) == ScanResults(Seqs.Map(parse, lines))
  {
    ghost var rs := Seqs.Map(parse, lines);
    records := [];
    stop := EndOfLines;
    var i := 0;
    while i < |lines|
      invariant 0 <= i <= |lines|
      invariant ScanResults(rs) == PrependRecords(records, ScanResults(rs[i..]))
    {
      var r := parse(lines[i]);
      ScanStep(rs, i);
      if r.Malformed? {
        stop := LineError(r.fault);
        return;
      }
      if r.Done? {
        stop := Sentinel;
        break;
      }
      ghost var rest := ScanResults(rs[i + 1..]);
      assert records + ([r.record] + rest.records) == (records + [r.record]) + rest.records;
      records := records + [r.record];
      i := i + 1;
    }
    assert i == |lines| ==> rs[i..] == [];
  }

  /** `decode_audio`: the records of the segment lines of the output index,
      in order, up to the sentinel or the first bad line. The output
      directory is that of the output index file. */
  method DecodeAudio(outputIndex: Path, lines: seq<string>)
    returns (records: seq<Record>, stop: IndexStop)
    ensures IndexScan(records, stop) == Scan(lines, Dirname(outputIndex))
  {
    records, stop := ScanWith(LineParser(Dirname(outputIndex)), lines);
  }
}
