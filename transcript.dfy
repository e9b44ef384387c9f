/**
 * `read_transcript`: the words of one decoded segment, moved from the
 * segment's own time line to the recording's by adding the segment offset.
 * The transcript files are given as already-parsed documents keyed by path;
 * a path with no document is a file that cannot be opened or parsed.
 */
module Transcript {
  import opened Wrappers
  import opened Paths

  /** One entry of the `extended_output` list. */
  datatype Word = Word(startTime: real, duration: real, word: string, confidence: real)

  /** A parsed transcript file: JSON `null`, or an object that may or may not
      carry an `extended_output` list (its other keys play no part). */
  datatype Document = Null | Object(extendedOutput: Option<seq<Word>>)

  /** One word of the output stream. */
  datatype Item = Item(stime: real, duration: real, content: string, confidence: real)

  /** The entries the loop walks: none unless the document is a non-empty
      object holding `extended_output`. */
  function Entries(doc: Document): seq<Word>
  {
    if doc.Object? && doc.extendedOutput.Some? then doc.extendedOutput.value else []
  }

  /** The item yielded for one entry. */
  function Shift(w: Word, offset: real): Item
  {
    Item(offset + w.startTime, w.duration, w.word, w.confidence)
  }

  /** The items yielded for a list of entries, front to back. */
  function Items(ws: seq<Word>, offset: real): seq<Item>
  {
    if ws == [] then [] else [Shift(ws[0], offset)] + Items(ws[1..], offset)
  }

  /** One item per entry, in entry order: its start is the entry's start plus
      the offset, and its duration, content and confidence are the entry's. */
  lemma {:induction false} ItemsPointwise(ws: seq<Word>, offset: real)
    ensures |Items(ws, offset)| == |ws|
    ensures forall i :: 0 <= i < |ws| ==>
      Items(ws, offset)[i] == Item(offset + ws[i].startTime, ws[i].duration, ws[i].word, ws[i].confidence)
  {
    if ws != [] {
      ItemsPointwise(ws[1..], offset);
      forall i | 0 < i < |ws|
        ensures Items(ws, offset)[i] == Shift(ws[i], offset)
      {
        assert ws[1..][i - 1] == ws[i];
      }
    }
  }

  /** What `read_transcript(path, duration, offset)` yields, or the path it could not read. */
  function TranscriptOf(files: map<Path, Document>, path: Path, offset: real): Result<seq<Item>, Path>
  {
    if path in files then Ok(Items(Entries(files[path]), offset)) else Err(path)
  }

  /** A missing or empty document, or one without `extended_output`, yields no
      words and is not an error; otherwise there is one item per entry. */
  lemma TranscriptShape(files: map<Path, Document>, path: Path, offset: real)
    ensures path !in files <==> TranscriptOf(files, path, offset).Err?
    ensures path in files && (files[path].Null? || files[path].extendedOutput.None?) ==>
      TranscriptOf(files, path, offset) == Ok([])
    ensures path in files && files[path].Object? && files[path].extendedOutput.Some? ==>
      |TranscriptOf(files, path, offset).value| == |files[path].extendedOutput.value|
  {
    if path in files {
      ItemsPointwise(Entries(files[path]), offset);
    }
  }

  /** `read_transcript`: open the file and yield one item per entry. The
      `duration` argument is accepted and not used, as in the source. */
  method ReadTranscript(files: map<Path, Document>, path: Path, duration: real, offset: real)
    returns (r: Result<seq<Item>, Path>)
    ensures r == TranscriptOf(files, path, offset)
  {
    if path !in files {
      return Err(path);
    }
    var ws := Entries(files[path]);
    var items: seq<Item> := [];
    for i := 0 to |ws|
      invariant |items| == i
      invariant forall j :: 0 <= j < i ==> items[j] == Shift(ws[j], offset)
    {
      items := items + [Shift(ws[i], offset)];
    }
    ItemsPointwise(ws, offset);
    assert items == Items(ws, offset);
    return Ok(items);
  }
}
