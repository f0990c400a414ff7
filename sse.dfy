/** `handleStreamingResponse`: reading a server-sent-event response body chunk by chunk,
    taking the `data: ` lines of each chunk, stopping a chunk at `[DONE]`, and
    accumulating the text each line contributes. The byte decoder and the JSON parser
    are outside the model: chunks arrive as text, and the parser is an input. */
module ServerSentEvents {
  import opened Common
  import opened JsString

  /** What parsing a line's payload as JSON tells the reader: `NotJson` when `JSON.parse`
      throws or yields `null` (reading a property of `null` throws too, into the same
      `catch`); `Json(c)` for any other value, with `c` its `content` as text when that
      is truthy and `""` otherwise (a number, a string, an array or an object without
      `content` all give `""`). */
  datatype Payload = NotJson | Json(content: string)

  const DataPrefix: string := "data: "
  const DoneMarker: string := "[DONE]"

  predicate IsDataLine(line: string) {
    |line| >= |DataPrefix| && line[..|DataPrefix|] == DataPrefix
  }

  /** What one data payload contributes: the raw payload when parsing it throws, the
      parsed value's content when that is truthy, and nothing otherwise. */
  function Piece(data: string, parse: string -> Payload): (r: seq<string>)
    ensures |r| <= 1
    ensures parse(data) == NotJson ==> r == [data]
    ensures parse(data).Json? ==> (r == [] <==> parse(data).content == "")
    ensures parse(data).Json? && r != [] ==> r == [parse(data).content]
  {
    match parse(data)
    case NotJson => [data]
    case Json(c) => if c == "" then [] else [c]
  }

  /** The pieces the lines of one chunk contribute, in order, up to a `[DONE]` line. */
  function LinePieces(lines: seq<string>, parse: string -> Payload): (r: seq<string>)
    ensures |r| <= |lines|
    ensures lines == [] ==> r == []
  {
    if lines == [] then []
    else if !IsDataLine(lines[0]) then LinePieces(lines[1..], parse)
    else if lines[0][|DataPrefix|..] == DoneMarker then []
    else Piece(lines[0][|DataPrefix|..], parse) + LinePieces(lines[1..], parse)
  }

  /** The pieces one decoded chunk contributes. */
  function ChunkPieces(chunk: string, parse: string -> Payload): (r: seq<string>)
    ensures |r| <= |Split(chunk, '\n')|
  {
    LinePieces(Split(chunk, '\n'), parse)
  }

  /** The pieces a whole body contributes: every chunk's, in order. */
  function StreamPieces(chunks: seq<string>, parse: string -> Payload): (r: seq<string>)
    ensures chunks == [] ==> r == []
    ensures |chunks| == 1 ==> r == ChunkPieces(chunks[0], parse)
  {
    if chunks == [] then [] else ChunkPieces(chunks[0], parse) + StreamPieces(chunks[1..], parse)
  }


  /** A line that does not start with `data: ` contributes nothing, wherever it is. */
  lemma {:induction false} NonDataLineIgnored(pre: seq<string>, line: string, post: seq<string>, parse: string -> Payload)
    requires !IsDataLine(line)
    ensures LinePieces(pre + [line] + post, parse) == LinePieces(pre + post, parse)
  {
    if pre == [] {
      assert pre + [line] + post == [line] + post;
      assert ([line] + post)[1..] == post;
      assert pre + post == post;
    } else {
      assert (pre + [line] + post)[1..] == pre[1..] + [line] + post;
      assert (pre + post)[1..] == pre[1..] + post;
      NonDataLineIgnored(pre[1..], line, post, parse);
    }
  }

  /** A `data: [DONE]` line ends its chunk: nothing after it contributes. */
  lemma {:induction false} DoneEndsChunk(pre: seq<string>, post: seq<string>, parse: string -> Payload)
    ensures LinePieces(pre + [DataPrefix + DoneMarker] + post, parse) == LinePieces(pre, parse)
  {
    var done := DataPrefix + DoneMarker;
    assert done[..|DataPrefix|] == DataPrefix;
    assert done[|DataPrefix|..] == DoneMarker;
    if pre == [] {
      assert pre + [done] + post == [done] + post;
    } else {
      assert (pre + [done] + post)[1..] == pre[1..] + [done] + post;
      DoneEndsChunk(pre[1..], post, parse);
    }
  }

  /** The body's pieces are the pieces of its parts, so `[DONE]` in one chunk does not
      stop later chunks. */
  lemma {:induction false} StreamPiecesAppend(a: seq<string>, b: seq<string>, parse: string -> Payload)
    ensures StreamPieces(a + b, parse) == StreamPieces(a, parse) + StreamPieces(b, parse)
  {
    if a == [] {
      assert a + b == b;
    } else {
      assert (a + b)[1..] == a[1..] + b;
      StreamPiecesAppend(a[1..], b, parse);
    }
  }

  /** Reading one more chunk adds that chunk's pieces at the end. */
  lemma StreamPiecesSnoc(chunks: seq<string>, chunk: string, parse: string -> Payload)
    ensures StreamPieces(chunks + [chunk], parse) == StreamPieces(chunks, parse) + ChunkPieces(chunk, parse)
  {
    StreamPiecesAppend(chunks, [chunk], parse);
    var one: seq<string> := [chunk];
    assert one[1..] == [];
  }


  /** A single-line chunk `data: <payload>`: its contribution is the payload's piece. */
  lemma SingleDataLine(payload: string, parse: string -> Payload)
    requires payload != DoneMarker
    requires '\n' !in payload
    ensures ChunkPieces(DataPrefix + payload, parse) == Piece(payload, parse)
  {
    var line := DataPrefix + payload;
    assert '\n' !in DataPrefix;
    assert '\n' !in line;
    SplitWithoutSeparator(line, '\n');
    assert line[..|DataPrefix|] == DataPrefix;
    assert line[|DataPrefix|..] == payload;
    assert IsDataLine(line);
    var lines: seq<string> := [line];
    assert lines[1..] == [];
    assert LinePieces(lines, parse) == Piece(payload, parse) + LinePieces(lines[1..], parse);
  }

  /** A chunk without a line break that is not a data line contributes nothing. */
  lemma NoDataInChunk(chunk: string, parse: string -> Payload)
    requires '\n' !in chunk && !IsDataLine(chunk)
    ensures ChunkPieces(chunk, parse) == []
  {
    SplitWithoutSeparator(chunk, '\n');
    var lines: seq<string> := [chunk];
    assert lines[1..] == [];
  }

  /** Chunks are split into lines independently: a data line cut across two reads loses
      its second half. */
  lemma LineCutAcrossChunks(parse: string -> Payload)
    requires parse("he") == NotJson && parse("hello") == NotJson
    ensures StreamPieces(["data: he", "llo"], parse) == ["he"]
    ensures StreamPieces(["data: hello"], parse) == ["hello"]
  {
    SingleDataLine("he", parse);
    SingleDataLine("hello", parse);
    assert DataPrefix + "he" == "data: he";
    assert DataPrefix + "hello" == "data: hello";
    NoDataInChunk("llo", parse);
    assert ["data: he", "llo"][1..] == ["llo"];
    assert |["llo"][1..]| == 0;
    assert |["data: hello"][1..]| == 0;
    assert StreamPieces(["llo"], parse) == [] + StreamPieces([], parse);
  }

  /** What the line at `j` and the lines after it contribute, one line at a time. */
  lemma LineStep(lines: seq<string>, j: nat, parse: string -> Payload)
    requires j < |lines|
    ensures LinePieces(lines[j..], parse) ==
              if !IsDataLine(lines[j]) then LinePieces(lines[j + 1..], parse)
              else if lines[j][|DataPrefix|..] == DoneMarker then []
              else Piece(lines[j][|DataPrefix|..], parse) + LinePieces(lines[j + 1..], parse)
  {
    assert lines[j..][0] == lines[j] && lines[j..][1..] == lines[j + 1..];
  }

  /** The inner loop of `handleStreamingResponse`: the `onChunk` arguments one decoded
      chunk yields, and the text they add to the full text. */
  method ReadChunk(chunk: string, parse: string -> Payload) returns (pieces: seq<string>, text: string)
    ensures pieces == ChunkPieces(chunk, parse)
    ensures text == Concat(pieces)
  {
    var lines := Split(chunk, '\n');
    pieces := [];
    text := "";
    var j := 0;
    while j < |lines|
      invariant 0 <= j <= |lines|
      invariant pieces + LinePieces(lines[j..], parse) == LinePieces(lines, parse)
      invariant text == Concat(pieces)
    {
      var line := lines[j];
      LineStep(lines, j, parse);
      if IsDataLine(line) {
        var data := line[|DataPrefix|..];
        if data == DoneMarker {
          assert pieces == LinePieces(lines, parse);
          return;
        }
        var piece := Piece(data, parse);
        ConcatAppend(pieces, piece);
        if piece != [] {
          assert Concat(piece) == piece[0] + Concat([]);
          text := text + piece[0];
        } else {
          assert pieces + piece == pieces;
        }
        pieces := pieces + piece;
      }
      j := j + 1;
    }
    assert lines[j..] == [];
  }

  /** `handleStreamingResponse(response, options)`: `body` is the sequence of decoded
      chunks the reader yields, or none when the response has no body. Returns the full
      text, and the arguments passed to `onChunk` in order. */
  method HandleStreamingResponse(body: Option<seq<string>>, parse: string -> Payload)
    returns (r: Result<string>, calls: seq<string>)
    ensures body.None? ==> r == Err("No response body") && calls == []
    ensures body.Some? ==> calls == StreamPieces(body.value, parse) && r == Ok(Concat(calls))
  {
    calls := [];
    if body.None? {
      return Err("No response body"), calls;
    }
    var chunks := body.value;
    var fullText := "";
    var i := 0;
    while i < |chunks|
      invariant 0 <= i <= |chunks|
      invariant calls == StreamPieces(chunks[..i], parse)
      invariant fullText == Concat(calls)
    {
      var pieces, text := ReadChunk(chunks[i], parse);
      StreamPiecesSnoc(chunks[..i], chunks[i], parse);
      assert chunks[..i + 1] == chunks[..i] + [chunks[i]];
      ConcatAppend(calls, pieces);
      calls := calls + pieces;
      fullText := fullText + text;
      i := i + 1;
    }
    assert chunks[..i] == chunks;
    r := Ok(fullText);
  }
}
