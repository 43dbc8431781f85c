/** Input normalisation (`readMarkdownInput` and its stream readers): every
    accepted input shape is reduced to one decoded text. UTF-8 decoding and
    encoding are library calls and enter the model as the functions of a `Codec`. */
module Input {
  import opened Values

  /** One result of `reader.read()` on a web ReadableStream. */
  datatype ReadResult = ReadResult(done: bool, value: Option<seq<byte>>)

  /** A chunk produced by a Node.js readable stream: a string or a Buffer. */
  datatype NodeChunk = StringChunk(text: string) | BufferChunk(bytes: seq<byte>)

  /** The accepted input shapes, in the order `readMarkdownInput` tests them.
      A web stream is the finite sequence of what its successive reads return;
      a Node stream is the finite sequence of chunks it yields. */
  datatype MarkdownInput =
    | Text(text: string)
    | NodeBuffer(bytes: seq<byte>)
    | Bytes(bytes: seq<byte>)
    | ArrayBuf(bytes: seq<byte>)
    | WebStream(results: seq<ReadResult>)
    | NodeStream(chunks: seq<NodeChunk>)

  /** The host's UTF-8 conversions. `textDecoder` is `new TextDecoder("utf-8").decode`
      when the global exists; `bufferToString` is `Buffer#toString("utf8")` and
      `bufferFromString` is `Buffer.from(s, "utf8")`. The two decoders are kept
      apart because they need not agree (TextDecoder drops a leading byte-order mark). */
  datatype Codec = Codec(
    textDecoder: Option<seq<byte> -> string>,
    bufferToString: seq<byte> -> string,
    bufferFromString: string -> seq<byte>)

  /** `decodeBytes`: TextDecoder when available, otherwise Buffer decoding. */
  function DecodeBytes(codec: Codec, bytes: seq<byte>): string {
    match codec.textDecoder
    case Some(decode) => decode(bytes)
    case None => codec.bufferToString(bytes)
  }

  /** What the `i`-th call of `reader.read()` returns; past the recorded reads the
      stream is closed and reports `done`. */
  function ReadAt(results: seq<ReadResult>, i: nat): ReadResult {
    if i < |results| then results[i] else ReadResult(true, None)
  }

  /** The chunks a reader keeps: the values of the reads before the first `done`,
      skipping reads without a value. */
  function Collected(results: seq<ReadResult>): seq<seq<byte>> {
    if results == [] || results[0].done then []
    else (if results[0].value.Some? then [results[0].value.value] else []) + Collected(results[1..])
  }

  /** The in-order concatenation of chunks (`Buffer.concat`). */
  function Concat(chunks: seq<seq<byte>>): seq<byte> {
    if chunks == [] then [] else Concat(chunks[..|chunks| - 1]) + chunks[|chunks| - 1]
  }

  /** The sum of the chunks' lengths. */
  function TotalLength(chunks: seq<seq<byte>>): nat {
    if chunks == [] then 0 else TotalLength(chunks[..|chunks| - 1]) + |chunks[|chunks| - 1]|
  }

  /** A Node stream's chunks as bytes: strings are UTF-8 encoded, Buffers copied. */
  function NodeChunkBytes(codec: Codec, chunk: NodeChunk): seq<byte> {
    match chunk
    case StringChunk(s) => codec.bufferFromString(s)
    case BufferChunk(b) => b
  }

  function NodeStreamBytes(codec: Codec, chunks: seq<NodeChunk>): seq<seq<byte>> {
    if chunks == [] then []
    else NodeStreamBytes(codec, chunks[..|chunks| - 1]) + [NodeChunkBytes(codec, chunks[|chunks| - 1])]
  }

  /** The text each input shape normalises to. */
  function InputText(input: MarkdownInput, codec: Codec): string {
    match input
    case Text(s) => s
    case NodeBuffer(b) => codec.bufferToString(b)
    case Bytes(b) => DecodeBytes(codec, b)
    case ArrayBuf(b) => DecodeBytes(codec, b)
    case WebStream(results) => DecodeBytes(codec, Concat(Collected(results)))
    case NodeStream(chunks) => codec.bufferToString(Concat(NodeStreamBytes(codec, chunks)))
  }

  /** The combined buffer is exactly as long as the chunks together. */
  lemma {:induction false} ConcatLength(chunks: seq<seq<byte>>)
    ensures |Concat(chunks)| == TotalLength(chunks)
    decreases |chunks|
  {
    if chunks != [] {
      ConcatLength(chunks[..|chunks| - 1]);
    }
  }

  /** Concatenation distributes over appending chunk lists. */
  lemma {:induction false} ConcatAppend(a: seq<seq<byte>>, b: seq<seq<byte>>)
    ensures Concat(a + b) == Concat(a) + Concat(b)
    decreases |b|
  {
    if b == [] {
      assert a + b == a;
    } else {
      var b' := b[..|b| - 1];
      assert (a + b)[..|a + b| - 1] == a + b';
      ConcatAppend(a, b');
    }
  }

  /** A prefix of the chunks is never longer than all of them. */
  lemma {:induction false} TotalLengthPrefix(chunks: seq<seq<byte>>, j: nat)
    requires j <= |chunks|
    ensures TotalLength(chunks[..j]) <= TotalLength(chunks)
    decreases |chunks| - j
  {
    if j < |chunks| {
      TotalLengthPrefix(chunks[..|chunks| - 1], j);
      assert chunks[..|chunks| - 1][..j] == chunks[..j];
    } else {
      assert chunks[..j] == chunks;
    }
  }

  /** Reads after the first `done` are never looked at. */
  lemma {:induction false} CollectedStopsAtDone(results: seq<ReadResult>, k: nat)
    requires k < |results| && results[k].done
    ensures Collected(results) == Collected(results[..k])
  {
    if k > 0 {
      assert !results[0].done ==> results[..k][1..] == results[1..][..k - 1];
      CollectedStopsAtDone(results[1..], k - 1);
    }
  }

  /** A read that is not `done` and carries no value contributes nothing. */
  lemma {:induction false} CollectedSkipsEmptyRead(results: seq<ReadResult>, k: nat)
    requires k < |results| && !results[k].done && results[k].value.None?
    ensures Collected(results) == Collected(results[..k] + results[k + 1..])
  {
    var rest := results[..k] + results[k + 1..];
    if k == 0 {
      assert rest == results[1..];
    } else {
      assert rest[0] == results[0];
      assert rest[1..] == results[1..][..k - 1] + results[1..][k..];
      CollectedSkipsEmptyRead(results[1..], k - 1);
    }
  }

  predicate NoDone(results: seq<ReadResult>) {
    forall i :: 0 <= i < |results| ==> !results[i].done
  }

  lemma {:induction false} CollectedAppend(a: seq<ReadResult>, b: seq<ReadResult>)
    requires NoDone(a)
    ensures Collected(a + b) == Collected(a) + Collected(b)
    decreases |a|
  {
    if a == [] {
      assert a + b == b;
    } else {
      assert (a + b)[0] == a[0];
      assert (a + b)[1..] == a[1..] + b;
      CollectedAppend(a[1..], b);
    }
  }

  /** A web stream's text does not depend on how its bytes are split into reads:
      delivering `x + y` in one read or `x` and `y` in two gives the same text. */
  lemma SplitReadSameText(pre: seq<ReadResult>, x: seq<byte>, y: seq<byte>, post: seq<ReadResult>, codec: Codec)
    ensures InputText(WebStream(pre + [ReadResult(false, Some(x + y))] + post), codec)
         == InputText(WebStream(pre + [ReadResult(false, Some(x)), ReadResult(false, Some(y))] + post), codec)
  {
    var one := [ReadResult(false, Some(x + y))] + post;
    var two := [ReadResult(false, Some(x)), ReadResult(false, Some(y))] + post;
    assert pre + [ReadResult(false, Some(x + y))] + post == pre + one;
    assert pre + [ReadResult(false, Some(x)), ReadResult(false, Some(y))] + post == pre + two;
    if NoDone(pre) {
      SplitAfterReads(pre, x, y, post);
    } else {
      var k :| 0 <= k < |pre| && pre[k].done;
      assert (pre + one)[..k] == pre[..k] && (pre + two)[..k] == pre[..k];
      CollectedStopsAtDone(pre + one, k);
      CollectedStopsAtDone(pre + two, k);
    }
  }

  /** The case of `SplitReadSameText` where no read before the split is `done`. */
  lemma SplitAfterReads(pre: seq<ReadResult>, x: seq<byte>, y: seq<byte>, post: seq<ReadResult>)
    requires NoDone(pre)
    ensures Concat(Collected(pre + [ReadResult(false, Some(x + y))] + post))
         == Concat(Collected(pre + [ReadResult(false, Some(x)), ReadResult(false, Some(y))] + post))
  {
    var one := [ReadResult(false, Some(x + y))] + post;
    var two := [ReadResult(false, Some(x)), ReadResult(false, Some(y))] + post;
    assert pre + [ReadResult(false, Some(x + y))] + post == pre + one;
    assert pre + [ReadResult(false, Some(x)), ReadResult(false, Some(y))] + post == pre + two;
    CollectedAppend(pre, one);
    CollectedAppend(pre, two);
    var c := Collected(pre);
    var p := Collected(post);
    assert two[1..][1..] == post;
    assert Collected(one) == [x + y] + p;
    assert Collected(two) == [x] + ([y] + p);
    ConcatAppend(c, [x + y] + p);
    ConcatAppend(c, [x, y] + p);
    ConcatAppend([x + y], p);
    ConcatAppend([x, y], p);
    assert [x] + ([y] + p) == [x, y] + p;
    assert Concat([x, y]) == Concat([x]) + y;
    assert [x, y][..1] == [x];
    assert Concat([x]) == x by { assert [x][..0] == []; }
    assert Concat([x + y]) == x + y by { assert [x + y][..0] == []; }
  }

  /** `Uint8Array#set(source, offset)`: copies `source` into `target` from `offset` on. */
  method SetBytes(target: array<byte>, source: seq<byte>, offset: nat)
    requires offset + |source| <= target.Length
    modifies target
    ensures target[..] == old(target[..offset]) + source + old(target[offset + |source|..])
  {
    for k := 0 to |source|
      invariant target[..offset] == old(target[..offset])
      invariant target[offset..offset + k] == source[..k]
      invariant target[offset + |source|..] == old(target[offset + |source|..])
    {
      target[offset + k] := source[k];
      assert target[offset..offset + k + 1] == target[offset..offset + k] + [source[k]];
      assert source[..k + 1] == source[..k] + [source[k]];
    }
    assert target[..] == target[..offset] + target[offset..offset + |source|] + target[offset + |source|..];
  }

  /** The read loop of `readWebStream`: reads until the first `done`, keeping every
      value that is present, and the running total of their lengths. */
  method CollectReads(results: seq<ReadResult>) returns (chunks: seq<seq<byte>>, totalLength: nat)
    ensures chunks == Collected(results)
    ensures totalLength == TotalLength(chunks)
  {
    chunks := [];
    totalLength := 0;
    var i: nat := 0;
    while true
      invariant i <= |results|
      invariant chunks + Collected(results[i..]) == Collected(results)
      invariant totalLength == TotalLength(chunks)
      decreases |results| - i
    {
      var read := ReadAt(results, i);
      if read.done {
        break;
      }
      assert results[i..][1..] == results[i + 1..];
      if read.value.Some? {
        var value := read.value.value;
        assert (chunks + [value])[..|chunks|] == chunks;
        chunks := chunks + [value];
        totalLength := totalLength + |value|;
      }
      i := i + 1;
    }
  }

  /** The copy loop of `readWebStream`: allocates `totalLength` bytes and copies
      each chunk in at a running offset, which ends equal to `totalLength`. */
  method CombineChunks(chunks: seq<seq<byte>>, totalLength: nat) returns (combined: seq<byte>)
    requires totalLength == TotalLength(chunks)
    ensures combined == Concat(chunks)
    ensures |combined| == totalLength
  {
    var buffer := new byte[totalLength];
    var offset: nat := 0;
    for j := 0 to |chunks|
      invariant offset == TotalLength(chunks[..j]) <= buffer.Length
      invariant buffer[..offset] == Concat(chunks[..j])
    {
      var chunk := chunks[j];
      assert chunks[..j + 1][..j] == chunks[..j];
      TotalLengthPrefix(chunks, j + 1);
      SetBytes(buffer, chunk, offset);
      assert buffer[..offset + |chunk|] == buffer[..offset] + chunk;
      offset := offset + |chunk|;
    }
    assert chunks[..|chunks|] == chunks;
    assert offset == totalLength;
    assert buffer[..] == buffer[..offset];
    combined := buffer[..];
  }

  /** `readWebStream`: drains the stream, combines its chunks and decodes the result. */
  method ReadWebStream(results: seq<ReadResult>, codec: Codec) returns (text: string)
    ensures text == DecodeBytes(codec, Concat(Collected(results)))
  {
    var chunks, totalLength := CollectReads(results);
    var combined := CombineChunks(chunks, totalLength);
    text := DecodeBytes(codec, combined);
  }

  /** `readNodeStream`: collects every chunk as bytes, then decodes the concatenation. */
  method ReadNodeStream(stream: seq<NodeChunk>, codec: Codec) returns (text: string)
    ensures text == codec.bufferToString(Concat(NodeStreamBytes(codec, stream)))
  {
    var chunks: seq<seq<byte>> := [];
    for i := 0 to |stream|
      invariant chunks == NodeStreamBytes(codec, stream[..i])
    {
      assert stream[..i + 1][..i] == stream[..i];
      match stream[i]
      case StringChunk(s) =>
        chunks := chunks + [codec.bufferFromString(s)];
      case BufferChunk(b) =>
        chunks := chunks + [b];
    }
    assert stream[..|stream|] == stream;
    text := codec.bufferToString(Concat(chunks));
  }

  /** `readMarkdownInput`: dispatches on the input's shape; a string comes back unchanged. */
  method ReadMarkdownInput(input: MarkdownInput, codec: Codec) returns (text: string)
    ensures text == InputText(input, codec)
    ensures input.Text? ==> text == input.text
  {
    match input
    case Text(s) =>
      text := s;
    case NodeBuffer(b) =>
      text := codec.bufferToString(b);
    case Bytes(b) =>
      text := DecodeBytes(codec, b);
    case ArrayBuf(b) =>
      text := DecodeBytes(codec, b);
    case WebStream(results) =>
      text := ReadWebStream(results, codec);
    case NodeStream(chunks) =>
      text := ReadNodeStream(chunks, codec);
  }

  lemma ConcatOfOne(b: seq<byte>)
    ensures Concat([b]) == b
  {
  }

  lemma NodeStreamBytesOfOne(codec: Codec, chunk: NodeChunk)
    ensures NodeStreamBytes(codec, [chunk]) == [NodeChunkBytes(codec, chunk)]
  {
  }

  /** Converting chunks to bytes distributes over appending chunk lists. */
  lemma {:induction false} NodeStreamBytesAppend(codec: Codec, a: seq<NodeChunk>, b: seq<NodeChunk>)
    ensures NodeStreamBytes(codec, a + b) == NodeStreamBytes(codec, a) + NodeStreamBytes(codec, b)
    decreases |b|
  {
    if b == [] {
      assert a + b == a;
    } else {
      var b' := b[..|b| - 1];
      assert (a + b)[..|a + b| - 1] == a + b';
      assert (a + b)[|a + b| - 1] == b[|b| - 1];
      NodeStreamBytesAppend(codec, a, b');
    }
  }

  /** A Node stream's text does not depend on how its Buffer bytes are split into
      chunks: one chunk `x + y` or two chunks `x` and `y` give the same text. */
  lemma SplitChunkSameText(pre: seq<NodeChunk>, x: seq<byte>, y: seq<byte>, post: seq<NodeChunk>, codec: Codec)
    ensures InputText(NodeStream(pre + [BufferChunk(x + y)] + post), codec)
         == InputText(NodeStream(pre + [BufferChunk(x), BufferChunk(y)] + post), codec)
  {
    var a := NodeStreamBytes(codec, pre);
    var p := NodeStreamBytes(codec, post);
    NodeStreamBytesAppend(codec, pre + [BufferChunk(x + y)], post);
    NodeStreamBytesAppend(codec, pre, [BufferChunk(x + y)]);
    NodeStreamBytesAppend(codec, pre + [BufferChunk(x), BufferChunk(y)], post);
    NodeStreamBytesAppend(codec, pre, [BufferChunk(x), BufferChunk(y)]);
    assert NodeStreamBytes(codec, [BufferChunk(x + y)]) == [x + y] by {
      assert [BufferChunk(x + y)][..0] == [];
    }
    assert NodeStreamBytes(codec, [BufferChunk(x), BufferChunk(y)]) == [x, y] by {
      assert [BufferChunk(x), BufferChunk(y)][..1] == [BufferChunk(x)];
      assert [BufferChunk(x)][..0] == [];
    }
    ConcatAppend(a + [x + y], p);
    ConcatAppend(a, [x + y]);
    ConcatAppend(a + [x, y], p);
    ConcatAppend(a, [x, y]);
    assert Concat([x + y]) == x + y by { assert [x + y][..0] == []; }
    assert Concat([x, y]) == x + y by {
      assert [x, y][..1] == [x];
      assert Concat([x]) == x by { assert [x][..0] == []; }
    }
  }

  /** A Node stream of one string chunk yields that string whenever Buffer's UTF-8
      encoding and decoding round-trip on it. */
  lemma NodeStreamOfOneString(s: string, codec: Codec)
    requires codec.bufferToString(codec.bufferFromString(s)) == s
    ensures InputText(NodeStream([StringChunk(s)]), codec) == s
  {
    NodeStreamBytesOfOne(codec, StringChunk(s));
    ConcatOfOne(codec.bufferFromString(s));
  }
}
