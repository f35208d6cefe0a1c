/** Wire format of a batch: a header, the chunks and, after the last file, a `done`. */
module Messages {

  newtype byte = b: int | 0 <= b < 256

  const CHUNK_SIZE: nat := 16384
  const HIGH_WATERMARK: nat := CHUNK_SIZE * 64
  const LOW_WATERMARK: nat := CHUNK_SIZE * 16
  const ACK_INTERVAL: nat := 250
  /** Length of the text `{"type":"done"}`. */
  const DONE_BYTES: nat := 15

  datatype Option<+T> = None | Some(value: T)

  datatype File = File(name: string, content: seq<byte>)

  datatype Header = Header(index: nat, name: string, size: nat, hash: Option<string>, total: nat)

  /** Sender to receiver. */
  datatype Message = FileHeader(header: Header) | Chunk(bytes: seq<byte>) | Done

  /** Receiver to sender. */
  datatype Back = Ack(totalDoneBytes: nat) | IntegrityError(name: string)

  /** What the sender offers. `hashes[i]` is the tag it managed to compute for file i,
      `headerBytes[i]` the encoded length of that file's header, and `digest` stands
      for SHA-256 in hexadecimal. */
  datatype Batch = Batch(
    files: seq<File>,
    hashes: seq<Option<string>>,
    headerBytes: seq<nat>,
    digest: seq<byte> -> string)
  {
    ghost predicate Valid() {
      && |files| >= 1
      && |hashes| == |files|
      && |headerBytes| == |files|
    }

    /** Every tag the sender attached is the digest of the file it sends. */
    ghost predicate Honest()
      requires Valid()
    {
      forall i :: 0 <= i < |files| && hashes[i].Some? ==> hashes[i].value == digest(files[i].content)
    }

    function HeaderOf(i: nat): Header
      requires i < |files| && |hashes| == |files|
    {
      Header(i, files[i].name, |files[i].content|, hashes[i], |files|)
    }
  }

  /** Bytes of the first k files. */
  function SizeOfFirst(files: seq<File>, k: nat): nat
    requires k <= |files|
  {
    if k == 0 then 0 else SizeOfFirst(files, k - 1) + |files[k - 1].content|
  }

  function TotalSize(files: seq<File>): nat {
    SizeOfFirst(files, |files|)
  }

  lemma {:induction false} SizeMonotone(files: seq<File>, j: nat, k: nat)
    requires j <= k <= |files|
    ensures SizeOfFirst(files, j) <= SizeOfFirst(files, k)
    decreases k
  {
    if j < k {
      SizeMonotone(files, j, k - 1);
    }
  }

  /** All bytes of the batch are in the first k files exactly when the others are empty. */
  lemma {:induction false} AllBytesInFirst(files: seq<File>, k: nat)
    requires k <= |files|
    ensures SizeOfFirst(files, k) == TotalSize(files) <==>
            forall i :: k <= i < |files| ==> files[i].content == []
    decreases |files| - k
  {
    if k < |files| {
      AllBytesInFirst(files, k + 1);
      SizeMonotone(files, k + 1, |files|);
    }
  }

  /** End of the slice `file.slice(offset, offset + CHUNK_SIZE)`. */
  function SliceEnd(content: seq<byte>, offset: nat): (end: nat)
    requires offset <= |content|
    ensures offset <= end <= |content|
    ensures end - offset <= CHUNK_SIZE
    ensures offset < |content| ==> offset < end
  {
    if offset + CHUNK_SIZE < |content| then offset + CHUNK_SIZE else |content|
  }

  /** The chunks still to be sent of a file, an empty file having one empty chunk. */
  function ChunksFrom(content: seq<byte>, offset: nat): (msgs: seq<Message>)
    requires offset <= |content|
    decreases |content| - offset
  {
    var end := SliceEnd(content, offset);
    [Chunk(content[offset..end])] + (if end < |content| then ChunksFrom(content, end) else [])
  }

  /** Everything the sender emits from the header of file i on. */
  function EncodeFrom(b: Batch, i: nat): (msgs: seq<Message>)
    requires b.Valid() && i <= |b.files|
    decreases |b.files| - i
  {
    if i == |b.files| then [Done]
    else [FileHeader(b.HeaderOf(i))] + ChunksFrom(b.files[i].content, 0) + EncodeFrom(b, i + 1)
  }

  function Encode(b: Batch): seq<Message>
    requires b.Valid()
  {
    EncodeFrom(b, 0)
  }

  function Flatten(chunks: seq<seq<byte>>): seq<byte> {
    if chunks == [] then [] else Flatten(chunks[..|chunks| - 1]) + chunks[|chunks| - 1]
  }

  lemma FlattenSnoc(chunks: seq<seq<byte>>, c: seq<byte>)
    ensures Flatten(chunks + [c]) == Flatten(chunks) + c
  {
    assert (chunks + [c])[..|chunks|] == chunks;
  }

  /** The payload carried by the chunks of a message sequence. */
  function Payload(msgs: seq<Message>): seq<byte> {
    if msgs == [] then []
    else (if msgs[0].Chunk? then msgs[0].bytes else []) + Payload(msgs[1..])
  }

  /** Chunking loses nothing, keeps every chunk within the limit and only a whole-file
      chunk of an empty file is empty. */
  lemma {:induction false} ChunkingIsExact(content: seq<byte>, offset: nat)
    requires offset <= |content|
    ensures Payload(ChunksFrom(content, offset)) == content[offset..]
    ensures |ChunksFrom(content, offset)| == if offset == |content| then 1 else (|content| - offset + 16383) / 16384
    ensures forall m :: m in ChunksFrom(content, offset) ==> m.Chunk? && |m.bytes| <= 16384
    ensures offset < |content| ==> forall m :: m in ChunksFrom(content, offset) ==> m.Chunk? && 0 < |m.bytes|
    decreases |content| - offset
  {
    var end := SliceEnd(content, offset);
    var c := Chunk(content[offset..end]);
    if end < |content| {
      ChunkingIsExact(content, end);
      var rest := ChunksFrom(content, end);
      assert ([c] + rest)[1..] == rest;
      assert content[offset..] == content[offset..end] + content[end..];
      CountStep(|content| - offset);
    } else {
      assert ChunksFrom(content, offset) == [c];
      assert Payload([c]) == c.bytes + Payload([]);
      assert content[offset..end] == content[offset..];
    }
  }

  lemma CountStep(size: nat)
    requires size > CHUNK_SIZE
    ensures (size + 16383) / 16384 == 1 + (size - CHUNK_SIZE + 16383) / 16384
  {
    assert size + 16383 == (size - CHUNK_SIZE + 16383) + 16384;
  }

  /** The headers among the messages, in order. */
  function Headers(msgs: seq<Message>): seq<Header> {
    if msgs == [] then []
    else (if msgs[0].FileHeader? then [msgs[0].header] else []) + Headers(msgs[1..])
  }

  lemma {:induction false} HeadersConcat(x: seq<Message>, y: seq<Message>)
    ensures Headers(x + y) == Headers(x) + Headers(y)
  {
    if x == [] {
      assert x + y == y;
    } else {
      assert (x + y)[1..] == x[1..] + y && (x + y)[0] == x[0];
      HeadersConcat(x[1..], y);
    }
  }

  lemma {:induction false} NoHeaders(msgs: seq<Message>)
    requires forall m :: m in msgs ==> !m.FileHeader?
    ensures Headers(msgs) == []
  {
    if msgs != [] {
      NoHeaders(msgs[1..]);
    }
  }

  /** The header describes file i of the batch and carries the tag the sender has for it. */
  ghost predicate Describes(h: Header, b: Batch, i: nat)
    requires b.Valid() && i < |b.files|
  {
    && h.index == i && h.total == |b.files|
    && h.name == b.files[i].name && h.size == |b.files[i].content|
    && h.hash == b.hashes[i]
  }

  /** One header for each file from i on, in order, each describing its file and carrying
      its tag. */
  lemma {:induction false} HeadersAreExact(b: Batch, i: nat)
    requires b.Valid() && i <= |b.files|
    ensures var hs := Headers(EncodeFrom(b, i));
            |hs| == |b.files| - i && forall k :: 0 <= k < |hs| ==> Describes(hs[k], b, i + k)
    decreases |b.files| - i
  {
    if i < |b.files| {
      HeadersAreExact(b, i + 1);
      HeadersOfFile(b, i);
    } else {
      assert Headers([Done]) == [] + Headers([]);
    }
  }

  lemma HeadersOfFile(b: Batch, i: nat)
    requires b.Valid() && i < |b.files|
    ensures Headers(EncodeFrom(b, i)) == [b.HeaderOf(i)] + Headers(EncodeFrom(b, i + 1))
    ensures Describes(b.HeaderOf(i), b, i)
  {
    var h, chunks := FileHeader(b.HeaderOf(i)), ChunksFrom(b.files[i].content, 0);
    ChunkingIsExact(b.files[i].content, 0);
    NoHeaders(chunks);
    HeadersConcat([h] + chunks, EncodeFrom(b, i + 1));
    HeadersConcat([h], chunks);
    assert Headers([h]) == [h.header] + Headers([]);
  }

  /** The batch as a whole: its bytes in order, then `done`, once. */
  lemma {:induction false} EncodingIsExact(b: Batch, i: nat)
    requires b.Valid() && i <= |b.files|
    ensures Payload(EncodeFrom(b, i)) == JoinFrom(b.files, i)
    ensures EndsWithDone(EncodeFrom(b, i))
    decreases |b.files| - i
  {
    if i < |b.files| {
      var head := [FileHeader(b.HeaderOf(i))] + ChunksFrom(b.files[i].content, 0);
      EncodingIsExact(b, i + 1);
      PayloadOfFile(b, i);
      PayloadConcat(head, EncodeFrom(b, i + 1));
      EndKept(head, EncodeFrom(b, i + 1));
    } else {
      assert Payload([Done]) == [] + Payload([]);
    }
  }

  lemma PayloadOfFile(b: Batch, i: nat)
    requires b.Valid() && i < |b.files|
    ensures var head := [FileHeader(b.HeaderOf(i))] + ChunksFrom(b.files[i].content, 0);
            Payload(head) == b.files[i].content && Done !in head
  {
    var h, chunks := FileHeader(b.HeaderOf(i)), ChunksFrom(b.files[i].content, 0);
    ChunkingIsExact(b.files[i].content, 0);
    PayloadConcat([h], chunks);
    assert Payload([h]) == [] + Payload([]);
  }

  lemma EndKept(head: seq<Message>, rest: seq<Message>)
    requires Done !in head && EndsWithDone(rest)
    ensures EndsWithDone(head + rest)
  {
    forall k | 0 <= k < |head + rest| - 1 ensures (head + rest)[k] != Done {
      assert k < |head| ==> (head + rest)[k] in head;
      assert k >= |head| ==> (head + rest)[k] == rest[k - |head|];
    }
  }

  ghost predicate EndsWithDone(msgs: seq<Message>) {
    msgs != [] && msgs[|msgs| - 1] == Done && NoEarlyDone(msgs)
  }

  ghost predicate NoEarlyDone(msgs: seq<Message>) {
    forall k :: 0 <= k < |msgs| - 1 ==> msgs[k] != Done
  }

  /** The contents of the files from i on, one after the other. */
  function JoinFrom(files: seq<File>, i: nat): seq<byte>
    requires i <= |files|
    decreases |files| - i
  {
    if i == |files| then [] else files[i].content + JoinFrom(files, i + 1)
  }

  lemma {:induction false} PayloadConcat(x: seq<Message>, y: seq<Message>)
    ensures Payload(x + y) == Payload(x) + Payload(y)
  {
    if x == [] {
      assert x + y == y;
    } else {
      assert (x + y)[1..] == x[1..] + y && (x + y)[0] == x[0];
      PayloadConcat(x[1..], y);
    }
  }

  /** Lengths on the wire: the `done` message, a chunk, a header. */
  lemma WireLengths(b: Batch, m: Message)
    ensures m.Done? ==> WireBytes(b, m) == |"{\"type\":\"done\"}"|
    ensures m.Chunk? ==> WireBytes(b, m) == |m.bytes|
    ensures m.FileHeader? && m.header.index < |b.headerBytes| ==> WireBytes(b, m) == b.headerBytes[m.header.index]
  {
  }

  /** Number of bytes a message adds to the data channel's buffer. */
  function WireBytes(b: Batch, m: Message): nat {
    match m
    case FileHeader(h) => if h.index < |b.headerBytes| then b.headerBytes[h.index] else 0
    case Chunk(bytes) => |bytes|
    case Done => DONE_BYTES
  }
}
