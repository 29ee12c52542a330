/** The sender of an upload (dataSender.cc): chunks are collected in one buffer, which is
    encrypted and sent when it holds a batch, and at the end of the recipe. */
module DataSender {
  import opened Data
  import opened Framing
  import opened Options

  type Key = int

  /** A message with its header fields; the payload of `UploadChunk` is encrypted. */
  datatype Message =
    | UploadChunk(currentItemNum: nat, payload: seq<Byte>)
    | UploadRecipeEnd(payload: seq<Byte>)

  /** Session encryption: a length-preserving function and its inverse. */
  datatype Cipher = Cipher(enc: seq<Byte> -> seq<Byte>, dec: seq<Byte> -> seq<Byte>)

  ghost predicate Inverse(c: Cipher) {
    forall s {:trigger c.enc(s)} :: |c.enc(s)| == |s| && c.dec(c.enc(s)) == s
  }

  // ---- the sender as a function of what it takes from the queue -----------

  /** Chunks collected but not sent, and the messages sent. */
  datatype Sent = Sent(pending: seq<seq<Byte>>, messages: seq<Message>)

  ghost function Flush(c: Cipher, s: Sent): Sent {
    Sent([], s.messages + [UploadChunk(|s.pending|, c.enc(Frame(s.pending)))])
  }

  ghost function Handle(c: Cipher, batch: nat, s: Sent, item: Item): Sent
    requires batch > 0
  {
    match item
    case Chunk(data) =>
      var s' := Sent(s.pending + [data], s.messages);
      if |s'.pending| % batch == 0 then Flush(c, s') else s'
    case RecipeEnd(totalChunkNum, fileSize) =>
      var s' := if s.pending != [] then Flush(c, s) else s;
      s'.(messages := s'.messages + [UploadRecipeEnd(FrameRecipe(totalChunkNum, fileSize))])
  }

  ghost function HandleAll(c: Cipher, batch: nat, items: seq<Item>): Sent
    requires batch > 0
  {
    if items == [] then Sent([], [])
    else Handle(c, batch, HandleAll(c, batch, items[..|items| - 1]), items[|items| - 1])
  }

  // ---- what the receiver makes of the messages ----------------------------

  /** The chunks of all batches in order; `None` when a batch is malformed. */
  ghost function Received(c: Cipher, messages: seq<Message>): Option<seq<seq<Byte>>> {
    if messages == [] then Some([])
    else
      var before := Received(c, messages[..|messages| - 1]);
      match messages[|messages| - 1]
      case UploadRecipeEnd(_) => before
      case UploadChunk(n, payload) =>
        var batch := Unframe(c.dec(payload), 0, n);
        if before.None? || batch.None? then None else Some(before.value + batch.value)
  }

  ghost predicate SentOk(c: Cipher, batch: nat, s: Sent, chunks: seq<seq<Byte>>) {
    && |s.pending| < batch && Fits(s.pending)
    && exists before :: Received(c, s.messages) == Some(before) && before + s.pending == chunks
  }

  lemma ReceiveFlush(c: Cipher, s: Sent, before: seq<seq<Byte>>)
    requires Inverse(c) && Fits(s.pending) && Received(c, s.messages) == Some(before)
    ensures Received(c, Flush(c, s).messages) == Some(before + s.pending)
  {
    var m := UploadChunk(|s.pending|, c.enc(Frame(s.pending)));
    assert (s.messages + [m])[..|s.messages|] == s.messages;
    UnframeFrame(s.pending);
  }

  lemma HandleChunkOk(c: Cipher, batch: nat, s: Sent, chunks: seq<seq<Byte>>, data: seq<Byte>)
    requires Inverse(c) && batch > 0 && SentOk(c, batch, s, chunks) && |data| <= MAX_CHUNK_SIZE
    ensures SentOk(c, batch, Handle(c, batch, s, Chunk(data)), chunks + [data])
  {
    var before :| Received(c, s.messages) == Some(before) && before + s.pending == chunks;
    var s' := Sent(s.pending + [data], s.messages);
    Shift(before, s.pending, data);
    if |s'.pending| % batch == 0 {
      ReceiveFlush(c, s', before);
      Emptied(before + s'.pending);
    } else {
      Remainder(|s'.pending|, batch);
    }
  }

  lemma Shift<T>(a: seq<T>, b: seq<T>, x: T)
    ensures a + (b + [x]) == (a + b) + [x]
  {
  }

  lemma Emptied<T>(a: seq<T>)
    ensures a + [] == a
  {
  }

  lemma {:induction false} HandleChunks(c: Cipher, batch: nat, chunks: seq<seq<Byte>>)
    requires Inverse(c) && batch > 0 && Fits(chunks)
    ensures SentOk(c, batch, HandleAll(c, batch, ChunkItems(chunks)), chunks)
    decreases |chunks|
  {
    if chunks == [] {
      assert Received(c, []) == Some([]) && [] + [] == chunks;
    } else {
      var init, last := chunks[..|chunks| - 1], chunks[|chunks| - 1];
      var sent := HandleAll(c, batch, ChunkItems(init));
      assert SentOk(c, batch, sent, init) by { HandleChunks(c, batch, init); }
      assert ChunkItems(chunks)[..|chunks| - 1] == ChunkItems(init);
      assert HandleAll(c, batch, ChunkItems(chunks)) == Handle(c, batch, sent, Chunk(last));
      HandleChunkOk(c, batch, sent, init, last);
      assert init + [last] == chunks;
    }
  }

  /** Whatever the batch size, the receiver gets exactly the chunks of the file in order,
      and the last message is the recipe end with the totals. */
  lemma UploadDelivered(c: Cipher, batch: nat, chunks: seq<seq<Byte>>)
    requires Inverse(c) && batch > 0 && Fits(chunks)
    ensures var s := HandleAll(c, batch, FileItems(chunks));
            && s.pending == [] && Received(c, s.messages) == Some(chunks)
            && s.messages != []
            && s.messages[|s.messages| - 1] == UploadRecipeEnd(FrameRecipe(|chunks|, |Concat(chunks)|))
  {
    var items := FileItems(chunks);
    assert items[..|items| - 1] == ChunkItems(chunks);
    var s := HandleAll(c, batch, ChunkItems(chunks));
    HandleChunks(c, batch, chunks);
    var before :| Received(c, s.messages) == Some(before) && before + s.pending == chunks;
    if s.pending == [] { Emptied(before); } else { ReceiveFlush(c, s, before); }
    var s' := if s.pending != [] then Flush(c, s) else s;
    var m := UploadRecipeEnd(FrameRecipe(|chunks|, |Concat(chunks)|));
    assert (s'.messages + [m])[..|s'.messages|] == s'.messages;
  }

  // ---- the sender's buffer ------------------------------------------------

  class Sender {
    const batchSize: nat              // sendChunkBatchSize_
    const cipher: Cipher
    const dataBuffer: array<Byte>     // sendChunkBuf_.dataBuffer
    var dataSize: nat                 // of its header
    var currentItemNum: nat
    var batchNum: nat
    var channel: seq<Message>         // what has been sent
    ghost var pending: seq<seq<Byte>>

    ghost predicate Valid() reads this, dataBuffer {
      && batchSize > 0 && dataBuffer.Length == batchSize * CHUNK_STRUCT
      && currentItemNum == |pending| < batchSize && Fits(pending)
      && dataSize == |Frame(pending)| <= dataBuffer.Length && dataBuffer[..dataSize] == Frame(pending)
    }

    constructor (batchSize: nat, cipher: Cipher)
      requires batchSize > 0
      ensures Valid() && fresh(dataBuffer) && this.batchSize == batchSize && this.cipher == cipher
      ensures pending == [] && channel == []
    {
      this.batchSize := batchSize;
      this.cipher := cipher;
      dataBuffer := new Byte[batchSize * CHUNK_STRUCT](_ => 0);
      dataSize, currentItemNum, batchNum, channel := 0, 0, 0, [];
      pending := [];
    }

    /** `memcpy` to the end of the used part of the buffer. */
    method Append(bytes: seq<Byte>)
      requires dataSize + |bytes| <= dataBuffer.Length
      modifies this`dataSize, dataBuffer
      ensures dataSize == old(dataSize) + |bytes|
      ensures dataBuffer[..dataSize] == old(dataBuffer[..dataSize]) + bytes
    {
      var i := 0;
      while i < |bytes|
        modifies dataBuffer
        invariant i <= |bytes|
        invariant forall k :: 0 <= k < dataSize ==> dataBuffer[k] == old(dataBuffer[k])
        invariant forall k {:trigger bytes[k]} :: 0 <= k < i ==> dataBuffer[dataSize + k] == bytes[k]
      {
        dataBuffer[dataSize + i] := bytes[i];
        i := i + 1;
      }
      dataSize := dataSize + |bytes|;
    }

    method SendChunks()
      requires dataSize <= dataBuffer.Length
      modifies this`dataSize, this`currentItemNum, this`batchNum, this`channel
      ensures dataSize == 0 && currentItemNum == 0 && batchNum == old(batchNum) + 1
      ensures channel == old(channel) + [UploadChunk(old(currentItemNum), cipher.enc(old(dataBuffer[..dataSize])))]
    {
      channel := channel + [UploadChunk(currentItemNum, cipher.enc(dataBuffer[..dataSize]))];
      currentItemNum, dataSize := 0, 0;
      batchNum := batchNum + 1;
    }

    lemma Room(c: seq<Byte>)
      requires Valid() && |c| <= MAX_CHUNK_SIZE
      ensures dataSize + SIZE_BYTES + |c| <= dataBuffer.Length
    {
      FrameLength(pending);
      assert (|pending| + 1) * CHUNK_STRUCT <= batchSize * CHUNK_STRUCT;
    }

    /** The buffer never overflows, and a full batch is sent at once. */
    method ProcessChunk(inputChunk: seq<Byte>)
      requires Valid() && |inputChunk| <= MAX_CHUNK_SIZE
      modifies this, dataBuffer
      ensures Valid()
      ensures Sent(pending, channel) == Handle(cipher, batchSize, Sent(old(pending), old(channel)), Chunk(inputChunk))
    {
      Room(inputChunk);
      Append(Encode(|inputChunk|, SIZE_BYTES));
      Append(inputChunk);
      currentItemNum := currentItemNum + 1;
      FrameAppend(pending, inputChunk);
      pending := pending + [inputChunk];
      assert dataBuffer[..dataSize] == Frame(pending);
      Remainder(currentItemNum, batchSize);
      if currentItemNum % batchSize == 0 {
        SendChunks();
        pending := [];
      }
    }

    method ProcessRecipeEnd(totalChunkNum: nat, fileSize: nat)
      requires Valid()
      modifies this, dataBuffer
      ensures pending == []
      ensures Sent(pending, channel) ==
              Handle(cipher, batchSize, Sent(old(pending), old(channel)), RecipeEnd(totalChunkNum, fileSize))
    {
      if currentItemNum != 0 {
        SendChunks();
        pending := [];
      }
      dataSize := 0;
      assert batchSize * CHUNK_STRUCT >= CHUNK_STRUCT;
      Append(FrameRecipe(totalChunkNum, fileSize));
      assert dataBuffer[..dataSize] == FrameRecipe(totalChunkNum, fileSize);
      channel := channel + [UploadRecipeEnd(dataBuffer[..dataSize])];
    }
  }

  lemma Remainder(n: nat, batch: nat)
    requires 0 < n <= batch
    ensures n % batch == 0 <==> n == batch
  {
  }
}
