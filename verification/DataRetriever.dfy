/** The receiver of a download (dataRetriever.cc): batches are decrypted and taken apart
    in the order in which they come, until the final one. */
module DataRetriever {
  import opened Data
  import opened Framing
  import opened DataSender
  import opened Options

  /** A batch as it arrives; the payload is encrypted. */
  datatype Batch = RestoreChunk(currentItemNum: nat, payload: seq<Byte>)
      | RestoreFinal(currentItemNum: nat, payload: seq<Byte>)

  function BatchChunks(c: Cipher, m: Batch): Option<seq<seq<Byte>>> {
    Unframe(c.dec(m.payload), 0, m.currentItemNum)
  }

  /** The chunks of the first `n` batches; `None` when one is malformed. */
  function Retrieved(c: Cipher, batches: seq<Batch>, n: nat): Option<seq<seq<Byte>>>
    requires n <= |batches|
  {
    if n == 0 then Some([])
    else
      var before, batch := Retrieved(c, batches, n - 1), BatchChunks(c, batches[n - 1]);
      if before.None? || batch.None? then None else Some(before.value + batch.value)
  }

  /** Batches come as `RestoreChunk` messages and one final one. */
  predicate EndsFinal(batches: seq<Batch>) {
    batches != [] && forall i :: 0 <= i < |batches| ==> (batches[i].RestoreFinal? <==> i == |batches| - 1)
  }

  class Retriever {
    const cipher: Cipher
    var totalRecvChunkNum: nat
    var totalRecvDataSize: nat
    var output: seq<seq<Byte>>   // pushed to the writer

    constructor (cipher: Cipher)
      ensures this.cipher == cipher && totalRecvChunkNum == totalRecvDataSize == 0 && output == []
    {
      this.cipher := cipher;
      totalRecvChunkNum, totalRecvDataSize, output := 0, 0, [];
    }

    /** One round of the loop below: the next chunk of the batch. */
    method TakeChunk(decBuffer: seq<Byte>, at: nat, left: nat) returns (offset: nat)
      requires left > 0 && Unframe(decBuffer, at, left).Some?
      modifies this
      ensures Unframe(decBuffer, offset, left - 1).Some?
      ensures output + Unframe(decBuffer, offset, left - 1).value == old(output) + Unframe(decBuffer, at, left).value
      ensures totalRecvChunkNum == old(totalRecvChunkNum) + 1
      ensures totalRecvDataSize + |Concat(Unframe(decBuffer, offset, left - 1).value)|
           == old(totalRecvDataSize) + |Concat(Unframe(decBuffer, at, left).value)|
    {
      var chunkSize := Decode(decBuffer, at, SIZE_BYTES);
      offset := at + SIZE_BYTES;
      var chunk := decBuffer[offset..offset + chunkSize];
      offset := offset + chunkSize;
      ghost var rest := Unframe(decBuffer, offset, left - 1).value;
      assert ([chunk] + rest)[1..] == rest;
      assert output + ([chunk] + rest) == (output + [chunk]) + rest;
      output := output + [chunk];
      totalRecvDataSize := totalRecvDataSize + chunkSize;
      totalRecvChunkNum := totalRecvChunkNum + 1;
    }

    /** A well-formed batch yields its chunks in order, and nothing else. */
    method ProcessChunkBatch(m: Batch)
      requires BatchChunks(cipher, m).Some?
      modifies this
      ensures output == old(output) + BatchChunks(cipher, m).value
      ensures totalRecvChunkNum == old(totalRecvChunkNum) + m.currentItemNum
      ensures totalRecvDataSize == old(totalRecvDataSize) + |Concat(BatchChunks(cipher, m).value)|
    {
      var decBuffer := cipher.dec(m.payload);
      var offset: nat, i: nat := 0, 0;
      while i < m.currentItemNum
        invariant i <= m.currentItemNum && Unframe(decBuffer, offset, m.currentItemNum - i).Some?
        invariant output + Unframe(decBuffer, offset, m.currentItemNum - i).value
                  == old(output) + BatchChunks(cipher, m).value
        invariant totalRecvChunkNum == old(totalRecvChunkNum) + i
        invariant totalRecvDataSize + |Concat(Unframe(decBuffer, offset, m.currentItemNum - i).value)|
               == old(totalRecvDataSize) + |Concat(BatchChunks(cipher, m).value)|
      {
        offset := TakeChunk(decBuffer, offset, m.currentItemNum - i);
        i := i + 1;
      }
    }

    /** The receive loop of `Run`; it stops at the final batch, and accepts if the number of
        chunks is that of the recipe. */
    method Run(batches: seq<Batch>, totalChunkNum: nat) returns (ok: bool)
      requires EndsFinal(batches) && Retrieved(cipher, batches, |batches|).Some?
      requires totalRecvChunkNum == |output|
      modifies this
      ensures output == old(output) + Retrieved(cipher, batches, |batches|).value
      ensures totalRecvChunkNum == |output| && (ok <==> |output| == totalChunkNum)
    {
      var jobDoneFlag, i := false, 0;
      ghost var start := output;
      while !jobDoneFlag
        invariant i <= |batches| && (jobDoneFlag <==> i == |batches|)
        invariant Got(cipher, batches, i, start, output)
        invariant totalRecvChunkNum == |output|
        decreases |batches| - i
      {
        GotNext(cipher, batches, i, start, output);
        ProcessChunkBatch(batches[i]);
        jobDoneFlag := batches[i].RestoreFinal?;
        i := i + 1;
      }
      ok := totalRecvChunkNum == totalChunkNum;
    }
  }

  /** After `n` batches the output is what it was before them, and their chunks. */
  predicate Got(c: Cipher, batches: seq<Batch>, n: nat, start: seq<seq<Byte>>, output: seq<seq<Byte>>)
    requires n <= |batches|
  {
    Retrieved(c, batches, n).Some? && output == start + Retrieved(c, batches, n).value
  }

  lemma GotNext(c: Cipher, batches: seq<Batch>, i: nat, start: seq<seq<Byte>>, output: seq<seq<Byte>>)
    requires i < |batches| && Retrieved(c, batches, |batches|).Some? && Got(c, batches, i, start, output)
    ensures BatchChunks(c, batches[i]).Some?
    ensures |BatchChunks(c, batches[i]).value| == batches[i].currentItemNum
    ensures Got(c, batches, i + 1, start, output + BatchChunks(c, batches[i]).value)
  {
    RetrievedPrefix(c, batches, i + 1, |batches|);
    UnframeCount(c.dec(batches[i].payload), 0, batches[i].currentItemNum);
  }

  lemma {:induction false} RetrievedPrefix(c: Cipher, batches: seq<Batch>, k: nat, n: nat)
    requires k <= n <= |batches| && Retrieved(c, batches, n).Some?
    ensures Retrieved(c, batches, k).Some?
  {
    if k < n { RetrievedPrefix(c, batches, k, n - 1); }
  }

  lemma {:induction false} UnframeCount(s: seq<Byte>, at: nat, n: nat)
    requires Unframe(s, at, n).Some?
    ensures |Unframe(s, at, n).value| == n
    decreases n
  {
    if n > 0 { UnframeCount(s, at + SIZE_BYTES + Decode(s, at, SIZE_BYTES), n - 1); }
  }

  // ---- batches of any sizes --------------------------------------------------

  /** The chunks of the first `n` groups together. */
  function Flat(groups: seq<seq<seq<Byte>>>, n: nat): seq<seq<Byte>>
    requires n <= |groups|
  {
    if n == 0 then [] else Flat(groups, n - 1) + groups[n - 1]
  }

  /** The messages for chunks that are sent back in these groups. */
  function Batches(c: Cipher, groups: seq<seq<seq<Byte>>>): (r: seq<Batch>)
    ensures |r| == |groups|
  {
    seq(|groups|, i requires 0 <= i < |groups| =>
      var payload := c.enc(Frame(groups[i]));
      if i < |groups| - 1 then RestoreChunk(|groups[i]|, payload) else RestoreFinal(|groups[i]|, payload))
  }

  lemma {:induction false} FlatFits(groups: seq<seq<seq<Byte>>>, n: nat, i: nat)
    requires n <= |groups| && i < n && Fits(Flat(groups, n))
    ensures Fits(groups[i])
  {
    var before := Flat(groups, n - 1);
    if i == n - 1 {
      forall k | 0 <= k < |groups[i]| ensures |groups[i][k]| <= MAX_CHUNK_SIZE {
        assert Flat(groups, n)[|before| + k] == groups[i][k];
      }
    } else {
      forall k | 0 <= k < |before| ensures |before[k]| <= MAX_CHUNK_SIZE { assert Flat(groups, n)[k] == before[k]; }
      FlatFits(groups, n - 1, i);
    }
  }

  /** However the chunks are grouped, the receiver gets exactly them, in order. */
  lemma {:induction false} RestoreDelivered(c: Cipher, groups: seq<seq<seq<Byte>>>, n: nat)
    requires Inverse(c) && n <= |groups| && forall i :: 0 <= i < |groups| ==> Fits(groups[i])
    ensures Retrieved(c, Batches(c, groups), n) == Some(Flat(groups, n))
  {
    if n > 0 {
      RestoreDelivered(c, groups, n - 1);
      UnframeFrame(groups[n - 1]);
    }
  }
}
