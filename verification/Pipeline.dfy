/** The pipelines of the client from end to end. */
module Pipeline {
  import opened Data
  import opened Framing
  import opened Options
  import MQ = MessageQueue
  import C = Chunker
  import DS = DataSender
  import DR = DataRetriever

  /** Upload: in every interleaving of the chunker and the sender, once the sender has
      left, the receiver of its messages has the chunks of the file, which concatenate to
      the file, and the totals of the recipe are theirs. */
  lemma UploadDelivers(run: seq<MQ.State>, i: nat, p: C.Params, file: seq<Byte>, c: DS.Cipher, batch: nat)
    requires MQ.IsRun(run) && i < |run| && run[i].pop == MQ.Exited
    requires C.ParamsOk(p) && DS.Inverse(c) && batch > 0
    requires run[0].items == |FileItems(C.Chunks(p, file))|
    ensures run[i].queue.dequeued == MQ.Numbers(run[0].items)
    ensures var chunks := C.Chunks(p, file);
            var sent := DS.HandleAll(c, batch, MQ.Taken(FileItems(chunks), run[i].queue.dequeued));
            && DS.Received(c, sent.messages) == Some(chunks) && Concat(chunks) == file
            && sent.pending == [] && sent.messages != []
            && sent.messages[|sent.messages| - 1] == DS.UploadRecipeEnd(FrameRecipe(|chunks|, |file|))
  {
    MQ.ExitsAfterLastItem(run, i);
    var chunks := C.Chunks(p, file);
    MQ.TakenAll(FileItems(chunks));
    C.ChunksConcat(p, file);
    ChunksFit(p, file);
    DS.UploadDelivered(c, batch, chunks);
  }

  lemma ChunksFit(p: C.Params, file: seq<Byte>)
    requires C.ParamsOk(p)
    ensures Fits(C.Chunks(p, file))
  {
    var chunks := C.Chunks(p, file);
    forall k | 0 <= k < |chunks| ensures |chunks[k]| <= MAX_CHUNK_SIZE { C.ChunkSizes(p, file, k); }
  }

  /** Download: the chunks that arrive in batches are written in order once the writer has
      left, however they were grouped into batches. */
  lemma DownloadWrites(run: seq<MQ.State>, i: nat, c: DS.Cipher, groups: seq<seq<seq<Byte>>>)
    requires DS.Inverse(c) && Fits(DR.Flat(groups, |groups|))
    requires MQ.IsRun(run) && i < |run| && run[i].pop == MQ.Exited && run[0].items == |DR.Flat(groups, |groups|)|
    ensures run[i].queue.dequeued == MQ.Numbers(run[0].items)
    ensures var got := DR.Retrieved(c, DR.Batches(c, groups), |groups|);
            && got.Some? && |got.value| == run[0].items
            && Concat(MQ.Taken(got.value, run[i].queue.dequeued)) == Concat(DR.Flat(groups, |groups|))
  {
    forall k | 0 <= k < |groups| ensures Fits(groups[k]) { DR.FlatFits(groups, |groups|, k); }
    DR.RestoreDelivered(c, groups, |groups|);
    MQ.ExitsAfterLastItem(run, i);
    MQ.TakenAll(DR.Flat(groups, |groups|));
  }

  /** What the receiver of an upload has when the sender of `state` has taken its items. */
  ghost function Stored(state: MQ.State, p: C.Params, file: seq<Byte>, c: DS.Cipher, batch: nat): Option<seq<seq<Byte>>>
    requires C.ParamsOk(p) && batch > 0
  {
    var items, order := FileItems(C.Chunks(p, file)), state.queue.dequeued;
    if forall k :: 0 <= k < |order| ==> 0 <= order[k] < |items|
    then DS.Received(c, DS.HandleAll(c, batch, MQ.Taken(items, order)).messages)
    else None
  }

  /** A restored file is the file that was uploaded: if what the upload has stored is sent
      back in encrypted batches of any sizes, with any key, the receiver accepts the number
      of chunks and the writer writes the bytes of the file. */
  lemma RestoreGivesFile(up: seq<MQ.State>, i: nat, down: seq<MQ.State>, j: nat, p: C.Params, file: seq<Byte>,
                         c: DS.Cipher, batch: nat, d: DS.Cipher, groups: seq<seq<seq<Byte>>>)
    requires C.ParamsOk(p) && DS.Inverse(c) && DS.Inverse(d) && batch > 0
    requires MQ.IsRun(up) && i < |up| && up[i].pop == MQ.Exited && up[0].items == |FileItems(C.Chunks(p, file))|
    requires Stored(up[i], p, file, c, batch) == Some(DR.Flat(groups, |groups|))
    requires MQ.IsRun(down) && j < |down| && down[j].pop == MQ.Exited && down[0].items == |DR.Flat(groups, |groups|)|
    ensures down[j].queue.dequeued == MQ.Numbers(down[0].items)
    ensures var got := DR.Retrieved(d, DR.Batches(d, groups), |groups|);
            && got.Some? && |got.value| == down[0].items == |C.Chunks(p, file)|
            && Concat(MQ.Taken(got.value, down[j].queue.dequeued)) == file
  {
    UploadDelivers(up, i, p, file, c, batch);
    ChunksFit(p, file);
    DownloadWrites(down, j, d, groups);
  }
}
