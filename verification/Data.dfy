/** What flows from the chunker to the sender (chunkStructure.h, constVar.h). */
module Data {
  type Byte = x: int | 0 <= x < 256

  const MAX_CHUNK_SIZE: nat := 16384

  /** `Data_t`: a chunk, or the recipe that ends a file. */
  datatype Item = Chunk(data: seq<Byte>) | RecipeEnd(totalChunkNum: nat, fileSize: nat)

  function Concat(chunks: seq<seq<Byte>>): seq<Byte> {
    if chunks == [] then [] else chunks[0] + Concat(chunks[1..])
  }

  function ChunkItems(chunks: seq<seq<Byte>>): (items: seq<Item>)
    ensures |items| == |chunks|
  {
    seq(|chunks|, i requires 0 <= i < |chunks| => Chunk(chunks[i]))
  }

  /** What the chunker produces for a file cut into `chunks`. */
  function FileItems(chunks: seq<seq<Byte>>): seq<Item> {
    ChunkItems(chunks) + [RecipeEnd(|chunks|, |Concat(chunks)|)]
  }
}
