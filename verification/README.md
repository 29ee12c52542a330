# Verified model of the deduplication client, server and their queues

The repository is a storage system that removes duplicate data: a client cuts a file
into chunks, sends them encrypted in batches to a server, and later gets the file back.
Its threads talk through two lock-free queues. This project models the parts with the
hardest logic and proves what they promise:

- **The queue for many producers and consumers** (`concurrentqueue.h`). `FreeList` is the
  reference-counted list of spare blocks; `DequeueTickets` the four counters by which
  consumers agree on who gets which index; `ProducerBlocks` the blocks of one producer,
  their circular index, its doubling and the reuse of emptied blocks; `ExplicitProducer`
  runs tickets and blocks together. `ImplicitIndex` and `ImplicitProducers` are all implicit
  producers of a queue with their block indexes, their consumers and the free list between
  them, and `ImplicitQueue` adds their tickets; `ImplicitHash` is the growing lock-free table
  from threads to these producers. Each is a state machine whose steps are single shared
  accesses of any number of threads; results hold for every interleaving.
- **The queue for one producer and one consumer** (`readerwriterqueue.h`, `atomicops.h`):
  `ReaderWriterQueue` is the ring of ring buffers, `ReaderWriterCapacity` its constructor
  and capacity, `Semaphore` the semaphore with a kernel semaphore below it, and
  `BlockingReaderWriterQueue` both together.
- **Upload and download**: `Chunker` (content-defined chunking through a refilled
  buffer), `Framing`, `DataSender`, `DataRetriever` (batches on the wire), `MessageQueue`
  (the shutdown between two threads) and `Pipeline`, which puts them together from the
  file to the restored file.
- **The server**: `Session` (the protocol between client, server thread and helper
  thread, with the locks of the client table), `InMemoryDatabase` (the chunk index and
  the super-feature index with their files), `LruCache` and `ReadCache` (the container
  cache of a restore), `ContainerId` (names of containers).
- **Others**: `Json` (printer and parser), `CompressGen` (compressible test data).

`Words`, `Circular`, `Counting`, `Sequences`, `Options` and `Data` hold what several of
these need. State machines are datatypes with step functions; code that works on one
thread's own objects is classes and methods with loops (`Chunker.FastChunker`,
`DataSender.Sender`, `DataRetriever.Retriever`, `LruCache.Cache`,
`ReadCache.ContainerCache`, `InMemoryDatabase.Database`, `CompressGen.Generator`).

`dafny verify dfyconfig.toml` checks everything.

## Findings

Where a property is false of the code, the model keeps the code, shows an input, and
proves when the property holds.

- A `ReaderWriterQueue` constructed for 0 elements has a block of one slot in which an
  element cannot be seen; after three enqueues a dequeue fails its assertion. Constructed
  for 2^63 elements or more it has a block of no slots and the first enqueue writes behind
  it. It is safe exactly for sizes between (`ReaderWriterCapacity.SafeExactly`).
- `signal(0)`, which its assertion allows, wakes a sleeping waiter that then returns true
  without a permit (`Semaphore.EmptySignalWakes`, a run from the start). Any call of it that
  meets a count below zero can lead there (`Semaphore.EmptySignalOvergrants`), runs without
  such a call are correct (`Semaphore.PermitsConserved`), and a lower bound on the arguments
  of `signal` is enough exactly if it is positive (`Semaphore.ConservedExactly`).
- `headIndex` can pass `tailIndex`: 2^63 + 3 threads that all find the only element before
  any of them takes a ticket (`DequeueTickets.CrowdOverclaims`), or few threads of which one
  sleeps between its two tests while 2^63 + 1 elements are taken and as many calls fail
  (`DequeueTickets.SleeperOverclaims`). It cannot exactly as long as at most 2^63 + 2 elements
  are asked for in all (`DequeueTickets.SafeExactly`); beyond that it cannot while no single
  call is overtaken by that many (`Brisk` in `DequeueTickets.HeadNeverPassesTail`).
- Appending a super-feature can displace an older answer: the list under the first part of
  the key is searched first, and the older feature may share the second part only
  (`InMemoryDatabase.AppendDisplaces`; when it does not: `InMemoryDatabase.AppendKeepsExactly`).
- `JSON::Load` of a printed integer alone gives null: the end of the text does not end a
  number. Keys are printed without escapes, so a key with a quotation mark is lost too
  (`Json.IntegerAlone`, `Json.RawKeyLost`; exactly which values come back: `Json.LoadDump`).
- A chunk index is read back from its file exactly when the empty string is not one of its
  keys (`InMemoryDatabase.IndexRoundTrip`), a super-feature index exactly when it has neither
  an empty key nor an empty list (`InMemoryDatabase.SFRoundTrip`). Neither occurs in a
  super-feature index that updates can make (`InMemoryDatabase.ReachableKept`).
- The container cache is right only if its LRU cache is built for as many names as its
  pool has slots (`ReadCache.TransparentExactly`). In MultiClient it is built for 1
  (readCache.h, line 28) with a pool of 64 (config.json, line 17), so that every change of
  the container uses up a slot and the 65th writes past the pool
  (`ReadCache.OneNameServes`, `ReadCache.ShippedOverflows`). In Prototype both are 64.
- The comment in messageQueue.h calls `Push` fallible; it repeats `try_enqueue` until it
  succeeds and always returns true. The model follows the code.

## Model

| member | source | states |
|---|---|---|
| FreeList.AssertionHolds | MultiClient/include/messageQueue/concurrentqueue.h:1413-1449 | The assertion of `try_get` never fails: in every interleaving a node just taken off the list has a clear flag. |
| FreeList.OneTaker | MultiClient/include/messageQueue/concurrentqueue.h:1413-1449 | A node has at most one taker, and while it has one it is on no list and nobody else owns it. |
| FreeList.NextIsStable | MultiClient/include/messageQueue/concurrentqueue.h:1418-1446 | No ABA: while a thread has a reference on a node, no step of any thread changes the `next` of that node. |
| FreeList.NodesConserved | MultiClient/include/messageQueue/concurrentqueue.h:1399-1484 | Every node is at every moment in exactly one of five places: linked, with a caller, held in an operation, being inserted, or waiting for its last reference, which some thread then has. |
| FreeList.NothingLost | MultiClient/include/messageQueue/concurrentqueue.h:1399-1484 | When no operation is in progress every node is linked or with a caller. |
| DequeueTickets.HeadNeverPassesTail | MultiClient/include/messageQueue/concurrentqueue.h:1900-1998 | In every run in which no call is overtaken by more than 2^63 requested units, or in which at most 2^63 + 2 are requested in all, `headIndex` plus all increments that approved calls still have to make is at most `tailIndex`. |
| DequeueTickets.ClaimsAreDisjoint | MultiClient/include/messageQueue/concurrentqueue.h:2192-2283 | In the same runs claimed ranges follow each other in index order, do not overlap, and lie below `tailIndex`. |
| DequeueTickets.HandedOutOnce | MultiClient/include/messageQueue/concurrentqueue.h:1900-1998 | In the same runs every index below `headIndex` belongs to exactly one claim. |
| DequeueTickets.QuietCountIsExact | MultiClient/include/messageQueue/concurrentqueue.h:1900-1998 | When no dequeue is in progress the optimistic count minus the overcommit is `headIndex`: every failed attempt has been given back. |
| DequeueTickets.AloneGetsWhatIsThere | MultiClient/include/messageQueue/concurrentqueue.h:2192-2283 | The steps of a call that starts when no other is in progress and runs alone end with a claim of the smaller of what it asked for and what is there; with none, and nothing changed, exactly when the word `tailIndex - headIndex` is zero or at least 2^63. |
| DequeueTickets.CallEnds | MultiClient/include/messageQueue/concurrentqueue.h:2192-2283 | Such a call exists from every state: it ends after finitely many steps. |
| DequeueTickets.FewTicketsAreBrisk | MultiClient/include/messageQueue/concurrentqueue.h:1900-1950 | Every run in which at most 2^63 units are asked for in all is one in which no call is overtaken by more. |
| DequeueTickets.FewTicketsAreSafe | MultiClient/include/messageQueue/concurrentqueue.h:1900-1950 | In every run in which at most 2^63 + 2 units are asked for, `headIndex` never passes `tailIndex`. |
| DequeueTickets.SafeExactly | MultiClient/include/messageQueue/concurrentqueue.h:1900-1950 | All runs in which at most n units are asked for keep `headIndex` at or below `tailIndex` if and only if n is at most 2^63 + 2. |
| DequeueTickets.CrowdOverclaims | MultiClient/include/messageQueue/concurrentqueue.h:1900-1950 | A run from the start with one element and 2^63 + 3 requested units ends with `headIndex` above `tailIndex`. |
| DequeueTickets.SleeperOverclaims | MultiClient/include/messageQueue/concurrentqueue.h:1900-1950 | A run from the start ends so too in which one call sleeps between its tests. |
| ProducerBlocks.DeliversWhatWasEnqueued | MultiClient/include/messageQueue/concurrentqueue.h:1794-1998 | Every finished dequeue returned exactly the elements that were enqueued with its indices, through reuse of blocks, doubling of the index and wrap-around of words. |
| ProducerBlocks.DeliversOnce | MultiClient/include/messageQueue/concurrentqueue.h:2192-2283 | Two finished dequeues have no index in common. |
| ProducerBlocks.AccessesInRange | MultiClient/include/messageQueue/concurrentqueue.h:1794-1998 | No step of producer or consumer accesses a block, slot, flag or index entry that does not exist. |
| ProducerBlocks.FlagWasClear | MultiClient/include/messageQueue/concurrentqueue.h:1536-1571 | The assertions of `set_empty` and `set_many_empty` never fail: a flag is set once per use of its block. |
| ProducerBlocks.ReusedUnseen | MultiClient/include/messageQueue/concurrentqueue.h:1805-1815 | When the producer reuses a block, no consumer is reading its elements or about to set its flags. |
| ProducerBlocks.LookupIsExact | MultiClient/include/messageQueue/concurrentqueue.h:1948-1962 | The slot computed from wrapped bases by an unsigned division and a mask is the slot of the wanted block. |
| ProducerBlocks.TailNotBehindHead | MultiClient/include/messageQueue/concurrentqueue.h:1817-1829 | The assertion of `enqueue` never fails: the tail does not compare less than the head. |
| ProducerBlocks.GrowIndexes | MultiClient/include/messageQueue/concurrentqueue.h:2301-2338 | The doubled index holds every block of the old one in the slot where lookups will find it. |
| Words.CircularLessIsLess | MultiClient/include/messageQueue/concurrentqueue.h:430-441 | The circular comparison of two wrapped counters is the comparison of the counters, exactly for distances below 2^63. |
| ExplicitProducer.ClaimHasRoom | MultiClient/include/messageQueue/concurrentqueue.h:1940-1948 | The tickets keep the promise that the blocks need: an advance of `headIndex` claims published indices only. |
| ExplicitProducer.EachElementOnce | MultiClient/include/messageQueue/concurrentqueue.h:1794-2283 | Tickets and blocks together, in the runs of `DequeueTickets.HeadNeverPassesTail`: what a call returned is the part of the enqueued sequence at the indices it claimed, and no two calls share an index. |
| ExplicitProducer.NothingLost | MultiClient/include/messageQueue/concurrentqueue.h:1900-2283 | Every index below `headIndex` was returned by a finished call or is owned by a running one. |
| ExplicitProducer.QuietMeansDelivered | MultiClient/include/messageQueue/concurrentqueue.h:1794-2283 | When every call has finished, the delivered elements are exactly those below `headIndex`, and the counters of the tickets agree. |
| ImplicitProducers.RequisitionedUnseen | MultiClient/include/messageQueue/concurrentqueue.h:2432-2564 | When a producer has got a block from the pool, from the free list or by allocation, no consumer reads it, counts in it or gives it back, it holds no uncounted elements of any producer, and no other producer has got it. |
| ImplicitProducers.BlocksNotShared | MultiClient/include/messageQueue/concurrentqueue.h:2432-2564 | Blocks with elements that are not all counted are different for different producers and different parts of one sequence. |
| ImplicitProducers.DeliversWhatWasEnqueued | MultiClient/include/messageQueue/concurrentqueue.h:2432-2820 | Every finished dequeue returned exactly the elements that its producer enqueued with its indices, through any wandering of blocks between producers, doubling of indexes and failed allocation. |
| ImplicitProducers.EachIndexOnce | MultiClient/include/messageQueue/concurrentqueue.h:2496-2820 | Each index below `headIndex` of each producer belongs to exactly one running or finished call, and no other index to any. |
| ImplicitProducers.QuietMeansDelivered | MultiClient/include/messageQueue/concurrentqueue.h:2496-2820 | With no dequeue in progress each element below `headIndex` was returned by exactly one call, at its place, and no other element by any. |
| ImplicitProducers.LookupsSucceed | MultiClient/include/messageQueue/concurrentqueue.h:2883-2899 | The assertions of a lookup never fail: the key at the tail is valid, and the entry found has the wanted key and the wanted block, also through a header that has been replaced. |
| ImplicitProducers.CountWithinBlock | MultiClient/include/messageQueue/concurrentqueue.h:1556-1576 | The assertion of `set_many_empty` never fails: at most as many elements are counted as a block has. |
| ImplicitProducers.GrownSlotUnused | MultiClient/include/messageQueue/concurrentqueue.h:2838-2868 | The assertion after a doubling of the index never fails: its next entry was never used. |
| ImplicitProducers.TailNotBehindHead | MultiClient/include/messageQueue/concurrentqueue.h:2436-2443 | The assertion of `enqueue` never fails: the tail does not compare less than the head. |
| ImplicitProducers.AccessesInRange | MultiClient/include/messageQueue/concurrentqueue.h:2432-2899 | No step accesses a header, slot, entry, block or element that does not exist, or follows an entry that is null. |
| ImplicitProducers.NoBlockLost | MultiClient/include/messageQueue/concurrentqueue.h:2496-2564 | With nothing in progress each block was never used, or is linked in the free list, or holds one part of one producer's elements; and exactly the parts with an element that is not dequeued have a block. |
| ImplicitQueue.ClaimHasRoom | MultiClient/include/messageQueue/concurrentqueue.h:2496-2515 | Together with the tickets of each producer, in the runs of `DequeueTickets.HeadNeverPassesTail`: an advance of `headIndex` claims published indices only. |
| ImplicitQueue.BlocksRun | MultiClient/include/messageQueue/concurrentqueue.h:2432-2899 | Hence such a run is one of `ImplicitProducers`, and all its theorems hold of it. |
| ImplicitQueue.QuietMeansDelivered | MultiClient/include/messageQueue/concurrentqueue.h:2432-2820 | With no dequeue in progress the four counters of a producer agree, and each element below its `headIndex` was returned by exactly one call, at its place, and no other element by any. |
| ImplicitIndex.LookupIsExact | MultiClient/include/messageQueue/concurrentqueue.h:2883-2899 | The slot computed by a signed division of wrapped words, an addition and a mask is that of the wanted block. |
| ImplicitIndex.GrowStep | MultiClient/include/messageQueue/concurrentqueue.h:2901-2942 | The doubled index, which shares the entries of the old one, leads to the same entry for every block that is looked for, as do all older headers. |
| ImplicitHash.SameProducerEachCall | MultiClient/include/messageQueue/concurrentqueue.h:3326-3476 | A thread gets the same producer on every call, however often the table has been replaced, and no producer is made for it twice. |
| ImplicitHash.ProducersNotShared | MultiClient/include/messageQueue/concurrentqueue.h:3326-3476 | Two threads never get the same producer. |
| ImplicitHash.ProbesEnd | MultiClient/include/messageQueue/concurrentqueue.h:3341-3387 | Every probe loop ends within one round of its table. |
| ImplicitHash.EachTableHasRoom | MultiClient/include/messageQueue/concurrentqueue.h:3393-3440 | Every table that was ever published has an empty slot. |
| ReaderWriterQueue.FifoOrder | MultiClient/include/messageQueue/readerwriterqueue.h:284-641 | What came out is the first part of what went in, and walking the ring of blocks finds exactly the rest of it, in order. |
| ReaderWriterQueue.AssertionsHold | MultiClient/include/messageQueue/readerwriterqueue.h:330-356 | The block the consumer advances to holds an element, and the block the producer advances to is empty. |
| ReaderWriterQueue.NoLiveSlotOverwritten | MultiClient/include/messageQueue/readerwriterqueue.h:533-641 | The slot the producer is about to write holds no element that has yet to be taken, and the block does not look empty afterwards. |
| ReaderWriterQueue.EmptyWhenFalse | MultiClient/include/messageQueue/readerwriterqueue.h:284-376 | A `try_dequeue` that returns false had a moment during the call at which the queue was empty. |
| ReaderWriterQueue.QuietSizeIsExact | MultiClient/include/messageQueue/readerwriterqueue.h:493-507 | `size_approx` is the number of elements while neither end is in a call. |
| ReaderWriterCapacity.RefusedOnlyWhenFull | MultiClient/include/messageQueue/readerwriterqueue.h:533-641 | A `try_enqueue` on a queue with room for n elements is refused only if the queue held at least n at some moment of the call. |
| ReaderWriterCapacity.CeilToPow2 | MultiClient/include/messageQueue/readerwriterqueue.h:654-666 | The shifts and ors give the least power of two that is not below a word of 1 to 2^63, and zero for the other words. |
| ReaderWriterCapacity.Construct | MultiClient/include/messageQueue/readerwriterqueue.h:105-154 | For any word the loop leaves the closed ring of empty blocks that `Built` describes for the rounded size. |
| ReaderWriterCapacity.ConstructedRoomy | MultiClient/include/messageQueue/readerwriterqueue.h:95-132 | A queue constructed for a size below 2^63 starts in an initial state with room for that many elements. |
| ReaderWriterCapacity.ZeroSizeFails | MultiClient/include/messageQueue/readerwriterqueue.h:105-154 | From the queue constructed for no elements a run leads to a failing assertion of `try_dequeue`. |
| ReaderWriterCapacity.HugeSizeFails | MultiClient/include/messageQueue/readerwriterqueue.h:105-154 | Constructed for 2^63 elements or more, the first enqueue finds room and writes outside its block. |
| ReaderWriterCapacity.SafeExactly | MultiClient/include/messageQueue/readerwriterqueue.h:105-154 | A new queue keeps its accesses in range, its assertions and its order in all runs exactly when its size is positive and below 2^63. |
| Circular.MaskIsRemainder | MultiClient/include/messageQueue/readerwriterqueue.h:310-312 | Masking with a power of two minus one takes the remainder. |
| Semaphore.PermitsConserved | MultiClient/include/messageQueue/atomicops.h:576-670 | The count never drops below -1, at most one kernel permit exists, and each wait that returned true has used up exactly one signalled permit, in all runs in which no `signal(0)` meets a count below zero. |
| Semaphore.NoLostWakeup | MultiClient/include/messageQueue/atomicops.h:585-664 | In the same runs a sleeping waiter is or will be woken exactly when a permit is left. |
| Semaphore.TimeoutIsHonest | MultiClient/include/messageQueue/atomicops.h:585-630 | In the same runs a wait gives up only when no permit is left, and its loop goes round only while the signaller has yet to post. |
| Semaphore.EmptySignalWakes | MultiClient/include/messageQueue/atomicops.h:654-664 | A run from the start, with no other argument of `signal` than 0, in which a wait returns true without a permit. |
| Semaphore.EmptySignalOvergrants | MultiClient/include/messageQueue/atomicops.h:585-664 | Every run that comes to its first `signal(0)` with the count below zero can go on, without another `signal`, until more waits have returned true than permits were signalled. |
| Semaphore.ConservedExactly | MultiClient/include/messageQueue/atomicops.h:585-664 | All runs whose arguments of `signal` are at least m conserve the permits if and only if m is at least 1. |
| BlockingReaderWriterQueue.DequeueSucceeds | MultiClient/include/messageQueue/readerwriterqueue.h:855-903 | After a granted wait the inner `try_dequeue` always succeeds; permits never exceed the elements; what comes out is what went in, in order. |
| BlockingReaderWriterQueue.QuietCountIsSize | MultiClient/include/messageQueue/readerwriterqueue.h:947-950 | The count of the semaphore is the number of elements while neither end is in a call. |
| MessageQueue.ExitsAfterLastItem | MultiClient/include/messageQueue.h:52-104 | Items are taken in order; when the consuming thread has left, all were taken and the queue is empty. |
| MessageQueue.AskedAlone | MultiClient/include/messageQueue.h:96-104 | While the consuming thread asks whether the queue is empty, the producing thread has stopped. |
| Chunker.SettingsSuffice | MultiClient/src/Client/chunker.cc:37-95 | Sizes in the order that is checked, a largest chunk that fits `Chunk_t`, an average of two or more and a buffer of 1 to 4095 MB give all that the theorems below suppose, and a buffer that holds a largest chunk. |
| Chunker.CutIsFirstBoundary | MultiClient/src/Client/chunker.cc:568-598 | A chunk ends at the first content boundary after the minimum size, at the maximum size, or with the file. |
| Chunker.ChunksConcat | MultiClient/src/Client/chunker.cc:479-535 | The chunks concatenate to the file. |
| Chunker.ChunkSizes | MultiClient/src/Client/chunker.cc:545-598 | Every chunk has at most the maximum size and all but the last more than the minimum. |
| Chunker.HarderBeforeNormal | MultiClient/src/Client/chunker.cc:545-598 | Where the mask before the normal size cuts, the mask after it would cut too. |
| Chunker.FastChunker.CutPoint | MultiClient/src/Client/chunker.cc:568-598 | The two loops return the cut of the specification. |
| Chunker.FastChunker.FastCDC | MultiClient/src/Client/chunker.cc:479-535 | Reading the file through the refilled buffer, which holds a largest chunk or else the whole file, emits exactly the chunks of the whole file, and a recipe with their number and the file's size. |
| Framing.UnframeFrame | MultiClient/src/Client/dataRetriever.cc:199-227 | Taking apart what was framed gives the chunks back. |
| Framing.RecipeRoundTrip | MultiClient/src/Client/dataSender.cc:180-197 | The head of the recipe is read back from its bytes. |
| DataSender.UploadDelivered | MultiClient/src/Client/dataSender.cc:129-250 | For every batch size the receiver of the messages gets exactly the chunks in order, and the last message is the recipe end with the totals. |
| DataSender.Sender.ProcessChunk | MultiClient/src/Client/dataSender.cc:205-219 | The send buffer never overflows; the state after a chunk is that of the specification, a full batch being sent at once. |
| DataSender.Sender.ProcessRecipeEnd | MultiClient/src/Client/dataSender.cc:180-197 | What is pending is sent before the recipe end. |
| DataRetriever.RestoreDelivered | MultiClient/src/Client/dataRetriever.cc:135-227 | However chunks are grouped into encrypted batches, the receiver gets exactly them, in order. |
| DataRetriever.Retriever.ProcessChunkBatch | MultiClient/src/Client/dataRetriever.cc:199-227 | A well-formed batch of `currentItemNum` chunks is pushed to the writer chunk by chunk, and the totals grow by their number and size. |
| DataRetriever.Retriever.Run | MultiClient/src/Client/dataRetriever.cc:135-190 | The loop takes in all batches up to the final one, and accepts exactly when the number of chunks is that of the recipe. |
| Pipeline.UploadDelivers | MultiClient/src/App/dbeClient.cc:152-208 | In every interleaving of chunker and sender, once the sender has left, the receiver has the chunks of the file and the totals of the recipe are theirs. |
| Pipeline.DownloadWrites | MultiClient/src/Client/restoreWriter.cc:49-87 | Chunks sent back in batches of any sizes are decoded and, in every interleaving, written in order. |
| Pipeline.RestoreGivesFile | MultiClient/src/App/dbeClient.cc:210-263 | What an upload has stored, sent back in encrypted batches of any sizes, is written as the bytes of the uploaded file. |
| Json.RoundTrip | MultiClient/include/IAS/json.h:457-801 | A printed value that stands anywhere in a text is read back up to its end; an integer only if a character follows that may end a number. |
| Json.IntegerAlone | MultiClient/include/IAS/json.h:700-749 | A printed integer alone is read as null. |
| Json.LoadDump | MultiClient/include/IAS/json.h:457-801 | `Load` of a printed value gives the value back exactly when it is no integer, its integers fit a `long`, its keys are escaped, and its objects are in the order of a map. |
| Json.ParsedOk | MultiClient/include/IAS/json.h:566-801 | Every value that is read, from any text, is of that form. |
| Json.RawKeyLost | MultiClient/include/IAS/json.h:466-478 | An object whose key is a quotation mark is not read back. |
| Json.JsonEscape | MultiClient/include/IAS/json.h:28-59 | The loop escapes every character, in order. |
| Json.ReadObject | MultiClient/include/IAS/json.h:575-611 | The loop of `parse_object` computes the specification, including its early exits. |
| Json.ReadArray | MultiClient/include/IAS/json.h:613-642 | The loop of `parse_array` computes the specification, including its early exits. |
| Json.ReadString | MultiClient/include/IAS/json.h:644-698 | The loop of `parse_string` computes the specification. |
| Json.ReadNumber | MultiClient/include/IAS/json.h:700-749 | The loop of `parse_number` computes the specification. |
| Session.NoWrongType | MultiClient/src/Server/serverOptThread.cc:250-640 | No end of any session, of any number of clients, ever takes an error branch for a message of the wrong type or a missing one. |
| Session.OneSessionPerClient | MultiClient/src/Server/serverOptThread.cc:300-640 | At most one session of a client is between the lock and the unlock of its client lock. |
| Session.HeaderBeforeBatches | MultiClient/src/Server/enclaveRecvDecoder.cc:57-95 | The header of the recipe is read before the helper thread reads the first batch of it. |
| Session.NoWaitCycle | MultiClient/src/Server/serverOptThread.cc:300-360 | Although the table lock is held while waiting for a client lock, waits for locks form no cycle. |
| Session.NoDeadlock | MultiClient/src/Server/serverOptThread.cc:250-640 | In every reachable state in which some session is not finished, some session can move. |
| LruCache.CacheInv | MultiClient/include/lruCache.h:111-205 | After every sequence of operations no key occurs twice, keys are in the order of last use, each has the value last inserted, and the size is within its bound. |
| LruCache.PrunesLeastRecent | MultiClient/include/lruCache.h:188-205 | An insertion that drops keys leaves exactly the maximum, and every dropped key was last used before every kept one. |
| LruCache.Cache.Insert | MultiClient/include/lruCache.h:116-128 | The linked list and the map change as the recency sequence does. |
| LruCache.Cache.TryGet | MultiClient/include/lruCache.h:129-143 | A hit returns the value and moves its key to the front; a miss changes nothing. |
| ReadCache.ServesFiles | MultiClient/src/Util/readCache.cc:48-86 | With as many slots as names every sequence of requests is served inside the pool, each with a buffer that starts with the whole file. |
| ReadCache.TransparentExactly | MultiClient/src/Util/readCache.cc:20-86 | That is so for all sequences of seven-character names exactly when capacity and pool size are equal and positive. |
| ReadCache.OneNameServes | MultiClient/include/readCache.h:25-35 | With capacity 1 a sequence of requests is served, and then correctly, exactly when the name changes at most as often as there are slots. |
| ReadCache.ShippedOverflows | MultiClient/include/readCache.h:28 | With capacity 1 and 64 slots any 65 requests of which no two in a row are the same write past the pool. |
| ReadCache.GetReqContainers | MultiClient/src/Server/enclaveRecvDecoder.cc:121-195 | For a cache of any capacity: if the accesses stay inside the pool, the buffers get what the cache specification serves, up to the first container that does not exist. |
| ReadCache.ContainerCache.InsertToCache | MultiClient/src/Util/readCache.cc:48-63 | The copy and the insertion are those of the specification. |
| InMemoryDatabase.IndexRoundTrip | MultiClient/src/Database/inMemoryDatabase.cc:28-181 | In whatever order the index is written, reading the file gives it back exactly when the empty string is no key. |
| InMemoryDatabase.SFRoundTrip | MultiClient/src/Database/inMemoryDatabase.cc:28-181 | The same for the three super-feature maps, exactly when no key and no list is empty. |
| InMemoryDatabase.QueryAfterUpdate | MultiClient/src/Database/inMemoryDatabase.cc:284-329 | A replaced feature is found at once and an erased one no more; an appended one is found unless an older one is known under the first part of the key. |
| InMemoryDatabase.AppendKeepsExactly | MultiClient/src/Database/inMemoryDatabase.cc:284-329 | An append keeps an older answer exactly when that was found under the first part of the key or is the value appended. |
| InMemoryDatabase.AppendDisplaces | MultiClient/src/Database/inMemoryDatabase.cc:284-329 | Two appends from the empty index of which the second one changes an answer. |
| InMemoryDatabase.ReachableKept | MultiClient/src/Database/inMemoryDatabase.cc:28-313 | After any updates and any cycles of saving and loading no list is empty and every key and value has the size of a hash. |
| InMemoryDatabase.ReachableRoundTrip | MultiClient/src/Database/inMemoryDatabase.cc:28-181 | Hence saving and loading a reachable index changes nothing, and a key that is found has a front element. |
| InMemoryDatabase.LoadedKept | MultiClient/src/Database/inMemoryDatabase.cc:80-181 | Whatever a file holds, loading it makes no empty key and no empty list. |
| InMemoryDatabase.Database.InsertSF | MultiClient/src/Database/inMemoryDatabase.cc:284-313 | The method replaces, erases or appends under the three parts of the key and keeps the maps valid. |
| InMemoryDatabase.Database.QuerySF | MultiClient/src/Database/inMemoryDatabase.cc:315-329 | The front element of the first map that has its part of the key; there always is one. |
| ContainerId.InBoundsExactly | Prototype/include/define.h:170-195 | Counting up to `times` stays inside the digits exactly below 36 to their number; for seven digits for every `int` that is not negative. |
| ContainerId.CreateUUID | Prototype/include/define.h:170-195 | The loops leave the base-36 digits of `times`, most significant first. |
| ContainerId.NamesInOrder | Prototype/include/define.h:170-195 | Different counts have different names, and the order of the names is that of the counts. |
| CompressGen.Generator.LZGenerateData | MultiClient/src/Util/compressGen.cc:96-145 | For every stream of random numbers, however often the generator has been used, exactly `size` bytes are written: literals, and copies from the start of the buffer as this call has filled it, no two copies in a row. |
| CompressGen.Generator.NextLength | MultiClient/src/Util/compressGen.cc:109-119 | The longest length that is left is found, and the lengths are drawn again only when none is left. |
| CompressGen.Generator.GenerateLengths | MultiClient/src/Util/compressGen.cc:71-90 | Exactly `num` lengths are drawn, all inside the table, so that the error exit is never taken. |

## Left out

- Concurrent objects are state machines over values, not classes: several threads share
  them, and a method contract cannot speak of the steps of the others.
- Memory is sequentially consistent; weaker orders of the atomic operations are not modelled.
- Allocation always succeeds, except for implicit producers, and except that no block index grows past 2^58
  entries; `bad_alloc` and the abort of the queue constructor are not modelled.
- DequeueTickets.HeadNeverPassesTail: holds of runs in which no call is overtaken by more than 2^63 requested
  units or at most 2^63 + 2 are requested in all; it is false of all runs (`SafeExactly`).
- Chunker.SettingsSuffice: `ChunkerInit` checks the order of the sizes only. That chunks fit `Chunk_t`, that
  the average is at least two, and that the buffer holds a chunk is left to the configuration file.
- FreeList: fewer than 2^31 - 2 threads, so that the count of references does not reach the flag.
- `ImplicitHash` leaves out the exit of threads and the reuse of their producers.
- `enqueue_bulk`, its rollback, and throwing constructors and assignments of elements are not modelled.
- An implicit producer whose first index could not be allocated, and that refuses every element, is left out. So
  are explicit producers that take blocks from the same free list; they give none back while they run.
- Moving and swapping queues, the choice of a producer by consumer tokens, and statistics.
- Spinning before a semaphore sleeps; a spin is a repetition of the modelled step.
- ReadCache.GetReqContainers: container files are a map from names to bytes; directories and I/O errors
  are not modelled, and that a container does not exist ends the call.
- Json: fractions, exponents, `\u` escapes and texts that end too early are one outcome `Failed`
  and nothing is said of them; numbers are integers.
- Chunking by fixed size, by a trace file, and the FSL and UBC formats.
- Encryption is a pair of inverse functions; sockets deliver messages in order and unchanged.
- What the server does with received chunks: the enclave, delta compression, fingerprints, the
  writing thread for containers and recipes, and remote attestation.
- A file of 2^32 bytes or more read through a buffer of that size; the casts to 32 bits are exact
  below it.
- `ContainerId` models the names of a single client; for several clients they are drawn at random.
- Random numbers are a stream of reals; rounding of the powers in `CompressGen` is not modelled.
- The directories MultiClient and Prototype share most of this code; where they differ the row
  names the one that is modelled.
