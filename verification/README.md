# Verified models of ms-swift's schedulers, packers and codecs

ms-swift trains and serves large models. Most of it drives other libraries; this project models
the parts that carry their own logic and proves what they are for.

* **Activation offload** (`Offload*.dfy`): the handler that copies saved activations to the
  host group by group while training goes on, and brings them back before the backward pass
  needs them. `OffloadModel` is the two handlers step by step, `OffloadHandler` the same as
  classes. `OffloadSession` is what autograd does to a handler over any number of training
  steps, with a reference that only remembers what was saved. `OffloadProofs` gives the state
  of the handler at every moment in closed form, and `OffloadContents` says in terms of the
  events alone what is given back.
* **Sequence packing** (`Packing*.dfy`, `NextFit.dfy`, `IterablePacking.dfy`): the next-fit
  packer with its carry-over between batches, the split over workers, the workers, the
  collector of their messages, and the iterable dataset that restores the order of an
  out-of-order pool.
* **Indexed dataset** (`IndexedDataset.dfy`, `ShardSizes.dfy`): byte shards and an index
  written by a background thread, read back by bisection.
* **Inference scheduling** (`Request*.dfy`, `BatchAlignment.dfy`, `Stream*.dfy`): the pool of
  waiting requests, the alignment of answers with requests when some cannot be encoded or the
  engine raises, the printer of a growing answer, the rows of a streamed batch and the queues
  their chunks travel through.
* **Tool-call codecs**: MiniMax-M3's namespace XML (`Minimax*.dfy`), Gemma-4's DSL
  (`Gemma4*.dfy`) and Kimi-K3's escaped attributes (`Kimi*.dfy`); `FormatExamples` spells two
  formatted calls out.
* **Batch dispatcher** (`Dispatcher.dfy`): rank 0 pulls and scatters, every rank stops on None.

`Options`, `Sequences`, `Arithmetic`, `Decimals`, `Searching` and `Substrings` hold what these
share. Where the source updates objects or runs loops, a class or a method does the same and is
proved equal to a function of its input; the theorems are about those functions.

Some assumptions stand for code that is not part of this model, and every theorem that uses one
names it in a `requires` clause. JSON (RFC 8259) is a pair of functions, and the predicates
`Faithful`, `OneNull` and `ReadsBack` say what is asked of them. There are codecs that meet
these: `DocsAreFaithful` and `ValuesAreFaithful` in `JsonCodecs`, and `CodecReadsBack` in
`JsonText`, which rests on compact JSON text determining its value. Pickle is a lossless,
non-empty encoding (`Lossless`). Decoding tokens is a homomorphism (`Homomorphism`). Bin
packing hands every item out once (`Distributes`). The model answers row by row when it answers
(`AnswersRows`). Two views with one key show the same data (`CoherentSaves`).

What the proofs brought out:

* The docstring of `enable_activation_offloading` promises at most two groups on the device.
  That holds in every reachable state for the installed N = L - 1, and for hardly any other
  choice; `TwoGroupsExactly` says which. The handler's own requirement is only N <= L (line
  257).
* MiniMax-M3: a list element that contains an `item` tag is normally cut short by the lazy
  pattern of `_iter_tagged`, so `[["a"]]` comes back as `[[]]` (`NestedListIsCut`). One shape
  survives: a mapping whose last entry is `"item": ""`. `RoundTripExactly` has the condition
  for every value.
* MiniMax-M3: a call is found whole exactly when no key named `invoke` is rendered in its
  arguments (`CallExactly`), and the block exactly when none is named `tool_call`
  (`BlockExactly`).
* A streamed answer is printed as it is exactly when its segments keep their leading blanks;
  the prefix `" "` and the answer `"a"` print one blank too many (`BlankPrintedTwice`).
* A first streaming call that already finishes prints the prefix only, so the answer is lost
  unless it is empty (`FinishingFirstCall`).
* `pre_infer_hook` is not part of the pool's key, and a batch can run under the hook of a
  request that it does not contain (`HookOfAnotherRequest`). Every batch runs under the hook of
  its own requests, in every run, exactly when requests of one key carry one hook
  (`OwnHooksExactly`).
* The dispatcher's ranks stop together exactly when the first group of batches with a None in
  it is all None (`StopTogetherExactly`); one batch and a None leave rank 0 waiting alone
  (`RankLeftAlone`).

## Model

| member | source | states |
|---|---|---|
| OffloadWindow.BuildWindowMap | swift/callbacks/activation_cpu_offload.py:275-284 | The constructor's loop, with its running constant, builds the closed form L/N*(i+1) - 1 + min(i+1, L mod N) for every group i. |
| OffloadWindow.PassedIsWindowCount | swift/callbacks/activation_cpu_offload.py:356-372 | `offloaded_group_count`, counted one layer at a time, is the number of windows that close before the layer; so the lookups `layer_window_map[offloaded_group_count]` and `[... - 1]` concern the right group. |
| OffloadWindow.WindowAfterGroup | swift/callbacks/activation_cpu_offload.py:275-284 | Group g is never freed or copied back before layer g has run, and is at least one layer later when N < L. |
| OffloadWindow.WindowIncreasing | swift/callbacks/activation_cpu_offload.py:275-284 | The window map is strictly increasing. |
| OffloadWindow.WindowGap | swift/callbacks/activation_cpu_offload.py:275-284 | Consecutive windows are L/N or L/N + 1 layers apart, the wider ones first. |
| OffloadWindow.WindowLast | swift/callbacks/activation_cpu_offload.py:275-284 | The last window closes at the last layer. |
| OffloadWindow.SendsAfterPushes | swift/callbacks/activation_cpu_offload.py:346-372 | Every group is sent after its last push if and only if N < L or N = 1; with N = L only group 0 is sent. |
| OffloadTheorems.AsyncStepTracks | swift/callbacks/activation_cpu_offload.py:290-422 | From every state that the closed form describes, every legal push, commit and pop succeeds, shows what the reference shows, and leaves the state that the closed form describes next. |
| OffloadTheorems.AsyncHandlerIsTransparent | swift/callbacks/activation_cpu_offload.py:290-422 | For all 1 <= N <= L, any number of training steps and any saved tensors (aliased views included): no assertion fails and no key is missing, every `tensor_pop` shows what the reference remembers, and between steps the handler is as it was built. |
| OffloadContents.BothGiveBack | swift/callbacks/activation_cpu_offload.py:189-323 | On every legal run of either handler, what a pop gives back has the elements, shape, type and device of the tensor that was last pushed at its place, field by field. |
| OffloadTheorems.AsyncRefinesSync | swift/callbacks/activation_cpu_offload.py:222-245 | On every legal run the asynchronous and the synchronous handler return the same contents, however many groups either offloads, and the synchronous one too ends as it was built. |
| OffloadTheorems.NoGroupsFails | swift/callbacks/activation_cpu_offload.py:346-357 | With N = 0 the first forward commit already fails, so the lower bound on N is needed. |
| OffloadTheorems.SyncCopiesExactly | swift/callbacks/activation_cpu_offload.py:222-245 | After any legal run the synchronous handler has one state for each tensor not taken back: a host copy exactly in the offloaded groups and for tensors the checker accepts. |
| OffloadTheorems.HeldExactly | swift/callbacks/activation_cpu_offload.py:355-372 | A group is referenced on the device exactly when it has live tensors and its window has not closed, or the schedule never sends it. |
| OffloadTheorems.HostCopySpan | swift/callbacks/activation_cpu_offload.py:346-422 | A group's host copy exists exactly from the forward commit that sends it to the backward commit that brings it back, so each group is offloaded once and reloaded once. |
| OffloadTheorems.FewGroupsHeld | swift/callbacks/activation_cpu_offload.py:529-533 | In every state of both passes at most two groups are held on the device, for N = L - 1 and the few small cases. |
| OffloadTheorems.TwoGroupsExactly | swift/callbacks/activation_cpu_offload.py:529-572 | "At most two groups in GPU memory" holds in every reachable state if and only if N = L - 1, or L <= 2, or N = L = 3. |
| OffloadHandler.AsyncDoubleBufferGroupOffloadHandler.TensorPush | swift/callbacks/activation_cpu_offload.py:290-310 | The fields after a push are the specified next state; a tensor the checker rejects is handed back as its own tag. |
| OffloadHandler.AsyncDoubleBufferGroupOffloadHandler.TensorPop | swift/callbacks/activation_cpu_offload.py:312-323 | Removes the state and the buffer of the tag and returns the tensor. |
| OffloadHandler.AsyncDoubleBufferGroupOffloadHandler.OnGroupCommitForward | swift/callbacks/activation_cpu_offload.py:374-379 | The fields after a forward commit are the specified next state. |
| OffloadHandler.AsyncDoubleBufferGroupOffloadHandler.OnGroupCommitBackward | swift/callbacks/activation_cpu_offload.py:400-422 | The fields after a backward commit are the specified next state. |
| OffloadHandler.SynchronizedGroupOffloadHandler.TensorPush | swift/callbacks/activation_cpu_offload.py:222-235 | Copies to the host at once, or keeps the tensor. |
| OffloadHandler.SynchronizedGroupOffloadHandler.TensorPop | swift/callbacks/activation_cpu_offload.py:237-245 | Copies back, or returns the kept tensor, and forgets the tag. |
| OffloadHandler.Replay | swift/callbacks/activation_cpu_offload.py:259-422 | Any legal run of training steps on a fresh object gives back, at every pop, the fields of the tensor that was last pushed there. |
| Packing.CalculateMatchedGroup | swift/dataset/packing.py:55-86 | The packing loop, and the bin-packing branch behind its contract, compute the packs and the carry-over that the theorems are about. |
| NextFit.StateExactly | swift/dataset/packing.py:55-79 | The packer's state after any items is the one and only division of them, in order, in which every closed pack is full or has no room for the next item, every pack was below the packing length and had room while it grew, and the open pack is not full. |
| NextFit.FinishedExactly | swift/dataset/packing.py:55-79 | A finished sequential call returns given packs if and only if they hold the items in order, each closed only when full or when the next item does not fit, and none left open longer. |
| PackingCalls.BinsInOrder | swift/dataset/packing.py:80-86 | Under bin packing the packs, followed by the bin that is carried over, are the bins in order. |
| Packing.AddAllKeeps | swift/dataset/packing.py:63-78 | Packing keeps the order and loses nothing: the packs and the open pack, in sequence, are what went in. |
| Packing.CarryOver | swift/dataset/packing.py:63-78 | Carrying the open pack over and packing it with the next batch is packing everything at once. |
| PackingDataset.CreatePackedIdx | swift/dataset/packing.py:161-176 | The worker's loop sends exactly the specified messages, and it terminates. |
| PackingCalls.WorkerCalls | swift/dataset/packing.py:161-176 | A worker makes one call for every batch of samples, on what the call before did not pack and then the new samples, only the last one finished; each message has the packs of its call and the number of its new samples. |
| PackingCalls.WorkerSendsBins | swift/dataset/packing.py:80-86 | Under bin packing every pack that a worker sends is a bin of some call. |
| PackingCalls.WorkerIsNextFit | swift/dataset/packing.py:161-176 | Under the sequential strategy a worker sends given packs if and only if they are the next-fit packs of its whole data. |
| PackingDataset.BatchingIsIrrelevant | swift/dataset/packing.py:161-176 | For every batch size the packs of the carry-over loop are those of one call on the whole input. |
| PackingDataset.GroupConserves | swift/dataset/packing.py:55-86 | A call hands every item out once, in packs or as carry-over; in order under the sequential strategy. |
| PackingDataset.WorkerConserves | swift/dataset/packing.py:161-176 | Every item handed to a worker is sent in exactly one pack, whatever the strategy. |
| PackingCollector.Collect | swift/dataset/packing.py:133-147 | For every interleaving of the workers' messages that is first-in first-out per worker, the loop stops exactly when all are taken, `packed_idx` is the workers' packs by rank, and each `packed_length` is the sum of its pack's lengths. |
| PackingTheorems.WorkerQueueForm | swift/dataset/packing.py:161-176 | A worker's last message, and only that one, has length -1, and all carry its rank. |
| PackingTheorems.PackedDataset | swift/dataset/packing.py:117-176 | For any split over workers and any batch size, the packs that the workers send hold every sample exactly once; sequentially they are in dataset order and each is within the packing length or a single sample. |
| PackingRun.SplitList | swift/utils/utils.py:379-388 | The contiguous split, at any ascending cut points from 0 to the length, loses and reorders nothing. |
| PackingRun.PackSamples | swift/dataset/packing.py:117-147 | Split, workers and collector together, for any interleaving in which each worker's messages keep their order: `packed_idx` holds the numbers 0 to n-1 once each and `packed_length` the total length of each pack's samples; sequentially the numbers come in order, and a pack is within the packing length or a single sample; with bins within the packing length so is every recorded length. |
| PackingTheorems.SequentialFits | swift/dataset/packing.py:58-78 | Every sequential pack is within the packing length or is a single sample. |
| PackingTheorems.NextFitBound | swift/dataset/packing.py:58-78 | Neighbouring packs together reach the packing length, floor(m/2) times the packing length is at most the total, and m is at most 2 OPT + 1. |
| IterablePacking.FetchDataOutQueue | swift/dataset/packing.py:252-270 | Whatever the order in which the pool finishes, the data is the carry-over and then the encoded samples in dataset order; dropped samples leave nothing behind. |
| IterablePacking.Iterate | swift/dataset/packing.py:282-304 | The rounds, with any completion order in each, yield the specified packs. |
| PackingCalls.RoundCalls | swift/dataset/packing.py:282-304 | What is yielded are the packs of one call for every full round and of a finished one for the samples left over, possibly none, each on what the call before did not pack and the rows of its round. |
| IterablePacking.RoundsAreOnePass | swift/dataset/packing.py:282-304 | Under the sequential strategy the packs do not depend on `packing_interval`: they are those of one pass over everything not dropped. |
| IterablePacking.IterableEmitsOnce | swift/dataset/packing.py:229-304 | Every sample that is not dropped is emitted exactly once, also when the dataset is an exact multiple of the interval; sequentially in dataset order. |
| IndexedDataset.Bisect | swift/dataset/indexed_dataset.py:126 | Binary search on an increasing list returns the number of entries not above the value. |
| IndexedDataset.ReadItem | swift/dataset/indexed_dataset.py:122-129 | The lookup, with the binary search of the shard offsets, gives what `ReaderAgrees` is about. |
| IndexedDataset.WriteHolds | swift/dataset/indexed_dataset.py:30-50 | A written batch keeps the invariant: offsets strictly increase, the shards concatenate to all pickles, and every item lies whole in the shard that bisection finds for it, even when the last shard is empty. |
| ShardSizes.FilesByChunk | swift/dataset/indexed_dataset.py:30-70 | At every moment of every run the batches written so far are grouped into files in order: every file but the last has at least a chunk and had less before its last batch, and the last has less than a chunk. |
| ShardSizes.DividedOnce | swift/dataset/indexed_dataset.py:42-50 | Batches can be divided into files in this way only once. |
| IndexedDataset.ReaderAgrees | swift/dataset/indexed_dataset.py:84-129 | On such a store `__getitem__` gives the item for every index, negative ones counted around from the end, and fails exactly past the end or on an empty dataset; `read_buffer` never rejects. |
| IndexedDataset.DatasetIsTheList | swift/dataset/indexed_dataset.py:30-70 | However `add_items` and the writer thread interleave, and for every chunk size, the finished dataset reads back as the list of all items ever added. |
| IndexedDataset.IndexedDatasetBuilder.AddItems | swift/dataset/indexed_dataset.py:52-56 | Puts the batch at the end of the writer's queue and touches nothing else. |
| IndexedDataset.IndexedDatasetBuilder.WriteOne | swift/dataset/indexed_dataset.py:30-50 | One turn of the writer takes the oldest batch, extends the index and the last file, and rotates the file when it is full. |
| IndexedDataset.IndexedDatasetBuilder.Finalize | swift/dataset/indexed_dataset.py:58-70 | Writes everything that is still queued. |
| RequestPool.EachRequestOnce | swift/infer_engine/transformers_engine.py:146-167 | Over every run of arrivals and fetches, the requests of a key are, in order of arrival, those served, then those in the pool, then those queued; every batch is non-empty, of one key and within the size bound. |
| RequestPool.FetchesDrain | swift/infer_engine/transformers_engine.py:146-167 | With no further arrivals the fetches give each key's requests in full portions, key after key by first arrival. |
| RequestPool.PoolEmptiesExactly | swift/infer_engine/transformers_engine.py:146-167 | With no further arrivals the pool empties in exactly the sum over the keys of ceil(n_k / B) fetches (one per key when B <= 0), not in fewer, and the next fetch returns None. |
| RequestPool.EntryHoldsItsKey | swift/infer_engine/transformers_engine.py:147-152 | The n_k of that sum: an entry holds exactly the waiting requests of its key. |
| RequestOrder.FetchTakes | swift/infer_engine/transformers_engine.py:146-167 | A fetch takes of the first key in the pool, or of the first request's when the pool is empty: the first `max_batch_size` of all that waits under that key, or everything when there is no limit or less is waiting. |
| RequestOrder.KeysByArrival | swift/infer_engine/transformers_engine.py:147-152 | Draining the queue leaves the entries where they are; new ones come after them in the order in which their keys first arrive, each with the arguments of that first request. |
| RequestPool.HookOfAnotherRequest | swift/infer_engine/transformers_engine.py:149-166 | A concrete run in which a batch carries the `pre_infer_hook` of a request that is not in it. |
| RequestHooks.OwnHooksExactly | swift/infer_engine/transformers_engine.py:146-167 | For all requests and every batch size: in every run in which just these arrive, however arrivals and fetches interleave, each batch runs under the hook of all its requests, if and only if requests of one key carry one hook. |
| RequestPool.TransformersEngine.FetchInferRequests | swift/infer_engine/transformers_engine.py:146-167 | Drains the queue into the pool and takes the batch, as specified. |
| BatchAlignment.BatchEncode | swift/infer_engine/infer_engine.py:320-338 | The encoded inputs and the failures with their positions, in order; in strict mode the error of the first failure. |
| BatchAlignment.AddErrorList | swift/infer_engine/infer_engine.py:340-344 | The in-place insertions compute what `AddErrorsIsMerge` is about. |
| BatchAlignment.AddErrorsIsMerge | swift/infer_engine/infer_engine.py:340-344 | For every pattern of failures, inserting the errors in ascending position gives the walk over the requests that takes the next output or the request's own error. |
| BatchAlignment.MergeAt | swift/infer_engine/infer_engine.py:340-344 | Position j of that walk holds request j's own error, or the output with the rank of request j among the encoded ones. |
| BatchAlignment.EachReplyIsItsOwn | swift/infer_engine/transformers_engine.py:190-195 | The worker hands every requester its own answer or its own encoding error; in strict mode the error of the first request that cannot be encoded goes to all, and so does whatever the engine raises. |
| BatchAlignment.InferIsAligned | swift/infer_engine/transformers_engine.py:637-646 | For every batch size: a run that returns has one item per request, in order, each its own. It raises the error of the first request that cannot be encoded, if it is strict, or an error of the engine; if the engine never raises, it raises exactly when it is strict and some request cannot be encoded. |
| BatchAlignment.InferInTurn | swift/infer_engine/transformers_engine.py:632-646 | The batches are the requests in turn, `max_batch_size` at a time, the last one possibly smaller; the result is all their items, or what the first of them that raises raised. |
| BatchAlignment.BatchSizeIsIrrelevant | swift/infer_engine/transformers_engine.py:632-646 | If the engine never raises and an answer depends on its own input only, every batch size gives the same result. |
| BatchAlignment.Infer | swift/infer_engine/transformers_engine.py:632-646 | The while loop, whose position may run past the end, computes that result; a non-positive size means all at once. |
| StreamText.DeltasAreSegments | swift/infer_engine/utils.py:54-93 | For every growing token list the printed deltas are, from the current print position on, the full segments: nothing is repeated or skipped whatever branch chose the cut. |
| StreamText.StreamPrintsAnswer | swift/infer_engine/utils.py:44-93 | A whole run prints the prefix and the decoded answer if and only if every segment keeps its first leading-space count (the prefix's for the first segment). |
| StreamText.BlankPrintedTwice | swift/infer_engine/utils.py:54-63 | A concrete run whose printed text has one blank more than the prefix and the answer. |
| StreamText.FinishingFirstCall | swift/infer_engine/utils.py:65-70 | A first call that already finishes prints the prefix only: the answer is lost unless it is empty. |
| StreamCuts.CallCut | swift/infer_engine/utils.py:76-84 | An unfinished call on a text that ends no line shows all of it if it ends in a Chinese character; if not, nothing new or up to the last blank, and no blank is held back. |
| StreamCuts.PiecesExactly | swift/infer_engine/utils.py:42-93 | The pieces of a run are given ones if and only if the first is the prefix and the others cut every segment right while it goes on and complete it when its line or the answer ends. |
| StreamText.InferStreamer.GetPrintableText | swift/infer_engine/utils.py:86-93 | The object's fields and the printed text are the specified ones. |
| StreamText.StreamRow | swift/infer_engine/utils.py:42-93 | The deltas of a row, call after call on one object. |
| StreamRows.ColumnIsRow | swift/infer_engine/transformers_engine.py:322-371 | A row's chunks in a batch are those it has on its own: other rows change nothing, and a pass that yields nothing loses nothing. |
| StreamRows.RowSpeaksOnce | swift/infer_engine/transformers_engine.py:323-369 | A row's chunks carry its number; only the last has a finish reason, and it has one exactly when the row finishes, 'stop' or 'length' by the branch that ended it; their texts are all that the row's printer printed; a finished row is silent. |
| StreamChunks.RowChunks | swift/infer_engine/transformers_engine.py:323-369 | Pass by pass: a row that has not finished has a chunk with the text printed then, and its finish reason if it finishes there; none when nothing was printed and it goes on, and none after it has finished. |
| StreamChunks.StreamIsGrid | swift/infer_engine/transformers_engine.py:322-371 | What is yielded are the lists of all passes in order, without those that hold no chunk. |
| StreamRows.RowTellsAnswer | swift/infer_engine/transformers_engine.py:323-369 | The texts of a finishing row are the prefix and the decoded answer if and only if its segments keep their leading blanks. |
| StreamRows.StreamPass | swift/infer_engine/transformers_engine.py:322-369 | One pass updates the latches and the printers of all rows in place, as specified row by row. |
| StreamRows.InferStream | swift/infer_engine/transformers_engine.py:289-371 | The generator's loop yields exactly the passes in which some row has a chunk. |
| StreamDelivery.EachStreamIsItsOwn | swift/infer_engine/transformers_engine.py:169-195 | Each requester gets exactly its own row's chunks in order, ending with exactly one that carries a finish reason; a missing chunk never ends a stream; a request that could not be encoded gets its own error and no chunk; after a crash a finished row's stream is still complete and an unfinished one ends with the exception. |
| StreamDelivery.EveryQueueIsClosed | swift/infer_engine/transformers_engine.py:178-195 | The last message of every queue, and no other, closes it: None after a normal run, the exception otherwise. |
| StreamDelivery.ServeBatch | swift/infer_engine/transformers_engine.py:175-195 | The worker's streaming loop leaves in every queue exactly what that theorem reads from it. |
| StreamDelivery.GenWrapper | swift/infer_engine/transformers_engine.py:532-545 | The consumer's loop stops at None, at an exception, or after the chunk with a finish reason. |
| MinimaxPieces.ToXmlIsFlat | swift/agent_template/minimax_m3.py:17-41 | The rendering of a value is the flat sequence of its tags and texts. |
| MinimaxPieces.ScanIsWalk | swift/agent_template/minimax_m3.py:102-116 | The depth loop on a rendered text moves tag by tag, counting the tags of its own name. |
| MinimaxRoundTrip.KeyedField | swift/agent_template/minimax_m3.py:91-119 | The depth counter finds the matching closing tag even under nesting of the same name. |
| MinimaxRoundTrip.KeyedFields | swift/agent_template/minimax_m3.py:91-119 | `_iter_keyed` on a rendered mapping yields exactly its entries other than None, in order. |
| MinimaxRoundTrip.MappingRoundTrip | swift/agent_template/minimax_m3.py:70-76 | A mapping text parses to the mapping exactly when it is not empty and every value comes back from its own rendering. |
| MinimaxExact.ItemsComeBack | swift/agent_template/minimax_m3.py:63-88 | The lazy pattern gives back a list exactly when each element comes back and holds no item tag, or only one in a last entry "item": "". |
| MinimaxExact.RoundTripExactly | swift/agent_template/minimax_m3.py:17-119 | For every value whose strings hold no token and whose keys the tag pattern matches: parsing its rendering gives it back if and only if it has no None, no empty container, no mapping starting with the key item, no padded or JSON-like string, and no item tag inside a list element (but for the one surviving shape). |
| MinimaxExact.NestedListIsCut | swift/agent_template/minimax_m3.py:63-88 | A list in a list is cut at the inner closing tag: `[["a"]]` comes back as `[[]]`. |
| MinimaxParser.KeyedPairs | swift/agent_template/minimax_m3.py:91-119 | The outer loop yields the specified pairs, and terminates. |
| MinimaxParser.ScanToClose | swift/agent_template/minimax_m3.py:102-116 | The depth loop reaches the specified position or gives up, and terminates. |
| MinimaxParser.ParseXmlValue | swift/agent_template/minimax_m3.py:52-82 | The parser's loops compute the function that `RoundTripExactly` is about. |
| MinimaxResponses.KeyedSkipsText | swift/agent_template/minimax_m3.py:97-99 | Text before the next opening tag, and so between entries, changes nothing in what `_iter_keyed` yields. |
| MinimaxResponses.TaggedSkipsText | swift/agent_template/minimax_m3.py:85-88 | Text before an item, or before a block of tool calls, is passed over. |
| MinimaxResponses.NoEntryIsText | swift/agent_template/minimax_m3.py:70-82 | A text that starts like a mapping but has no complete entry stays a text. |
| MinimaxResponses.AssignAgain | swift/agent_template/minimax_m3.py:70-74 | A key that comes twice keeps its place and takes the later value. |
| MinimaxRoundTrip.StripOf | swift/agent_template/minimax_m3.py:59 | Stripping leaves what stands between the blanks at both ends. |
| FormatExamples.MinimaxExample | swift/agent_template/minimax_m3.py:220-237 | The text of one small block of calls, tag by tag. |
| MinimaxCalls.CallExactly | swift/agent_template/minimax_m3.py:48 | On a formatted call the pattern captures the name and the whole arguments if and only if no key named invoke is rendered anywhere in them. |
| MinimaxCalls.BlockExactly | swift/agent_template/minimax_m3.py:49 | The block of formatted calls is found whole, and alone, if and only if no key named tool_call is rendered in any argument. |
| MinimaxCalls.ArgumentsAre | swift/agent_template/base.py:317-350 | Without a schema the formatted arguments decode to one value per entry other than None, in order and under the same keys. |
| MinimaxCalls.ToolCallsComeBack | swift/agent_template/minimax_m3.py:140-237 | `get_toolcall` of `_format_tool_calls`, without schemas, returns as many calls as were formatted, and the same ones if and only if names are trimmed and every argument value is one that `RoundTripExactly` gives back. |
| MinimaxCalls.FormatCalls | swift/agent_template/minimax_m3.py:220-237 | The formatting loops, with None arguments skipped. |
| MinimaxCalls.DecodeSchemaArgs | swift/agent_template/base.py:332-350 | The decoding loop without a schema. |
| MinimaxCalls.ReadToolcalls | swift/agent_template/minimax_m3.py:140-151 | The loops over blocks and calls. |
| Gemma4.TranslateInPlace | swift/agent_template/gemma4.py:188-198 | The loop that rewrites the parts in place computes the translation. |
| Gemma4.FormatInvocations | swift/agent_template/gemma4.py:133-147 | The formatting loop; arguments that are not a dictionary are dropped. |
| Gemma4.ReadToolcalls | swift/agent_template/gemma4.py:211-221 | The parsing loop over all matches. |
| Gemma4Translation.TranslationIsBare | swift/agent_template/gemma4.py:188-198 | Splitting at the quote token and treating parts by parity is one left-to-right scan of the text. |
| Gemma4Translation.KeyTakenExactly | swift/agent_template/gemma4.py:197 | Before a colon the pattern takes a whole key if and only if it is an identifier. |
| Gemma4Translation.TranslatesValue | swift/agent_template/gemma4.py:188-198 | Quote parity is compositional: inside any context each value is translated on its own, and no bare word is mistaken for a key. |
| Gemma4Calls.SortKeysSorts | swift/agent_template/gemma4.py:34 | The keys are put in ascending order and none is lost. |
| Gemma4Calls.InsertionOrderIsIrrelevant | swift/agent_template/gemma4.py:25-41 | The text of a dictionary does not depend on the order in which its keys were inserted. |
| Gemma4Calls.FormatIsPrint | swift/agent_template/gemma4.py:25-41 | Sorting while printing is printing the value with all its dictionaries sorted. |
| Gemma4Calls.TranslatesDsl | swift/agent_template/gemma4.py:188-198 | For every value whose strings hold no quote token and whose keys are identifiers, translating its DSL text gives its compact JSON text with sorted keys. |
| Gemma4Calls.ArgumentsReadBack | swift/agent_template/gemma4.py:200-209 | The formatted arguments parse back to the dictionary; anything else reads back as the empty one. |
| Gemma4Calls.MatchFormatted | swift/agent_template/gemma4.py:212-215 | The pattern captures the name, and the whole arguments if and only if they do not contain the closing marker. |
| Gemma4Calls.ToolCallsComeBack | swift/agent_template/gemma4.py:133-221 | `get_toolcall` of `_format_tool_calls` returns the same calls in order. |
| Gemma4Calls.FindCallsSkipsText | swift/agent_template/gemma4.py:211-221 | Text before a call, and so between calls, is passed over. |
| Gemma4Calls.UnreadableIsEmpty | swift/agent_template/gemma4.py:200-209 | Arguments that cannot be read or are no dictionary become the empty one. |
| FormatExamples.GemmaExample | swift/agent_template/gemma4.py:25-41 | The text of one small call, with its keys in ascending order. |
| KimiK3.UnescapeEscape | swift/agent_template/kimi_k3.py:34-40 | Attribute escaping is invertible on every string. |
| KimiK3.NoQuoteLeft | swift/agent_template/kimi_k3.py:34-36 | An escaped value holds no quote, so it cannot end its attribute. |
| KimiK3.EscapesEach | swift/agent_template/kimi_k3.py:34-36 | Every character is escaped by itself, an ampersand and a quote as entities. |
| KimiK3.FormatCalls | swift/agent_template/kimi_k3.py:103-120 | The two formatting loops. |
| KimiK3.ReadToolcalls | swift/agent_template/kimi_k3.py:62-89 | The parsing loops, with the argument dictionary filled key by key. |
| KimiRoundTrip.ArgsComeBack | swift/agent_template/kimi_k3.py:76-84 | The arguments of a call come back: keys, typed values and order. |
| KimiRoundTrip.ArgsAsWritten | swift/agent_template/kimi_k3.py:42-57 | The text of a call has, for each argument in order, its key, the word for its type (boolean, null, number, string, object or array) and the string itself or the JSON text of any other value. |
| KimiRoundTrip.ArgSpelled | swift/agent_template/kimi_k3.py:110-113 | The text of an argument, word for word. |
| KimiRoundTrip.RawSpelled | swift/agent_template/kimi_k3.py:114-117 | The text of a raw JSON block, word for word. |
| KimiRoundTrip.FormattedCalls | swift/agent_template/kimi_k3.py:103-120 | Call i of the formatted text has the header with its escaped name and the number i + 1, its body and its closing text, between the calls before and after it. |
| KimiRoundTrip.PlainHeaderIsRead | swift/agent_template/kimi_k3.py:63-68 | The index may be missing from the header of a call. |
| KimiRoundTrip.UnreadableStaysText | swift/agent_template/kimi_k3.py:78-84 | A value that is no JSON stays a text, unless its type is null. |
| KimiRoundTrip.AssignAgain | swift/agent_template/kimi_k3.py:76-84 | An argument that comes twice keeps its place and takes the later value. |
| KimiRoundTrip.BodyKind | swift/agent_template/kimi_k3.py:71-75 | Named arguments hold no raw JSON block, and a raw block is found whole. |
| KimiRoundTrip.BodyEnds | swift/agent_template/kimi_k3.py:63-68 | The body of a call ends at its own closing text. |
| KimiRoundTrip.ToolCallsComeBack | swift/agent_template/kimi_k3.py:34-120 | `get_toolcall` of `_format_tool_calls` returns the same names, keys, typed values and order, for trimmed names and payloads without opening or closing markers. |
| Dispatcher.StopTogetherExactly | swift/dataloader/dispatcher.py:48-61 | All ranks take part in the same scatters and stop together if and only if the first group of batches with a None in it is all None. |
| Dispatcher.RankLeftAlone | swift/dataloader/dispatcher.py:48-61 | Two ranks and the batches x, None: rank 1 stops after one scatter and rank 0 enters a second one alone. |
| Dispatcher.DispatcherProtocol | swift/dataloader/dispatcher.py:35-61 | For every world size W, base of n batches other than None and skip with skip*W <= n: all ranks take part in n/W - skip + 1 scatters and stop together, and the k-th batch of rank r is base[(skip + k)*W + r], so exactly the last n mod W are dropped; a longer skip fails at rank 0. |
| Dispatcher.SkipBatches | swift/dataloader/dispatcher.py:35-38 | Skipping takes skip*W batches off the iterator, or fails when there are fewer. |
| Dispatcher.IterateSource | swift/dataloader/dispatcher.py:45-61 | Rank 0's loop scatters and yields the specified batches. |
| Dispatcher.IteratePeer | swift/dataloader/dispatcher.py:48-61 | Any other rank's loop yields what is scattered to it up to the first None. |

## Left out

- Torch tensors, streams, pinned memory, FSDP wrapping and autograd hooks around the offload handler: foreign calls. A tensor is its view key and its data; where a reloaded tensor lands and its strides are not compared.
- Two saved tensors with the same view key but different data: the source takes them for one tensor too, so runs are restricted to coherent ones.
- `FSDPParameterFilter` and the check for fake tensors are one flag of a saved tensor.
- IterablePacking.Iterate: does not model `cyclic=True`, which never ends, nor the error raised when a worker process dies (packing.py:259-264).
- Packing.CalculateMatchedGroup: `binpacking.to_constant_volume` belongs to another library and is a function with a contract.
- PackingRun.SplitList: where `np.linspace` puts the cut points is left open, and the strided branch, which packing does not take, is not modelled.
- Packing, list lengths: `sum(length)` for list-valued lengths (packing.py:163) is taken as already summed.
- IndexedDataset.WriteOne: `length_list`, the write of the index file and the operating system's buffering are not modelled; CHUNK_SIZE is any positive number.
- IndexedDataset.AddItems: the queue's bound of 1000 batches only makes the producer wait.
- StreamText.StreamPrintsAnswer: tokenizers whose decoding is not a homomorphism, and stop tokens cut off at the end of an answer, are outside its assumption.
- StreamRows.StreamPass: log probabilities, usage numbers and parsed tool calls of a chunk are not carried along, and each row's printer is a value here; `StreamText.InferStreamer` is the object.
- StreamDelivery.ServeBatch: event loops and threads are sequences of messages; a slow consumer changes nothing in the source either.
- Liveness between keys of the request pool is not claimed: the oldest key is served until it is empty.
- Every MiniMax-M3 theorem: the namespace token is one symbol that no payload spells out, and keys contain only what the tag pattern matches. A number is known by an integer, its value or an identity.
- MinimaxCalls.ToolCallsComeBack: names are non-empty and hold neither a quote nor the token; decoding by a tool's schema, which keeps declared strings as they are, is not modelled.
- Gemma4Calls.ToolCallsComeBack: names are trimmed, non-empty and without an opening brace, and the closing marker does not occur in the arguments; `_format_parameters` and the tool declarations are not modelled.
- Gemma4.ReadToolcalls: the fallback to the ReAct format when no call is found rests on `split_str_parts_by`, which is not part of this model; the same holds for KimiK3.ReadToolcalls and MinimaxCalls.ReadToolcalls.
- KimiRoundTrip.ToolCallsComeBack: a JSON value other than a string or null is known by its type and an identity; duplicate keys cannot occur in a dictionary.
- Dispatcher.IterateSource: the collective itself (`scatter_object_list`) and the move to a device are foreign calls.
- The vLLM, SGLang and LMDeploy engines, the client, hub, command line, arguments and Web UI: plumbing and option validation.
- The other agent templates: the same printing idiom with codecs that drop types.
- `swift/dataloader/shard.py`, `swift/callbacks/temperature_calibration.py` and `swift/dataset/dataset_syntax.py`: stride arithmetic, floating-point numerics and a printer that does not invert its parser.
