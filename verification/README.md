# Verified models of GcRpc's data structures and receive path

This project models the stateful core of GcRpc, an RPC framework on io_uring, and proves what that core promises:

- the lock-free queue behind the idle-connection pool (`concurrentqueue.h`, a vendored library): the reference-counted
  free list of blocks, the ticket protocol by which consumers obtain elements, the life of a block, the growing circular
  block index, and the composition of the last three;
- the linked queue with many producers and one consumer (`lockfreequeue.h`);
- the red-black tree, the skip list and the LRU cache;
- the receive path: ring buffer, frame format with its protobuf header, and the state machine that reassembles requests;
- the counters of the connection manager, and base64.

## How to read it

| files | subject |
|---|---|
| `FreeList.dfy`, `Tickets.dfy`, `Blocks.dfy`, `MpscQueue.dfy` | lock-free algorithms as state machines: every atomic access of one thread is one step, steps of all threads interleave in any order, and a weak compare-exchange may fail for no reason. Each theorem is about all runs from an initial state |
| `BlockIndex.dfy` | the block index: every store of the producer and of a releasing consumer is one step, and a lookup, which can be overtaken by all of them, goes on load by load; the producer's operations are methods of an object |
| `IndexedBlocks.dfy` | the machine of `Blocks.dfy` with that index in place of its map; every run of it is one of `Blocks.dfy` |
| `Multimap.dfy`, `RbShape.dfy`, `RbRemoval.dfy`, `RedBlackTree.dfy`, `SkipList.dfy` | ordered multimaps and the two pointer structures that implement them; `RbRemoval.dfy` is about which removals keep the colouring rules |
| `LruCache.dfy`, `LruHistory.dfy` | the cache as a hash map and a doubly linked list, and what it holds after any history |
| `RingBuffer.dfy`, `Varint.dfy`, `RpcHeader.dfy`, `RpcProtocol.dfy`, `FrameReassembly.dfy` | from bytes in the ring buffer to requests |
| `ConnectionPool.dfy`, `Base64.dfy`, `Common.dfy` | connection counters, base64, shared definitions |

Pointer structures live in a memory that maps addresses to records; a method reads and overwrites the records as the
code does, and addresses may be given out again after they were freed. A ghost field (`tree`, `towers`, `cells`) says
what the memory stands for. In the lock-free models a history (`log`, `moved`, `out`) and a flag for accesses that must
never happen (`fault`) are part of the state. Lemmas switch Dafny's automatic induction off, so every induction is
written out.

Where a promise does not hold for all inputs, the exact condition is proved, and an input that fails is given:

| promise | exact condition | input that fails |
|---|---|---|
| a frame is read back by the one-shot parser | `RpcProtocol.FrameRoundTrip` | `RpcProtocol.HugeBodyLost` |
| the stages agree with the one-shot parser | `RpcProtocol.StagesAgree` | `RpcProtocol.LongBodyLost` |
| decoding undoes encoding | `Base64.RoundTrip` | `Base64.ZerosLoseOne` |
| append extends the contents or throws | `RingBuffer.Buffer.Append` | `RingBuffer.OverrunLosesAll` |
| a read keeps the bytes at hand | `FrameReassembly.SurvivesIfFits` | any chunk of one byte more than is free |
| removal keeps the red-black rules | `RbRemoval.RepairKeeps`, `RedBlackTree.RbTree.Remove` | `RbRemoval.RulesBroken` |
| a section arrives | `FrameReassembly.SectionArrives` | any section of 1024 bytes |

## Model

| member | source | states |
|---|---|---|
| FreeList.Apply | include/data_structure/concurrentqueue.h:1460-1539 | every atomic access of `add`, `try_get` and `add_knowing_refcount_is_zero` is one step, and no step leaves a pointer that is neither null nor a node; what the calls come to is TryGetAnswers, AloneTakesFirst and AloneAddsFirst |
| FreeList.StepKeepsInv | include/data_structure/concurrentqueue.h:1460-1539 | each step of each thread keeps the protocol invariant: the reference word of a node is fixed by its phase and its holders, the list is a chain without repetition, and `next` of a node cannot change while a holder is about to pop it |
| FreeList.RunInv | include/data_structure/concurrentqueue.h:1453-1539 | every state of every run, from any set of fresh nodes, satisfies that invariant |
| FreeList.Exclusivity | include/data_structure/concurrentqueue.h:1474-1511 | a node is never with two owners, takers or adders at once, one that a client or a taker has is not reachable from the head, and the assertion in `try_get` never fails |
| FreeList.NoAba | include/data_structure/concurrentqueue.h:1488-1499 | the `next` that `try_get` read is still the node's own when its CAS on the head is tried |
| FreeList.Accounting | include/data_structure/concurrentqueue.h:1467-1538 | the low bits of a node's word are the list's reference plus the references threads hold, and never overflow |
| FreeList.NoLoss | include/data_structure/concurrentqueue.h:1496-1538 | a node that no client owns is on the list, being taken or added by a thread, or flagged while some thread still holds it |
| FreeList.LastHolderAdds | include/data_structure/concurrentqueue.h:1501-1507 | a holder of a flagged node never takes it, and the last one becomes the thread that adds it |
| FreeList.Quiescence | include/data_structure/concurrentqueue.h:1460-1539 | with no call in progress every node is with a client or on the list exactly once, with its word 0 or 1 |
| FreeList.TryGetAnswers | include/data_structure/concurrentqueue.h:1474-1511 | whatever the other threads do, a call of `try_get` returns null only if the list was empty at some moment of it, and otherwise a node that nobody owned and that this call took off the front of the list |
| FreeList.TurnsBackOvertaken | include/data_structure/concurrentqueue.h:1480-1499 | `try_get` tries again only when its node has left the list or its front, or other threads have changed its word |
| FreeList.AloneTakesFirst | include/data_structure/concurrentqueue.h:1480-1499 | left alone, `try_get` takes the first node of the list in seven steps, and changes nothing else |
| FreeList.AloneFindsNothing | include/data_structure/concurrentqueue.h:1479-1511 | on an empty list it returns null in one step |
| FreeList.AloneAddsFirst | include/data_structure/concurrentqueue.h:1460-1472 | left alone, `add` puts the node in front of the list |
| Tickets.GrantsWithinTail | include/data_structure/concurrentqueue.h:2555-2563 | the counting argument: tickets are issued in order, every failed one has been given back, so the tickets granted never exceed the tail |
| Tickets.StepKeepsInv | include/data_structure/concurrentqueue.h:2551-2620 | each step of `dequeue`, `dequeue_bulk` and the producer keeps the ticket invariant |
| Tickets.GrantsNeverExceedTail | include/data_structure/concurrentqueue.h:2555-2615 | in every run the grants stay within `tailIndex`, and optimistic - overcommit = head + tickets in flight |
| Tickets.ElementsAreEnqueuedAndExclusive | include/data_structure/concurrentqueue.h:2790-2802 | every index obtained from `headIndex.fetch_add` is already enqueued and is obtained by one consumer only |
| Tickets.QuiescentConsumerIsServed | include/data_structure/concurrentqueue.h:2780-2803 | overcommit pays failed tickets back exactly: a lone consumer is granted min(max, tail - head) elements |
| Tickets.DequeueObtains | include/data_structure/concurrentqueue.h:2780-2802 | whatever the other consumers do, a call obtains at most max elements, and fewer, or none, only if at some moment of it the elements enqueued before it were, but for these, taken or claimed by others, up to tickets that others gave back during the call |
| Tickets.UndisturbedObtains | include/data_structure/concurrentqueue.h:2551-2563 | without other consumers at work that means everything that was there |
| Tickets.CircularIsLess | include/data_structure/concurrentqueue.h:478-484 | the modular comparison equals `<` when the distance is below half the range |
| Blocks.CounterAdded | include/data_structure/concurrentqueue.h:1617-1635 | adding the moved indices of one block keeps its counter equal to the number of its indices that are done, at most the block size |
| Blocks.FullBlock | include/data_structure/concurrentqueue.h:1631-1633 | a full counter means that every slot of the block has been moved out |
| Blocks.ElementIsThere | include/data_structure/concurrentqueue.h:2565-2570 | once a consumer has the block of its index, the slot there holds the element that was enqueued at that index; here the lookup is an access to a map, IndexedBlocks has the real one |
| Blocks.StepSound | include/data_structure/concurrentqueue.h:2487-2613 | each step of the producer and of each consumer keeps the invariant of blocks, counters, slots and map entries, whether or not a requisition gets a block |
| Blocks.RunSound | include/data_structure/concurrentqueue.h:2487-2620 | so does every run |
| Blocks.NoFault | include/data_structure/concurrentqueue.h:2563-2612 | no run misses an entry of the map, reads an empty slot, overfills a counter, returns a block twice or constructs over an element |
| Blocks.ConsumedIsEnqueued | include/data_structure/concurrentqueue.h:2544-2570 | what is moved out at an index is what enqueue was called with, for the call that advanced the tail over that index |
| Blocks.LogIsEnqueued | include/data_structure/concurrentqueue.h:2487-2549 | the elements enqueued are the arguments of the calls that advanced the tail, in their order |
| Blocks.EnqueueAnswers | include/data_structure/concurrentqueue.h:2487-2549 | a call of enqueue appends its argument and nothing else, unless it asked for a block and got none; then it appends nothing |
| Blocks.StepProduces | include/data_structure/concurrentqueue.h:2487-2549 | every producer step keeps the element and brings the call nearer to its end, so that it takes at most five |
| Blocks.DequeueDelivers | include/data_structure/concurrentqueue.h:2563-2617 | when a consumer returns, all elements of its tickets have been moved out, none of them was before, and each is what enqueue was called with for its index |
| Blocks.ConsumerProgresses | include/data_structure/concurrentqueue.h:2563-2617 | every step of a consumer brings it nearer to its next element or to its return |
| Blocks.ConsumedOnce | include/data_structure/concurrentqueue.h:2804-2822 | every element is moved out at most once, by one consumer |
| Blocks.BlockReturnedOnce | include/data_structure/concurrentqueue.h:2600-2608 | one consumer sees the counter reach the block size, only after all slots of the block are consumed, and gives the block back once |
| Blocks.NothingLost | include/data_structure/concurrentqueue.h:2487-2620 | between calls exactly the elements from `headIndex` on are in their slots, and every block is free or in the index with such an element |
| IndexedBlocks.StepKeepsInv | include/data_structure/concurrentqueue.h:2487-2620 | with the index in place of the map, each load and store of the producer and of any consumer keeps an invariant by which its state is one that Blocks reaches, the index stands for the map, and every lookup in progress is on its way to the right entry |
| IndexedBlocks.Refines | include/data_structure/concurrentqueue.h:2487-3009 | so in every run, whatever the interleaving, the index behaves like the map, and no step of it fails |
| IndexedBlocks.NextLookupFinds | include/data_structure/concurrentqueue.h:2858-2870 | when `dequeue_bulk` leaves a block, adding one to its slot and masking, in the header it loaded at its start, leads on its way to the next block |
| IndexedBlocks.LookupFinds | include/data_structure/concurrentqueue.h:2804-2814 | for the first block of a dequeue and every further one, the slot computed holds the entry with the base of that block as its key and that block as its value |
| IndexedBlocks.ReleasesEntry | include/data_structure/concurrentqueue.h:2858-2867 | the entry that a consumer clears, through the slot it has held since its lookup, is the one of the block it emptied |
| IndexedBlocks.InitialIndex | include/data_structure/concurrentqueue.h:2424-2430 | the constructor's call of new_block_index makes an index that such a run starts from |
| IndexedBlocks.ConsumedIsEnqueued | include/data_structure/concurrentqueue.h:2487-2620 | with the real index, what is moved out at an index is what enqueue was called with, for the call that advanced the tail over that index |
| IndexedBlocks.EnqueueAnswers | include/data_structure/concurrentqueue.h:2487-2549 | with the real index, a call of enqueue appends its argument and nothing else, unless the index had no room and was not enlarged, or no block was found; then it appends nothing |
| IndexedBlocks.DequeueDelivers | include/data_structure/concurrentqueue.h:2804-2872 | with the real index, a consumer that returns has moved out all elements of its tickets, none of them moved before, each the one that enqueue was called with |
| BlockIndex.MaskWraps | include/data_structure/concurrentqueue.h:2908 | the bitwise and with capacity - 1 goes round the ring, also from -1, because capacities are powers of two |
| BlockIndex.CopyRing | include/data_structure/concurrentqueue.h:2983-2992 | the copying loop yields the entries oldest first |
| BlockIndex.NewEntries | include/data_structure/concurrentqueue.h:2993-2997 | fresh entries have invalid keys and arbitrary values |
| BlockIndex.GrownOk | include/data_structure/concurrentqueue.h:2967-3009 | publishing a doubled header keeps every header, old and new, in step with the ring of entries |
| BlockIndex.AfterKeyOk | include/data_structure/concurrentqueue.h:2909-2913 | the key store of an insertion keeps the index consistent, also when it takes over the cleared oldest entry, before the tail moves |
| BlockIndex.AfterTailOk | include/data_structure/concurrentqueue.h:2914 | so does the store of the tail |
| BlockIndex.AfterValueOk | include/data_structure/concurrentqueue.h:2534 | and the store of the block |
| BlockIndex.AfterRewindOk | include/data_structure/concurrentqueue.h:2936-2940 | and moving the tail back while the value is still the old one |
| BlockIndex.AfterClearOk | include/data_structure/concurrentqueue.h:2510-2512 | and the store of null that follows |
| BlockIndex.ReleasedOk | include/data_structure/concurrentqueue.h:2606 | so does a consumer clearing any entry, in any order |
| BlockIndex.ReaderStarts | include/data_structure/concurrentqueue.h:2955 | loading the header starts a lookup of any live block |
| BlockIndex.ReaderLoadsTail | include/data_structure/concurrentqueue.h:2956 | loading the tail of that header, current or replaced, continues it |
| BlockIndex.ApplyKeepsReader | include/data_structure/concurrentqueue.h:2901-2940 | at every one of its stages, a lookup in progress survives every store of an insertion, a rewind, a release or a doubling, as long as its block is live, or, for one that holds a slot, the next block |
| BlockIndex.RunKeepsReader | include/data_structure/concurrentqueue.h:2804-2870 | and so any run of them, for a bulk dequeue with several blocks still to come |
| BlockIndex.ReaderLoadsKey | include/data_structure/concurrentqueue.h:2957-2962 | the key at that tail is valid, and the modular offset arithmetic gives the slot of the block |
| BlockIndex.SlotFinds | include/data_structure/concurrentqueue.h:2813-2814 | that slot holds the entry whose key is the base of the block and whose value is the block |
| BlockIndex.ReaderMovesOn | include/data_structure/concurrentqueue.h:2869 | the next slot of the same header, replaced or not, belongs to the next block |
| BlockIndex.Index.NewBlockIndex | include/data_structure/concurrentqueue.h:2967-3009 | new_block_index makes exactly the grown state, or fails and changes nothing |
| BlockIndex.Index.InsertBlockIndexEntry | include/data_structure/concurrentqueue.h:2901-2934 | succeeds exactly when there is a header and room, or a larger index can be allocated; returns the entry for the next block |
| BlockIndex.Index.StoreBlock | include/data_structure/concurrentqueue.h:2533-2534 | the inserted entry gets its block |
| BlockIndex.Index.RewindBlockIndexTail | include/data_structure/concurrentqueue.h:2936-2940 | a failed enqueue moves the tail back to the block before; clearing the entry is the next store |
| BlockIndex.Index.ClearEntry | include/data_structure/concurrentqueue.h:2512 | the store of null that ends the rewind; the blocks in the index stay |
| BlockIndex.InsertionTakenBack | include/data_structure/concurrentqueue.h:2504-2514 | an insertion that gets no block leaves no trace: afterwards the index holds the same blocks, with room for the same next one |
| BlockIndex.Index.ReleaseEntry | include/data_structure/concurrentqueue.h:2604-2607 | a consumer takes its block out of the index |
| BlockIndex.Index.GetBlockIndexEntryForIndex | include/data_structure/concurrentqueue.h:2942-2947 | for every index of a live block, the entry of that block |
| BlockIndex.Index.GetBlockIndexIndexForIndex | include/data_structure/concurrentqueue.h:2949-2965 | the slot of that block, through a division that is exact and a mask |
| MpscQueue.AppendStep | include/data_structure/lockfreequeue.h:36-37 | the tail CAS appends the node to the order of elements, before it is linked |
| MpscQueue.LinkStep | include/data_structure/lockfreequeue.h:38 | the late link connects exactly the node that preceded it |
| MpscQueue.AdvanceHeadStep | include/data_structure/lockfreequeue.h:50-51 | the consumer takes the oldest element |
| MpscQueue.DeleteStep | include/data_structure/lockfreequeue.h:54 | the deleted node is the old head, and nobody refers to it |
| MpscQueue.StepKeepsInv | include/data_structure/lockfreequeue.h:33-62 | every step of every producer and of the consumer keeps the queue invariant |
| MpscQueue.DequeuesInOrder | include/data_structure/lockfreequeue.h:33-62 | the values dequeued are always a prefix of the arguments of enqueue, in the order of the tail CASes |
| MpscQueue.LogIsPublished | include/data_structure/lockfreequeue.h:33-43 | the elements of the queue's history are the arguments of the calls whose CAS changed the tail, in that order |
| MpscQueue.EnqueuePublishesOnce | include/data_structure/lockfreequeue.h:33-43 | a call of enqueue, interleaved with anything, publishes its argument exactly once before it returns |
| MpscQueue.AloneEnqueues | include/data_structure/lockfreequeue.h:33-43 | left alone, it appends and links its node in three steps |
| MpscQueue.TrueMeansOldest | include/data_structure/lockfreequeue.h:46-55 | `true` is returned with the oldest element not yet dequeued |
| MpscQueue.AloneDequeues | include/data_structure/lockfreequeue.h:45-61 | once the producers have returned, dequeue delivers the oldest element, or `false` when there is none |
| MpscQueue.MemorySafe | include/data_structure/lockfreequeue.h:35-55 | no step touches a freed node even when addresses are reused, no node is deleted twice, and the spin finds its flag set |
| MpscQueue.FalseMeansEmptyOrUnlinked | include/data_structure/lockfreequeue.h:46-59 | a step returns `false` exactly when it has loaded the head and nothing enqueued is left, or the oldest element's node is not linked yet |
| Multimap.InsertedIsSorted | include/data_structure/rbtree.h:180-191 | inserting in front of the first key that is not smaller keeps the order and adds one entry |
| Multimap.OneRemovedIsSorted | include/data_structure/rbtree.h:70-74 | removing one entry keeps the order |
| Multimap.OneRemovedMultiset | include/data_structure/rbtree.h:70-74 | and takes exactly one entry of that key |
| RbShape.PlugInOrder | include/data_structure/rbtree.h:135-151 | the in-order sequence of a tree is what is left of a subtree, the subtree, and what is right of it |
| RbShape.PlugBalanced | include/data_structure/rbtree.h:196-256 | a balanced subtree in a fitting context gives a balanced tree |
| RbShape.UnplugBalanced | include/data_structure/rbtree.h:337-367 | every subtree of a balanced tree is balanced, with equal black heights around it |
| RbShape.HeightBound | include/data_structure/rbtree.h:196-256 | 2^height <= (size + 1)^2, that is height <= 2 log2(size + 1) |
| RedBlackTree.LeftRotation | include/data_structure/rbtree.h:135-151 | the six link assignments of left_rotate turn one tree into the rotated tree, in place, parents included |
| RedBlackTree.RightRotation | include/data_structure/rbtree.h:153-169 | the same for right_rotate |
| RedBlackTree.RotationsUndo | include/data_structure/rbtree.h:135-169 | the rotations are inverse to each other |
| RedBlackTree.RecoloredClimbs | include/data_structure/rbtree.h:205-211 | recolouring parent, uncle and grandparent moves the possible red-red edge two levels up and breaks no other rule |
| RedBlackTree.FixedClimbs | include/data_structure/rbtree.h:212-249 | in each of the four rotation cases all rules hold afterwards |
| RedBlackTree.DoneClimbing | include/data_structure/rbtree.h:200 | when the loop ends the tree is a red-black tree |
| RedBlackTree.SiblingPresent | include/data_structure/rbtree.h:340-347 | black heights guarantee the sibling and the nephews that the removal fixup dereferences, so the sentinel is never overwritten |
| RedBlackTree.SuccessorSwap | include/data_structure/rbtree.h:314-320 | swapping with the successor and removing the successor's node removes the original entry |
| RedBlackTree.ChildSwap | include/data_structure/rbtree.h:322-326 | swapping with the only child, a leaf, and removing it removes the original entry |
| RbRemoval.RepairKeeps | include/data_structure/rbtree.h:337-394 | the fixup makes up for the missing black node if and only if a red sibling's near child has no red children, a far nephew is red, and a climb starts at a black parent |
| RbRemoval.NothingToRepair | include/data_structure/rbtree.h:361-365 | going on from a red parent that was made black always breaks the rules |
| RbRemoval.ChildlessOut | include/data_structure/rbtree.h:326-333 | taking out a childless node keeps the rules if and only if it is red or its surroundings can be repaired |
| RbRemoval.KeepsAtSuccessor | include/data_structure/rbtree.h:312-320 | for a node with two children this is decided at its successor |
| RbRemoval.RulesBroken | include/data_structure/rbtree.h:337-394 | five entries, of which removing the first one breaks the rules |
| RedBlackTree.LoweredSides | include/data_structure/rbtree.h:342-391 | a rotation around the deleted node's parent leaves the entries left and right of it alone |
| RedBlackTree.RbTree.constructor | include/data_structure/rbtree.h:24-30 | the empty tree |
| RedBlackTree.RbTree.LeftRotate | include/data_structure/rbtree.h:135-151 | rotates the tree in place, in-order sequence and sentinel unchanged; does nothing without a right child |
| RedBlackTree.RbTree.RightRotate | include/data_structure/rbtree.h:153-169 | the mirror image |
| RedBlackTree.RbTree.FixupRound | include/data_structure/rbtree.h:200-254 | one round keeps the loop's state and shortens the way to the root |
| RedBlackTree.RbTree.RbtreeInsertFixup | include/data_structure/rbtree.h:196-256 | terminates with a red-black tree of the same in-order sequence |
| RedBlackTree.RbTree.FindPlace | include/data_structure/rbtree.h:172-186 | the descent ends at the empty place in front of the first key that is not smaller |
| RedBlackTree.RbTree.Insert | include/data_structure/rbtree.h:171-194 | from any valid tree: black root, no red node with a red child, equal black heights, correct parents, sentinel unchanged, and the entry inserted in order |
| RedBlackTree.RbTree.FindNode | include/data_structure/rbtree.h:258-266 | finds a node with the key if and only if there is one |
| RedBlackTree.RbTree.Find | include/data_structure/rbtree.h:60-64 | the value of an entry with the key, or the exception when there is none |
| RedBlackTree.RbTree.Minimum | include/data_structure/rbtree.h:274-278 | the first node of a subtree |
| RedBlackTree.RbTree.FindSuccessor | include/data_structure/rbtree.h:299-310 | the node of the next entry in order, upwards if need be, or the sentinel |
| RedBlackTree.RbTree.RbtreeDeleteFixup | include/data_structure/rbtree.h:337-394 | terminates, the surroundings of the node to be deleted become exactly those of RbRemoval.Repaired, and it keeps the same entries to its left and right |
| RedBlackTree.RbTree.DeleteNode | include/data_structure/rbtree.h:312-334 | the in-order sequence loses exactly the entry of that node, and the red-black rules hold afterwards if and only if RbRemoval.KeepsRules holds of its place |
| RedBlackTree.RbTree.Remove | include/data_structure/rbtree.h:70-74 | a present key loses exactly one of its entries, the one the search finds, and the rules are kept if and only if the colours around it allow it; an absent key changes nothing |
| SkipList.LevelIsSublist | include/data_structure/skiplist.h:66-74 | following the links of a level visits, in order, exactly the nodes of level 0 that are tall enough, and is sorted |
| SkipList.InsertedRep | include/data_structure/skiplist.h:102-107 | the splice loop links the new node into exactly its levels |
| SkipList.RemovedRep | include/data_structure/skiplist.h:119-127 | the unlink loop takes the node out of all its levels and out of the memory |
| SkipList.SkipListMap.constructor | include/data_structure/skiplist.h:27 | the empty list, never inserted into |
| SkipList.SkipListMap.Search | include/data_structure/skiplist.h:95-100 | `updates` holds, for every level, the last node with a smaller key |
| SkipList.SkipListMap.Insert | include/data_structure/skiplist.h:94-109 | for any level drawn, the entry is inserted once, in front of the first key that is not smaller |
| SkipList.SkipListMap.Shrink | include/data_structure/skiplist.h:128 | the top level is given up exactly when it is empty and not the last |
| SkipList.SkipListMap.Remove | include/data_structure/skiplist.h:111-129 | the first entry with the key goes; an absent key changes nothing |
| SkipList.SkipListMap.Lookup | include/data_structure/skiplist.h:84-92 | finds the first of the tallest nodes with the key, or reports that there is none |
| SkipList.SkipListMap.Find | include/data_structure/skiplist.h:66-74 | that node's value, or the exception exactly when no entry has the key |
| SkipList.SkipListMap.IsExist | include/data_structure/skiplist.h:84-92 | true if and only if some entry has the key |
| LruCache.UnlinkedChain | include/data_structure/lru_cache.h:103-104 | the two assignments take a node out of the doubly linked list |
| LruCache.FrontedChain | include/data_structure/lru_cache.h:126-131 | the four assignments put it behind the head sentinel |
| LruCache.EvictedRep | include/data_structure/lru_cache.h:133-140 | eviction removes the last node, never a sentinel, from list, hash map and memory |
| LruCache.OneCellPerKey | include/data_structure/lru_cache.h:91 | the hash map and the list hold exactly the same nodes, one per key |
| LruCache.LRUCache.constructor | include/data_structure/lru_cache.h:93-98 | the empty cache |
| LruCache.LRUCache.MoveToFront | include/data_structure/lru_cache.h:126-131 | a node that is out of the list, but still in the hash map, becomes the first one, with the other nodes behind it in their order |
| LruCache.LRUCache.Get | include/data_structure/lru_cache.h:100-108 | the value, with the key moved to the front, or -1 |
| LruCache.LRUCache.Put | include/data_structure/lru_cache.h:110-123 | the key in front with its new value; exactly the least recently used key is evicted when there is no room; the size stays within the capacity |
| LruCache.LRUCache.EvictLast | include/data_structure/lru_cache.h:133-140 | the sequence loses its last element |
| LruHistory.HoldsMostRecent | include/data_structure/lru_cache.h:100-123 | after any sequence of operations the cache holds the most recently used keys, as many as fit, in order of use |
| LruHistory.HoldsLastValues | include/data_structure/lru_cache.h:110-118 | every cached value is the one last put for its key |
| RingBuffer.Buffer.constructor | src/Rpc/buffer.cc:6-8 | the empty buffer of 1024 slots |
| RingBuffer.Buffer.ReadableBytes | src/Rpc/buffer.cc:53-55 | the number of unread bytes |
| RingBuffer.Buffer.WritableBytes | src/Rpc/buffer.cc:57-60 | 1023 minus that number |
| RingBuffer.Buffer.Read | src/Rpc/buffer.cc:39-51 | returns and removes exactly the longest prefix allowed, across the wrap-around |
| RingBuffer.Buffer.RetrieveAllBufferAsString | src/Rpc/buffer.cc:135-138 | returns everything and leaves nothing |
| RingBuffer.Buffer.HasRead | src/Rpc/buffer.cc:116-118 | drops a prefix |
| RingBuffer.Buffer.HasWritten | src/Rpc/buffer.cc:112-114 | takes in the bytes put into free slots; one byte more than is free and everything unread is lost |
| RingBuffer.Buffer.Clear | src/Rpc/buffer.cc:103-106 | nothing is left |
| RingBuffer.Buffer.Append | src/Rpc/buffer.cc:125-133 | extends the contents when the bytes fit; otherwise fills the buffer and throws, or, with the reader at slot 0, overwrites whole laps without throwing |
| RingBuffer.OverrunLosesAll | src/Rpc/buffer.cc:125-133 | one byte appended to a full buffer whose reader is at slot 0 leaves nothing to read |
| RingBuffer.Buffer.AppendString | src/Rpc/buffer.cc:120-123 | the same with the length cut to 16 bits |
| RingBuffer.Buffer.ReadvBegin | src/Rpc/buffer.cc:66-81 | the two segments concatenate to the contents |
| RingBuffer.Buffer.WritevBegin | src/Rpc/buffer.cc:83-101 | the segments start with the free slots in order, never cover an unread byte, and offer one slot too many exactly when the contents do not wrap |
| Varint.RoundTrip | src/Rpc/generic_rpc.pb.cc:205 | a varint is read back, whatever follows |
| Varint.EncodedAt | src/Rpc/generic_rpc.pb.cc:254 | byte i holds seven bits from bit 7 * i on, and all bytes but the last have the high bit set |
| Varint.DecodedValue | src/Rpc/generic_rpc.pb.cc:205 | any bytes, canonical or not, are read up to the first one without the high bit, as digits to the base 128; without such a byte in time there is no number |
| Varint.ThreeHundred | src/Rpc/generic_rpc.pb.cc:254 | 300 is AC 02 |
| Varint.BigEndianIs | src/Rpc/rpc_protocal.cc:123-129 | network order, byte by byte |
| Varint.EncodedSize | src/Rpc/generic_rpc.pb.cc:287-290 | its length by thresholds |
| Varint.HtonllSwaps | src/Rpc/rpc_protocal.cc:146-160 | the masks and shifts of htonll reverse the eight bytes |
| Varint.SwappedIsNetworkOrder | src/Rpc/rpc_protocal.cc:146-163 | swapping and storing on a little-endian host is network order, and swapping twice is nothing |
| RpcHeader.HeaderRoundTrip | src/Rpc/generic_rpc.pb.cc:178-263 | parsing a serialized header gives every field back, omitted defaults included |
| RpcHeader.HeaderOnWire | src/Rpc/generic_rpc.pb.cc:233-263 | what is written is the wire format of the records service_name = 1, method_name = 2 and args_size = 3 that are not default |
| RpcHeader.ParsesRecords | src/Rpc/generic_rpc.pb.cc:178-231 | any sequence of records is parsed: the last one of a declared field and type counts, numbers are cut to 32 bits, and records of other fields or types are skipped |
| RpcHeader.ShortTextFails | src/Rpc/generic_rpc.pb.cc:184-201 | a string shorter than announced is an error |
| RpcHeader.ServiceField | src/Rpc/generic_rpc.pb.cc:184-201 | a length-delimited field sets its string and parsing goes on behind it, whatever came before |
| RpcHeader.ArgsField | src/Rpc/generic_rpc.pb.cc:202-209 | the same for the varint field |
| RpcHeader.Message.InternalParse | src/Rpc/generic_rpc.pb.cc:178-231 | the loop over the moving pointer computes the fields and the outcome of the wire format, unknown fields skipped |
| RpcHeader.Message.InternalSerialize | src/Rpc/generic_rpc.pb.cc:233-263 | the fields in order, defaults left out |
| RpcHeader.Message.ByteSizeLong | src/Rpc/generic_rpc.pb.cc:265-293 | exactly the number of bytes serialized |
| RpcProtocol.GenerateStringFromProtocal | src/Rpc/rpc_protocal.cc:105-132 | the copies into the resized string build the frame |
| RpcProtocol.FrameLayout | src/Rpc/rpc_protocal.cc:105-132 | which byte of a frame is what: magic number, version, type, status, flag, request id and header length in network order, header, body |
| RpcProtocol.ParserProtocalFromString | src/Rpc/rpc_protocal.cc:7-48 | the one-shot parser, with the fields it has already set when it gives up |
| RpcProtocol.FixedMeaning | src/Rpc/rpc_protocal.cc:11-36 | what any twenty bytes mean: the four bytes of the magic number, and the request id and the header length by their digits |
| RpcProtocol.OneShotOutcome | src/Rpc/rpc_protocal.cc:7-48 | the one-shot parser succeeds exactly with the magic number and a body position inside the string |
| RpcProtocol.OneShotFields | src/Rpc/rpc_protocal.cc:24-43 | then every field is the named stretch of the string |
| RpcProtocol.FrameRoundTrip | src/Rpc/rpc_protocal.cc:7-132 | parsing a generated frame with any bytes behind it returns every field, the body cut to its length modulo 2^32: the frame survives if and only if the body is shorter than 2^32 |
| RpcProtocol.HugeBodyLost | src/Rpc/rpc_protocal.cc:105-132 | a body of 2^32 bytes arrives empty, and parsing reports success |
| RpcProtocol.ParserProtocalHeader | src/Rpc/rpc_protocal.cc:50-79 | the first stage: fixed fields and header length, an assertion failure above 65535 |
| RpcProtocol.ParserProtocalRpcHeader | src/Rpc/rpc_protocal.cc:81-92 | the second stage: names, and the body length cut to 16 bits |
| RpcProtocol.StagedRoundTrip | src/Rpc/rpc_protocal.cc:50-103 | the three stages, each given the length that the one before returned, read back every field of a generated frame whose header and body are at most 65535 bytes long, whatever the request held before |
| RpcProtocol.StagesAgree | src/Rpc/rpc_protocal.cc:50-103 | on a complete frame the stages agree with the one-shot parser if and only if the body length is at most 65535, and abort if and only if the header length is larger |
| RpcProtocol.LongBodyLost | src/Rpc/rpc_protocal.cc:81-103 | a body of 65536 bytes, which the one-shot parser returns, is lost by the stages |
| RpcProtocol.BadMagicUnnoticed | src/Rpc/rpc_protocal.cc:58-61 | a wrong magic number is a header of length 0 for the first stage and an error for the one-shot parser |
| FrameReassembly.DrainConcat | src/Rpc/connection_pool.cc:172-204 | draining a, then the rest with b behind it, is draining a and b together |
| FrameReassembly.ChunkingIrrelevant | src/Rpc/connection_pool.cc:160-207 | the outcome of any sequence of callbacks is that of the whole stream arriving at once |
| FrameReassembly.DrainIsBatch | src/Rpc/connection_pool.cc:174-204 | on any stream of well-formed frames the requests handed over are those of the one-shot parser applied frame by frame |
| FrameReassembly.BadMagicHandsOver | src/Rpc/connection_pool.cc:174-204 | twenty bytes with a wrong magic number are not refused: an empty request with the old fixed fields is handed over |
| FrameReassembly.LongHeaderAborts | src/Rpc/connection_pool.cc:175-184 | a first section ends the process exactly when it announces a header of more than 65535 bytes |
| FrameReassembly.SentIsReceived | src/Rpc/connection_pool.cc:160-207 | whatever the chunks, the requests generated are the requests handed over, in order, and the leftover is shorter than the target |
| FrameReassembly.SectionArrives | src/Rpc/connection_pool.cc:172-174 | the next section can ever arrive if and only if it is at most 1023 bytes long |
| FrameReassembly.TcpConnection.ParseSection | src/Rpc/connection_pool.cc:175-203 | the three phases of the state machine |
| FrameReassembly.TcpConnection.ReadSections | src/Rpc/connection_pool.cc:173-204 | the loop terminates, also with sections of length zero, and loses and invents nothing |
| FrameReassembly.TcpConnection.CallbackRead | src/Rpc/connection_pool.cc:160-207 | over the ring buffer, for every count the kernel can report: exactly the state, the leftover and the requests of draining the bytes at hand, or of draining nothing when it wrote one byte more than was free |
| FrameReassembly.SurvivesIfFits | src/Rpc/connection_pool.cc:171-174 | the bytes at hand survive a read if and only if the chunk fits into the free space; otherwise they are gone and nothing is handed over |
| FrameReassembly.TcpConnection.Receive | src/Rpc/connection_pool.cc:160-207 | a connection that is fed the frames of any requests, in any chunks that fit on arrival, hands over exactly these requests, in order, and holds less than one section then |
| ConnectionPool.AcceptedForCountOk | src/Rpc/connection_pool.cc:274-287 | accepting becomes exactly max(accepting, min(size, limit - outer)), and all invariants hold |
| ConnectionPool.Growth | src/Rpc/connection_pool.cc:274-278 | how many connections acceptForCount allocates: none when enough are idle, otherwise twice what it starts, up to the headroom |
| ConnectionPool.LongestIdleFirst | src/Rpc/connection_pool.cc:280-286 | it starts the connections that are idle longest, old ones before new ones |
| ConnectionPool.EnoughPrepared | src/Rpc/connection_pool.cc:275-278 | after the expansion there are enough idle connections and at most 2 * limit - 1 allocated |
| ConnectionPool.StepKeepsInv | src/Rpc/connection_pool.cc:274-309 | every event keeps each connection in one place, allocated = idle + accepting + outer, accepting + outer <= limit, allocated <= 2 * limit - 1 |
| ConnectionPool.RunKeepsInv | src/Rpc/connection_pool.cc:274-309 | so does any run |
| ConnectionPool.CreatedOk | src/Rpc/connection_pool.cc:243-246 | so does the constructor, for any initial number and any positive limit |
| ConnectionPool.BoundIsTight | src/Rpc/connection_pool.cc:274-297 | for every limit some run reaches 2 * limit - 1 |
| ConnectionPool.ConnectionManager.ExpandConnections | src/Rpc/connection_pool.cc:290-297 | allocates max(0, min(size, limit - outer - accepting)) connections behind the idle ones and changes nothing else; keeps the invariant when fewer are idle than the headroom |
| ConnectionPool.ConnectionManager.constructor | src/Rpc/connection_pool.cc:243-247 | max(0, min(initial, limit)) idle connections, and none pending or handed out |
| ConnectionPool.ConnectionManager.AcceptForCount | src/Rpc/connection_pool.cc:274-287 | keeps the invariant, with accepting = max(accepting, min(size, limit - outer)) and at most 2 * limit - 1 allocated; allocates only with too few idle ones, and then twice what it starts, up to the headroom; unsigned comparison included |
| ConnectionPool.ConnectionManager.AcceptDone | src/Rpc/connection_pool.cc:306-309 | keeps the invariant: a connection moves from the pending to the handed-out ones, and accepting + outer, the allocated and the idle ones stay |
| ConnectionPool.ConnectionManager.SendBack | src/Rpc/connection_pool.cc:300-304 | keeps the invariant: a connection moves from the handed-out ones behind the idle ones, and idle + accepting + outer remain the allocated ones |
| Base64.SecondDigit | src/Rpc/net_base.cc:106 | masks, shifts and `or` of the code select the second 6-bit digit |
| Base64.ThirdDigit | src/Rpc/net_base.cc:107 | and the third |
| Base64.Digits | src/Rpc/net_base.cc:105-108 | the four digits of the 24-bit number of RFC 4648 section 4 |
| Base64.ReverseCharset | src/Rpc/net_base.cc:89-95 | base64_reverse inverts the alphabet |
| Base64.Alphabet | src/Rpc/net_base.cc:81-86 | the table is A to Z, a to z, 0 to 9, + and /, in this order |
| Base64.EncodedAt | src/Rpc/net_base.cc:97-125 | character j encodes the six bits of the input from bit 6 * j on, zeros behind its end, and is the padding when there are none |
| Base64.DecodedAt | src/Rpc/net_base.cc:131-166 | before the last byte is looked at, byte k of the result holds the eight bits of the values from bit 8 * k on |
| Base64.Base64Encoding | src/Rpc/net_base.cc:97-125 | encodes as section 4 of RFC 4648 says, padding included |
| Base64.Base64Decoding | src/Rpc/net_base.cc:131-173 | decodes every input that has a character in front of the padding, unknown characters included |
| Base64.RoundTrip | src/Rpc/net_base.cc:97-173 | decoding an encoding returns the input, except that it loses its last byte if and only if the length is a multiple of three and that byte is zero |
| Base64.ZerosLoseOne | src/Rpc/net_base.cc:97-173 | three zero bytes come back as two |

## Left out

- Weak memory: the lock-free models are sequentially consistent; fences and memory orders are not modelled, indices are unbounded (Tickets.CircularIsLess links the modular comparison to `<`).
- Explicit producers, tokens, exception paths, the producer hash table, `enqueue_bulk`, allocation and alignment in `concurrentqueue.h`. GcRpc uses none of the first three.
- Blocks.StepSound: a requisition takes any free block or fails, at any time; blocks never allocated yet count as free, and the free list itself is FreeList, not composed with this.
- Tickets.StepKeepsInv: `dequeue` and `dequeue_bulk` are one machine, with max = 1 for the former.
- IndexedBlocks.EnqueueAnswers: a failing enlargement is decided at the load that finds the index full; allocation itself is not modelled.
- IndexedBlocks.StepKeepsInv: starts with the constructor's new_block_index having succeeded; without a header no enqueue succeeds, which BlockIndex.Index.InsertBlockIndexEntry covers.
- BlockIndex.NewEntries: entries are numbers in one table and headers are records in a list; headers and entries are freed only by the destructor, which is not modelled.
- MpscQueue.MemorySafe: one consumer, as the code demands; the destructor is not modelled. LockFreeQueue with several consumers, SimpleQueue and LockedQueue are left out.
- RedBlackTree.RbTree.Remove: from a red-black tree; a tree whose rules a removal has broken is not removed from again. The two assertions that compare values of neighbouring nodes are dropped. Copying, moving, `find_predecessor` and the destructor are left out.
- RedBlackTree.RbTree.Insert: addresses of new nodes are chosen by the caller, any that is not in use; the same holds for SkipList.SkipListMap.Insert and LruCache.LRUCache.Put.
- SkipList.SkipListMap.Lookup: needs a non-empty list or one never inserted into; otherwise the code follows a null pointer. The random level is an argument between 1 and the maximum.
- LruCache.LRUCache.Put: keys and values are integers; the sentinels are nodes with arbitrary contents, because the class has no default constructor for them as written. The concurrent variant is left out.
- RingBuffer.Buffer.ReadvBegin: without the assertions about fixed lengths; copying and moving a buffer are left out.
- RpcHeader.Message.InternalParse: groups (wire type 3) count as a parse error; the protobuf runtime itself is not part of this model, only its wire format and its limits on lengths.
- RpcProtocol.ParserProtocalFromString: for inputs shorter than 20 bytes with the right magic number the code reads past their end, so they are excluded.
- FrameReassembly.TcpConnection.CallbackRead: results above zero, which put bytes into the buffer, and up to one byte more than is free, which is all the kernel is offered; errors, end of stream and closing in the middle of a frame are left out, and so is the connection pointer in a request.
- ConnectionPool.ConnectionManager.AcceptForCount: counters are unbounded integers and `size_approx` is exact, as with one event loop thread. `acceptConnection`, which does not keep the count of accepting connections, and the destructor are left out.
- Base64.Base64Decoding: the result of decoding nothing is undefined in the code and excluded; the message on unknown characters is left out.
- `HashHeap`, `ServiceSeeker`, load balancing, the thread pool, io_uring, sockets, configuration, logging and the remaining generated code: plumbing, or not promised to be correct.
