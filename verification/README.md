# A verified model of the shared queue

libshr keeps a queue in POSIX shared memory: one growing array of longs that any
number of processes map, with a lock-free heap in it and a FIFO on top that turns
into a LIFO under overload.  This project models that library in Dafny and proves
what it relies on.  It has two layers over one memory layout (`Layout.dfy`).

**Concurrent protocols.**  Each is a state machine whose steps are single loads,
stores, fetch-and-adds, CASes and DWCASes of any number of processes in any
order, with an invariant kept by every step and theorems about every run.

- `TaggedList*.dfy`: the tagged linked list behind the item queue, the event
  queue and the pool of free nodes, with nodes recycled between them, pairs
  loaded in halves, and generations drawn from ID_CNTR.
- `CountedStack*.dfy`: the stacks with a counter, for freed data blocks and for
  the adaptive LIFO, as a refinement of abstract stacks.  In both, an operation
  left alone finishes, wherever it stands, with the outcome stated.
- `Tokens.dfy`: the semaphores and COUNT.  `Growth.dfy`: growing the object
  without a lock.  `Carving.dfy`: carving blocks off its unused end.
  `FlagWord.dfy`: flags and one-shot events.

**The heap and the queue, one process at a time.**  The C functions are methods
of two classes that work on a real array.

- `Image.dfy` cuts the array along its blocks; `ImageOps.dfy` has each heap
  operation as a function on such an image, and `ImageFrame.dfy`,
  `ImageProof.dfy`, `ImageStacks.dfy`, `ImagePrivate.dfy` and
  `ImageContents.dfy` prove that each keeps the heap in order and what it does to
  the queue.  `HeapTheorems.dfy` states the partition, and that the array alone
  determines the queue.  `SizeClass.dfy` is the arithmetic of size classes.
- `SharedMemory.dfy`: class `Base`, the heap of `src/shared_int.c`.  The operating
  system may refuse to extend the file or to map it at any call.  `HeapRuns.dfy`
  runs any requests and releases of data blocks on it.
- `AdaptiveQueue.dfy`: the queue as callers see it, each operation a function of
  the state and the readings of the clock.  `AdaptiveTheorems.dfy` and
  `AdaptiveRuns.dfy` prove what the operations promise, singly and over runs;
  `AdaptiveLaws.dfy` says what is decided when: stack or FIFO, which event, which
  limit.
- `QueueSteps.dfy` and `SharedQueue.dfy`: class `ShrQueue`, the queue of
  `src/shared_q.c`, proved to do on the array what `AdaptiveQueue` says.  Its
  invariant holds between operations: no block is in hand, so every block is in
  exactly one place; COUNT and the semaphores agree with the contents; EVNT_SEM
  counts the pending events; and at most three nodes more were ever carved than
  were ever in use at once.  `SharedRuns.dfy` runs any sequence of calls on the
  array: it is the run of `AdaptiveRuns`, and values and vectors come out as they
  went in; `SharedLaws.dfy` adds the depth and the subscriptions.
- `Timespec.dfy`: time arithmetic and expiry.  `Codec.dfy`: how values and
  vectors are laid out in a data block, byte by byte, and read back.

Where the code falls short of a property, the condition under which it holds is
proved, with a counterexample:

- The tags of the lists are unique only if ID_CNTR does not start at 0, and it
  does.  add_end writes slot and generation with two stores, so a recycled node
  shows generation 0 for a moment; a process that has loaded the primed tail of
  the pool can then link behind it, and its node is lost (`TaggedListZero.dfy`).
  The lists stay intact exactly in the runs without that hit
  (`TaggedListExact.dfy`), and always for any other start.
- A remove that gets no memory for its buffer frees the item all the same and
  reports success: SharedQueue.ShrQueue.ShrqRemove says exactly when.
- A vector that is rejected for one of its entries leaves its data block behind,
  in nobody's hands: SharedQueue.ShrQueue.ShrqAddv says exactly when.
- The buffer size that an add records does not always suffice for the item
  (Codec.RecordedSufficesIff).
- Blocks of more than 2^30 slots: both shifts of a size class are shifts of an
  int (SizeClass.ServedIff).
- set_flag with several bits, one-shot events under interleaving, COUNT after
  shr_q_prod, limits that are not normalised, and the length recorded for a
  vector: see the rows below.

Counters are unbounded, memory is sequentially consistent, and a failed CAS or
DWCAS does not write back what it found, as in the default build.

## Model

| member | source | states |
|---|---|---|
| TaggedListTheorems.StepInv | src/shared_int.c:893-983 | Every load, store, fetch-and-add and DWCAS of any process keeps the list invariant, unless it is a link DWCAS that hits a recycled node showing generation 0 |
| TaggedListExact.StepIntactIff | src/shared_int.c:918-922 | From a state of the protocol a step leaves every list a chain of its nodes in memory if and only if it is not such a hit |
| TaggedListExact.IntactIffClean | src/shared_int.c:893-983 | For every run, every set of processes and every start of ID_CNTR: all lists are intact all the way through if and only if the run has no such hit |
| TaggedListTheorems.ListsStayIntact | src/shared_int.c:893-983 | After every run without such a hit, each of the three lists, read from memory alone, is the chain of the nodes appended and not removed: links name slot and generation of the successor, the last node names itself, nothing occurs twice, the tail is the last or the one before |
| TaggedListZero.IntactIffNonzeroStart | src/shared_int.c:487-507 | The lists stay intact over all runs of all sets of processes if and only if ID_CNTR does not start at 0; the library leaves it at 0 |
| TaggedListZero.ZeroStartBreaks | src/shared_q.c:1141-1176 | A run of two adds, two removes and another add by two processes, from ID_CNTR 0: the append that frees a node lands behind a node that has left the pool |
| TaggedListTheorems.PositiveStartClean | src/shared_int.c:906-908 | With a counter that starts above 0 no run ever has such a hit, so the assumption of the list theorems always holds |
| TaggedListTheorems.FirstInFirstOut | src/shared_q.c:1141-1176 | Values handed to removers followed by the values still carried in memory are exactly the values linked, in link order, on the item and on the event list |
| TaggedListTheorems.OnePlace | src/shared_int.c:893-983 | A node is at one position of one list, or with one process, or on the stack, although nodes are recycled between all of these |
| TaggedListTheorems.StalePairsNeverMatch | src/shared_int.c:914-932 | A DWCAS whose expected pair was loaded in two halves, or is stale, does not succeed: if it succeeds, it hits the last node, the true tail or the true head, and installs the right successor |
| TaggedListExact.ExactIff | src/shared_int.c:914-932 | In a state of the protocol the DWCASes of a process are exact in that sense if and only if the next one is not such a hit |
| TaggedListTheorems.AppendFinishesAlone | src/shared_int.c:912-933 | From any instruction of an append, in any state of the protocol, the append completes within 16 instructions, its node linked once, if the other processes stand still |
| TaggedListProgress.RemoveFinishesAlone | src/shared_int.c:948-983 | From any instruction of a remove, in any state of the protocol, it ends within 9 instructions if the other processes stand still: with the front taken exactly if the head has not moved since its counter was loaded and there is an item, else with the list as it was |
| TaggedListProgress.RemoveCalledAlone | src/shared_int.c:948-983 | Undisturbed from the call on, a remove takes the front exactly if there is one, of the items one with a value |
| TaggedListProgress.AppendCalledAlone | src/shared_int.c:893-934 | Undisturbed from the call on, an append links the node in hand at the end, under a generation never drawn before |
| TaggedListSwaps.LinkTarget | src/shared_int.c:918-922 | A link DWCAS that matches hits the last node of the list, and the loaded tail is the tail |
| CountedStackTheorems.StacksStayIntact | src/shared_int.c:1106-1131 | Under any interleaving every bucket chain and the LIFO chain is finite, without repetition and ends in 0, and no block is on two of them |
| CountedStackTheorems.OneOwner | src/shared_int.c:1177-1216 | A block has at most one owner, and an owned block is on no stack: no block is popped twice without a push between |
| CountedStackTheorems.EveryStepIsAPushAPopOrNothing | src/shared_q.c:607-629 | Refinement: every instruction is one push, one pop of the topmost block with the value it carries, or nothing, on the abstract stacks; the counter goes up with each |
| CountedStackTheorems.ClassNeverChanges | src/shared_int.c:1113-1214 | Between any two moments at which a data block is in use its header is the same capacity, whatever happened in between |
| CountedStackTheorems.StalePopsNeverMatch | src/shared_q.c:1074-1106 | In every state of every run, a pop whose DWCAS matches takes the topmost block and installs its true successor, however stale or torn its loads |
| CountedStackProgress.PushFinishesAlone | src/shared_int.c:1117-1128 | From any instruction of a push, in any state whatever, it ends within 5 instructions if the other processes stand still, its block on top of its stack and no other stack changed |
| CountedStackProgress.PopFinishesAlone | src/shared_int.c:1196-1215 | From any instruction of a pop from a bucket, in any state of the protocol, it ends within 9 instructions: with the topmost block in hand and its header restored if there is one, and idle with nothing changed exactly if the bucket is empty, or its slot was loaded when it was |
| CountedStackProgress.LifoFinishesAlone | src/shared_q.c:1074-1106 | The same of a pop from the LIFO: it takes the top exactly if there is one with a value and neither slot nor counter has moved since they were loaded |
| CountedStackProgress.PopCalledAlone | src/shared_int.c:1177-1216 | Undisturbed from the call on, a pop gets the topmost block exactly if there is one, of the LIFO one with a value; else nothing changes |
| CountedStackProgress.PushCalledAlone | src/shared_int.c:1106-1131 | Undisturbed from the call on, a push puts the block in hand on top of the stack it belongs to |
| CountedStackSteps.TargetIsHome | src/shared_int.c:1113-1115 | The bucket computed from the header of a block is the one the block belongs to |
| Tokens.TokensAreConserved | src/shared_q.c:2087-2139 | The two token equations, after every step of every run of adders, removers, cleaners and shr_q_prod |
| Tokens.CountStaysInBounds | src/shared_q.c:734 | COUNT is at most the maximum depth, and below 0 by no more than the calls of shr_q_prod |
| Tokens.ProdCanMakeCountNegative | src/shared_q.c:3512-3538 | For every k there is a run with k calls of shr_q_prod in which COUNT reads -k |
| Tokens.LeastCount | src/shared_q.c:3512-3538 | Over all runs of all processes with at most k calls of shr_q_prod, COUNT stays at or above a bound if and only if the bound is at most -k; so it is never negative exactly for k = 0 |
| Tokens.TokenMeansItem | src/shared_q.c:2561-2593 | Without shr_q_prod a process past the deq gate always has an item to take |
| Tokens.QuietQueueAgrees | src/shared_q.c:3143-3218 | When nobody is in an operation, COUNT and both semaphores agree with the number of items; an add then passes its gate exactly if there is a free place, a remove exactly if there is an item or a call of shr_q_prod to answer |
| Tokens.AddFinishesAlone | src/shared_q.c:2105-2138 | From any step of an add, what is left of it is done once each if the other processes stand still, and DEQ_SEM goes up; an add without memory gives its place back |
| Tokens.RemoveFinishesAlone | src/shared_q.c:2561-2593 | Behind its gate a remove takes an item, counts it and frees the place if there is an item; else it changes nothing until it gives its token back |
| Growth.GrowthIsOrderly | src/shared_int.c:648-687 | Under every interleaving both sizes are whole pages that never shrink, an expansion is announced only when none is pending, and publishing installs exactly what was announced |
| Growth.ExtentsWithinObject | src/shared_int.c:544-596 | No process maps more than is published |
| Growth.ExpandMakesProgress | src/shared_int.c:627-688 | An expand that does not fail leaves its caller with a larger extent, whatever the others do |
| Growth.ExpandFinishesAlone | src/shared_int.c:627-688 | From any instruction of an expand, whatever the others have done before, it ends within 7 instructions if they stand still and nothing is refused, with the whole object mapped, and more of it than before |
| Growth.ReallocGrows | src/shared_int.c:605-616 | The computed size is the least number of whole pages that is larger than the extent and the requested slots together |
| Carving.CarvingIsExact | src/shared_int.c:993-1032 | Under every interleaving of carving, growth and writes, each slot between the dummies and DATA_ALLOC lies in exactly one carved block, DATA_ALLOC is below SIZE, and what is behind it is zero |
| Carving.CarvedIsFresh | src/shared_int.c:1012-1018 | The process that wins the CAS on DATA_ALLOC has a block of the size it asked for, all zero, that overlaps no other |
| Carving.OthersKeep | src/shared_int.c:1012-1018 | No step of a process, the store of a block's size included, changes a word of a block that another one has carved |
| Carving.CarveFinishesAlone | src/shared_int.c:993-1032 | From any instruction before its CAS has succeeded, a process alone carves exactly one block of its size within 8 instructions, if there is room where it has looked and where the unused space begins |
| FlagWord.OnlyOwnBitsChange | src/shared_int.c:788-852 | No step of set_flag, clear_flag or add_event changes a bit outside its mask |
| FlagWord.SetOnlyOnce | src/shared_q.c:651-659 | A flag that nobody clears is won by at most one call of set_flag: INIT is offered once in the life of a queue |
| FlagWord.SetFlagSetsAllIff | src/shared_int.c:799-811 | Undisturbed, set_flag with several bits sets all of them if and only if none or all were set |
| FlagWord.EventsNeedSubscriptions | src/shared_q.c:535-580 | In a run in which no add_event for an event overlaps another one or a clear_flag on it, every subscription made was used up by exactly one event, withdrawn by exactly one clear_flag, or is in force |
| FlagWord.AddEventAlone | src/shared_q.c:535-557 | Undisturbed, add_event goes ahead exactly if the event is subscribed, and uses the subscription up |
| FlagWord.ClearFlagAlone | src/shared_int.c:827-852 | Undisturbed, clear_flag turns off every bit of its mask and no other |
| FlagWord.SubscribedIffAlone | src/shared_q.c:546-556 | Over all runs, the events of a kind are never more than the subscriptions made to it if and only if there is at most one process |
| FlagWord.OneSubscriptionTwoEvents | src/shared_q.c:546-556 | For each event and any two processes a run with one subscription and two events |
| SizeClass.RoundUpIsLeastPower | src/shared_int.c:1270-1275 | For every request: the rounding is at least the request exactly up to 2^30 slots and for powers of two, since the shift is one of an int; then it is the least power of two that is large enough |
| SizeClass.HeaderRestored | src/shared_int.c:1214 | The header written on reuse, again an int, is the one that the link of the free stack overwrote exactly for blocks of at most 2^30 slots; every bucket lies in the bucket area |
| SizeClass.ServedIff | src/shared_int.c:1214-1275 | The requests that are rounded to no less than they ask for, and whose block keeps its header through a free and a reuse, are exactly those of at most 2^30 slots |
| SizeClass.ReusedCapacity | src/shared_int.c:1147-1166 | A reused block is at least as large as the request and less than eight times as large |
| SizeClass.FitIff | src/shared_int.c:1147-1166 | A request is served from exactly the buckets whose blocks are at least as large as it and less than eight times as large, the smallest first |
| SizeClass.RoundedClass | src/shared_int.c:1262-1287 | The rounded size of a request is the capacity of a bucket |
| Image.EverySlotInOneBlock | src/shared_int.c:993-1032 | Every slot between the header and DATA_ALLOC lies in exactly one block |
| Image.NodesAreAligned | src/shared_int.h:46-67 | Every block starts on 16 bytes, and no node crosses a page |
| Image.FirstSlotMapsTheNode | src/shared_int.c:703-727 | If the first slot of a node is within a mapping of whole pages, so is the node |
| Image.HeaderPairsAreAligned | src/shared_q.c:98-135 | Every header pair that a DWCAS is used on is 16-byte aligned |
| HeapTheorems.EverySlotHasOneRole | src/shared_int.c:993-1287 | Between operations each carved slot lies in one block, and the block has one role: node of one list, on one stack, or data of one queued node |
| HeapTheorems.ArrayDeterminesQueue | src/shared_q.c:1269-1311 | The words of the array alone determine the FIFO, the stack and the pending events |
| ImageContents.AddEndContents | src/shared_int.c:893-934 | add_end keeps the heap in order and appends exactly the item, the event, or the free node |
| ImageContents.RemoveFrontContents | src/shared_int.c:948-983 | remove_front keeps the heap in order and takes exactly the first item, the first event, or one free node |
| ImageContents.PushKeeps | src/shared_q.c:607-629 | A push keeps the heap in order; on the LIFO stack it adds the item on top, on a bucket it leaves the queue alone |
| ImageContents.PopKeeps | src/shared_q.c:1074-1106 | A pop keeps the heap in order and takes exactly the topmost item, or a freed block |
| ImagePrivate.StoresKeep | src/shared_q.c:254-264 | Stores into a block in hand, and to the settings, cannot be seen in the queue |
| ImagePrivate.CarveKeeps | src/shared_int.c:1012-1018 | Carving a block keeps the tiling and leaves the queue alone |
| SharedMemory.Base.constructor | src/shared_int.c:424-526 | A new object: one page, three primed lists, an empty queue |
| SharedMemory.Base.AddEnd | src/shared_int.c:893-934 | On the array: the words are those of the abstract step, and the queue gains exactly what the node carries |
| SharedMemory.Base.RemoveFront | src/shared_int.c:948-983 | On the array: returns 0 and changes nothing if the list is empty, else the old dummy, zeroed, with the new front's data in hand |
| SharedMemory.Base.Expand | src/shared_int.c:627-688 | A successful expand leaves a larger mapping with the same words, zeros behind them and nothing pending, larger by the slots and at most one page if nothing was pending before; a refused one leaves the mapping as it is |
| SharedMemory.Base.InsureFit | src/shared_int.c:744-773 | Ends with the slots mapped and one to spare unless the operating system refuses; changes nothing if they are mapped already; takes at most two rounds |
| SharedMemory.Base.AllocNewData | src/shared_int.c:993-1032 | Fails only if the operating system does, and then every block and stack is as before; else a new zeroed block at the old DATA_ALLOC with its size in front, and DATA_ALLOC stays below SIZE |
| SharedMemory.Base.AllocIdxSlots | src/shared_int.c:1086-1103 | Takes a node from the pool; carves one only if the pool holds nothing but its dummy |
| SharedMemory.Base.FreeDataSlots | src/shared_int.c:1106-1131 | The block goes on top of the bucket of its class; nothing else changes |
| SharedMemory.Base.FindFirstFit | src/shared_int.c:1140-1167 | The first non-empty bucket of at most three, or 0 exactly if all of these are empty |
| SharedMemory.Base.LookupFreedData | src/shared_int.c:1177-1216 | Takes the topmost block of the first of the three buckets that has one, its header restored to its capacity; no block is added and DATA_ALLOC stays |
| SharedMemory.Base.AllocDataSlots | src/shared_int.c:1262-1287 | If one of the buckets that fit has a block, the topmost of the first such bucket, with DATA_ALLOC and the set of blocks unchanged; only if none has, a new block at the old DATA_ALLOC; at least as large as the request and less than eight times as large, zeroed where the request is; failure only by the operating system, and then nothing has moved |
| HeapRuns.RunHeap | src/shared_int.c:1106-1287 | Any sequence of requests and releases on a new object: each request reuses a block exactly if one fits, and carves one exactly if none does |
| HeapRuns.CarvedAsNeeded | src/shared_int.c:1262-1287 | With requests of one size class, in any order with releases, the data blocks ever carved are exactly as many as were in hand at once at some time |
| QueueSteps.EventQueued | src/shared_q.c:559-577 | Queuing an event appends it, keeps EVNT_SEM equal to the number of pending events and the node count tidy |
| SharedQueue.ShrQueue.UseBound | src/shared_int.c:1038-1103 | High-water mark: the nodes ever carved are at most the three dummies and the most items and pending events that were queued at once so far, of which each operation says how it moves |
| SharedQueue.ShrQueue.Create | src/shared_q.c:1724-1769 | Rejects a depth above 2^31 - 1; else a new empty queue, with the depth asked for in ENQ_SEM, 2^31 - 1 for a depth of 0 |
| SharedQueue.ShrQueue.AddEvent | src/shared_q.c:535-580 | A subscribed event uses up its subscription and becomes pending, unless memory is refused; otherwise nothing changes; the high-water mark becomes the maximum of itself and the nodes now in use |
| SharedQueue.ShrQueue.LifoAdd | src/shared_q.c:607-629 | On the array: the node's item is on top of the stack, nothing else changes |
| SharedQueue.ShrQueue.PostProcessEnq | src/shared_q.c:632-683 | INIT exactly if the queue was not activated, NONEMPTY exactly if it was empty, LIMIT exactly if the last place is taken, in this order and each if subscribed; the time of emptiness moves to now exactly if the queue was empty and now is later |
| SharedQueue.ShrQueue.LinkNode | src/shared_q.c:723-734 | With adaptive LIFO on and COUNT at LEVEL or above the item goes on the stack, else to the end of the FIFO; COUNT goes up |
| SharedQueue.ShrQueue.EnqData | src/shared_q.c:698-741 | Queues the data block, or frees it and changes nothing else if there is no node |
| SharedQueue.ShrQueue.CopyItem | src/shared_q.c:234-270 | The block in hand holds the time, the id last drawn from ID_CNTR, the type, the number of fields, the length and the data |
| SharedQueue.ShrQueue.CheckForLevelEvent | src/shared_q.c:1343-1371 | LEVEL is raised exactly if a level is set and reached and the event is subscribed |
| SharedQueue.ShrQueue.ShrqAdd | src/shared_q.c:2087-2139 | The argument, mode and limit errors exactly when they apply, NOMEM only if the operating system refused, and then nothing has changed; on success the abstract add with an item that holds the bytes given; counters and heap are in order again |
| SharedQueue.ShrQueue.ShrqAddv | src/shared_q.c:2293-2352 | The errors exactly when they apply; on success the abstract add with an item that holds the fields given; a data block is lost for good exactly if a place was free, memory was granted and an entry of a vector is rejected |
| SharedQueue.ReadItem | src/shared_q.c:1057-1070 | Read back, an item holds exactly the fields that were stored: types, lengths and bytes |
| SharedQueue.ShrQueue.FifoRemove | src/shared_q.c:1141-1176 | Unlinks the front item, frees its node and has its data in hand; 0 exactly if the FIFO is empty |
| SharedQueue.ShrQueue.LifoRemove | src/shared_q.c:1109-1138 | Unlinks the top item, frees its node and has its data in hand |
| SharedQueue.ShrQueue.ItemExceedsDelay | src/shared_q.c:897-938 | The verdict is the expiry rule on the words of the item and the settings |
| SharedQueue.ShrQueue.PostProcessDeq | src/shared_q.c:1214-1266 | Count, time of emptiness, verdict, EMPTY and TIME events; the data block is freed in every case |
| SharedQueue.ShrQueue.Deq | src/shared_q.c:1269-1311 | Takes the first item in the order of removal, the stack before the FIFO, and returns its words, unless it has expired or malloc refuses a buffer for it |
| SharedQueue.ShrQueue.ShrqRemove | src/shared_q.c:2536-2595 | The argument and mode errors exactly when they apply; else result, queue, events and readings of the clock are those of the abstract remove, and the high-water mark is the maximum of itself and the nodes now in use; success is reported without the item exactly if neither the buffer nor one that malloc grants on the way has room for it |
| SharedQueue.RoomIff | src/shared_q.c:960-994 | The buffer after a number of items is there exactly if the first one fits them all, or malloc grants one that no later item exceeds |
| SharedQueue.BufferAsked | src/shared_q.c:1031-1071 | What a remove asks of the buffer is eight bytes for each word of the item and 24 for each field, as copy_to_buffer works it out; for one item there is room exactly if the buffer has that size or malloc grants one |
| SharedQueue.ShrQueue.ShrqClean | src/shared_q.c:3119-3219 | The queue is that of the abstract clean on every exit path, and all nodes and blocks are back in their pools |
| SharedQueue.ShrQueue.ShrqEvent | src/shared_q.c:2781-2830 | The oldest pending event, or none exactly if none is pending; EVNT_SEM equals the number of pending events before and after |
| SharedQueue.ShrQueue.SetFlag | src/shared_int.c:788-812 | One flag, or those of all events: turned on by this call exactly if none of them was on; else nothing changes |
| SharedQueue.ShrQueue.ClearFlag | src/shared_int.c:827-852 | One flag, or those of all events: those that were on are off, and the call says whether there was one |
| SharedQueue.ShrQueue.ShrqLevel | src/shared_q.c:3037-3060 | Sets the level, or rejects one that is not positive and changes nothing |
| SharedQueue.ShrQueue.ShrqTimelimit | src/shared_q.c:3073-3104 | Sets the limit and nothing else |
| SharedQueue.ShrQueue.ShrqTargetDelay | src/shared_q.c:3578-3609 | Sets the target and turns discard on |
| SharedQueue.ShrQueue.Configure | src/shared_q.c:3273-3367 | Discard and adaptive LIFO change their own flag only |
| SharedQueue.ShrQueue.ShrqSubscribe | src/shared_q.c:3408-3472 | Subscribing to or from one event, or all of them, changes the flags of these events only; an unknown event changes nothing |
| SharedRuns.RunCalls | src/shared_q.c:2087-2830 | Any sequence of calls on a new queue, values and vectors: each call does what its operation says on the array, with or without refusals of memory, and the nodes in the array are never more than three plus the most items and pending events queued at once between the calls |
| SharedRuns.RunsRefine | src/shared_q.c:2087-2830 | Whether or not memory is refused, the queue in the array, the clock read, the items taken and what was accepted are those of the abstract run; and so are the events, as long as it is not |
| SharedRuns.ValuesConserved | src/shared_q.c:2087-2830 | Each value and vector that an add accepted was taken once, lost once, or is in the queue, with its types, lengths and bytes; each one lost had expired by the rule of the remove or the limit of the clean that took it; with every buffer granted, those taken are in the callers' buffers |
| SharedRuns.ValuesKept | src/shared_q.c:2087-2595 | Without discard and clean nothing is lost, with adaptive LIFO on or off |
| SharedRuns.ValuesInOrder | src/shared_q.c:1109-1176 | Without adaptive LIFO, discard and clean, the values come out in the order of their adds, byte for byte, and those in the queue are the rest |
| SharedLaws.DepthIsKept | src/shared_q.c:177-185 | At every moment of every run there are no more items than the depth asked for, 2^31 - 1 for 0, and ENQ_SEM is what is left of it |
| SharedLaws.FullIff | src/shared_q.c:1557-1580 | An add is told LIMIT exactly if that many items are queued; else it is accepted, unless memory is refused; and an add that is not accepted changes nothing |
| SharedLaws.SubscriptionsConserved | src/shared_q.c:3408-3472 | Over every run without refusals, for each event: delivered, pending, in force and withdrawn add up to the subscriptions made, as the calls for this event, or for all, make and withdraw them |
| AdaptiveTheorems.LinkOrder | src/shared_q.c:725-732 | With adaptive LIFO on and COUNT at LEVEL or above a new item is the next to be removed, otherwise the last |
| AdaptiveTheorems.AddKeepsOrder | src/shared_q.c:2087-2139 | A whole add puts the item on the stack exactly if adaptive LIFO is on and COUNT is at LEVEL or above, and keeps COUNT and both semaphores in agreement with the contents |
| AdaptiveTheorems.RemoveReturnsFirstFresh | src/shared_q.c:2561-2593 | A remove returns the first item in the order of removal that has not expired, drops exactly those before it, all expired, and returns their tokens |
| AdaptiveTheorems.LastItemByLimit | src/shared_q.c:1226-1233 | Under CoDel the last item in the queue is judged by the limit |
| AdaptiveTheorems.CleanTakesExpired | src/shared_q.c:3143-3213 | A clean takes exactly k items off the front of the FIFO, each expired when looked at, the next one not; stack, order and the other fields are unchanged, and k tokens come back |
| AdaptiveTheorems.CleanTakesLongestPrefix | src/shared_q.c:3119-3219 | With a clock that does not go back, that is the longest prefix expired at the last reading |
| AdaptiveTheorems.AddRaisesOnce | src/shared_q.c:632-683 | In an add, each event raised uses up exactly one subscription |
| AdaptiveTheorems.RemoveRaisesOnce | src/shared_q.c:1235-1247 | The same in a remove, however many items it discards |
| AdaptiveLaws.AddOrder | src/shared_q.c:725-732 | An add that finds adaptive LIFO on and at least LEVEL items queued puts its item first in the order of removal, any other add puts it last |
| AdaptiveLaws.FifoWithinLevel | src/shared_q.c:725-732 | Over every run with adaptive LIFO on at a fixed level, the FIFO is never longer than the level |
| AdaptiveLaws.OverloadIsNext | src/shared_q.c:725-732 | In such a run the item of an add that finds the level reached is the one the next remove returns, or discards if it has expired |
| AdaptiveLaws.WhichEventWhen | src/shared_q.c:647-671 | Which event is raised when, for every operation of every run: INIT by the first add, NONEMPTY by an add to an empty queue, LIMIT by the add that takes the last place, LEVEL by an add that reaches the level, EMPTY by a remove that takes the last item, TIME by a remove that discards one; each exactly if subscribed, and no other |
| AdaptiveLaws.EmptyTime | src/shared_q.c:583-604 | Over every run with a clock that does not go back, the time of emptiness is the reading of the clock in the latest add that found the queue empty, and zero if there was none, or none since the last item was taken with limit and target set |
| AdaptiveLaws.WhenTargetApplies | src/shared_q.c:913-937 | A remove holds an item to the target exactly if limit and target are set, the item is not the last, and that reading is longer ago than the limit; else to the limit |
| AdaptiveLaws.LastAddTime | src/shared_q.c:673-683 | Over every run the time of the last add is the one that its item carries |
| AdaptiveLaws.RemoveReads | src/shared_q.c:1214-1266 | A remove reads the clock once for each item that it takes while discard is on, and not at all otherwise |
| AdaptiveLaws.SubscribingTurnsOn | src/shared_q.c:478-533 | A subscription turns on the event it names; one to all events turns on all six exactly if none is on; nothing else |
| AdaptiveLaws.SubscribingTurnsOff | src/shared_q.c:478-533 | Withdrawing turns off exactly the event it names, or all six |
| AdaptiveRuns.NothingLostNothingTwice | src/shared_q.c:2087-2139 | Over every sequential run each item added is delivered once, discarded or cleaned once, or still queued; counters agree and stay in bounds; INIT is raised at most once |
| AdaptiveRuns.OnlyExpiredLost | src/shared_q.c:1214-1266 | Over every sequential run an item is lost only to a remove whose verdict on it was that it had expired, or to a clean whose limit it exceeded |
| AdaptiveRuns.NothingLost | src/shared_q.c:1235-1247 | Over every sequential run in which discard is never turned on and nothing is cleaned, no item is lost |
| AdaptiveRuns.FirstInFirstOut | src/shared_q.c:1109-1176 | Without adaptive LIFO, discard and clean, items come out in the order they went in, over every run |
| AdaptiveRuns.OneEventForOneSubscription | src/shared_q.c:535-580 | Over every sequential run, for each event: delivered, pending, in force and withdrawn add up to the subscriptions made; and the events delivered, in order, followed by those pending are the events raised |
| FlagBits.FlagsApart | src/shared_q.c:57-65 | Setting or clearing one flag of the flag word leaves every other flag as it was |
| FlagBits.FlagsOf | src/shared_int.c:788-852 | The same for the flags of all events at once: set_flag turns all of them on if none is, else nothing; clear_flag turns off those of them that are on; no other flag changes |
| Timespec.SumsAreExact | include/shared.h:34-52 | On normalised times sums and differences are exact and normalised |
| Timespec.Cell.SetToSum | include/shared.h:34-42 | timespecadd, also when the result is one of the operands |
| Timespec.Cell.SetToDifference | include/shared.h:44-52 | timespecsub, also when the result is one of the operands |
| Timespec.ComparisonIsExactIff | include/shared.h:54-57 | Comparing with a caller's limit is exact for all normalised times if and only if its nanoseconds are at least -1 and below a second |
| Timespec.ExceedsIsOlder | src/shared_q.c:862-895 | An item exceeds a limit if and only if the limit is not zero and the item is older, to the nanosecond |
| Timespec.DelayRule | src/shared_q.c:897-938 | The target is used exactly if both limits are set, the queue has been empty, and that is longer ago than the limit |
| Timespec.ExpiryIsFinal | src/shared_q.c:862-895 | An item that has expired stays expired |
| Codec.CalcDataSlots | src/shared_q.c:212-231 | The space asked for is the header and the value in whole longs |
| Codec.CalcVectorSlots | src/shared_q.c:273-299 | The space asked for is the header, the fields in whole longs, and one long more for each field with a remainder |
| Codec.RecordedLengthIsExactIff | src/shared_q.c:331 | The length recorded for a vector is that of its fields if and only if each field fills its last long |
| Codec.CopyValue | src/shared_q.c:254-264 | Header and bytes of a single value, within the space asked for; the size word is left alone |
| Codec.CopyVector | src/shared_q.c:302-359 | Succeeds exactly for two or more entries that all have a type, bytes and a base; then header and fields are laid out one after the other; no byte outside the space asked for is written |
| Codec.InitializeItemVector | src/shared_q.c:997-1028 | The entries have the types, lengths and bytes of the fields, and all of these lie before the table |
| Codec.ResizeBuffer | src/shared_q.c:960-994 | The caller's buffer exactly if it is large enough, else a new one, or none exactly if malloc refuses it |
| Codec.CopyToBuffer | src/shared_q.c:1031-1071 | The buffer holds the block behind its first word, and the table of entries fits behind it; nothing exactly if the buffer is too small and malloc refuses |
| Codec.VectorRoundTrip | src/shared_q.c:302-359 | Every vector that is accepted comes back with the same types, lengths and bytes, in a block of any sufficient capacity |
| Codec.ValueRoundTrip | src/shared_q.c:1057-1064 | The same for a single value |
| Codec.LongRoundTrip | src/shared_q.c:347-348 | A long survives being stored as eight bytes |
| Codec.BytesRoundTrip | src/shared_q.c:254-264 | Bytes stored as longs read back as the same bytes, in as few longs as hold them |
| Codec.VectorWords | src/shared_q.c:302-359 | The longs that copy_vector fills spell the fields behind any header, whatever follows them |
| Codec.RecordedSufficesIff | src/shared_int.c:859-881 | A buffer of the recorded size is large enough for an item exactly if its block has at most one long more than was asked for: for a new block exactly if that number or the next is a power of two |

## Left out

- TaggedListTheorems.ListsStayIntact: assumes that no link DWCAS hits a recycled node that shows generation 0; with ID_CNTR starting at 0 the claim is false without it (TaggedListZero.ZeroStartBreaks), and the assumption is exact (TaggedListExact.IntactIffClean).
- TaggedListTheorems.StalePairsNeverMatch: has the same assumption; so have TaggedListTheorems.FirstInFirstOut and TaggedListTheorems.OnePlace.
- TaggedListTheorems.FirstInFirstOut: a node carries one value, for the data slot of an item or for an event; the LIFO stack is only a place here, what its loads see is in CountedStack.
- CountedStackTheorems.EveryStepIsAPushAPopOrNothing: a load and the private store it feeds are one step, and so is the exchange of a block between processes by way of a list.
- Growth.GrowthIsOrderly: says nothing about the physical length of the file, because the argument of ftruncate and SIZE are loaded separately from the calls they guard.
- FlagWord.OnlyOwnBitsChange: a word is the set of its one bits.
- SharedMemory.Base.AllocDataSlots: requires a request of at most 2^30 slots, since exactly these are rounded and reused correctly (SizeClass.ServedIff); what a larger one does to the heap is not modelled.
- SizeClass.RoundUpIsLeastPower: a shift by 32 or more, which C leaves undefined, is taken modulo 32.
- SharedMemory.Base.AllocNewData: some retry loops, which a process alone leaves in their first round, are a single round here; so in SharedMemory.Base.AllocIdxSlots, SharedQueue.ShrQueue.SetFlag, SharedQueue.ShrQueue.ClearFlag and SharedQueue.ShrQueue.ShrqEvent. What retries do is in the protocols.
- SharedQueue.ShrQueue.ShrqAdd: takes a value of at most 2^30 longs with its header, as SharedMemory.Base.AllocDataSlots does; a null queue pointer is not modelled.
- SharedQueue.ShrQueue.ShrqAddv: the same bound on the space asked for; a negative count of entries or of bytes is not modelled.
- SharedQueue.ShrQueue.CopyItem: stores whole words, into which ShrqAdd and ShrqAddv pack the bytes; the update of the recorded buffer size is left out.
- SharedQueue.ShrQueue.ShrqRemove: returns the words of the data block; what they hold is SharedQueue.ReadItem, and the table of entries Codec.CopyToBuffer.
- SharedLaws.SubscriptionsConserved: without refusals of memory only; with them an event can use up its subscription and be lost (SharedQueue.ShrQueue.AddEvent).
- SharedRuns.RunCalls: the queue has been created (SharedQueue.ShrQueue.Create), the handle is open for reading and writing, and the calls pass the checks of their arguments; those that do not change nothing but for the block a rejected vector leaves behind, as their own contracts say.
- SharedRuns.ValuesConserved: an item that is taken without room for it in a buffer counts as taken.
- Carving.OthersKeep: a block stays with the process that has carved it; handing on, freeing and reuse are in TaggedList and CountedStack.
- SharedQueue.ShrQueue.AddEvent: signals to a monitoring process are left out, here and in the other methods.
- AdaptiveRuns.NothingLostNothingTwice: operations of a run follow one another; what interleaved operations do is the subject of the protocols.
- Waiting for a semaphore, its timeouts, and the counters of blocked callers: a gate is open or not.
- Opening, closing and destroying the object, file names, permissions, mapping errors, and the release of old mappings.
- The asserts on slot numbers in insure_in_range when another process has just emptied a list or the stack.
- shr_q_buffer, and the record it returns beyond what a single add tells it.
- shr_q_exceeds_idle_time, shr_q_last_empty, shr_q_count and the other queries.
- The weak compare-and-swap of the C11 build, 32-bit builds, relaxed memory order, and the wrap-around of counters.
- The command line tools, the benchmark, the examples and the table of error texts.
