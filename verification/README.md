# Verified models of the ggml memory and scheduling layer

This project models the part of the vendored ggml runtime that decides where tensors live and on which
backend they are computed, and proves in Dafny that these decisions do not change what a graph computes.
It follows the source file by file: code that updates state step by step is a class or a method with
loops over arrays, specified by functions whose own properties are proved as lemmas.

| files | what they model |
|---|---|
| `FreeList`, `Chunk`, `DynTallocr`, `DynTallocrLaws` | the dynamic tensor allocator: chunks with address-ordered free lists |
| `Graph`, `Execution`, `ExactPlans` | graphs, lifetimes of tensors, running a graph on flat memory and on private storage, and when a plan serves a graph |
| `PlannerSpec`, `PlannerWalk`, `PlannerRuns`, `PlannerSuccess`, `PlannerPlaces`, `Planner` | the graph memory planner: its steps, the invariant of the walk, whole runs, graphs for which it cannot stop, which buffer everything ends in, and the class itself |
| `Replay`, `ReplayOffers`, `ReplayLimits` | recording a plan and using it for other graphs; which graphs are accepted and what they are handed; graphs it is used for although it does not fit them |
| `SchedGraph`, `SchedAssign`, `SchedPasses`, `SchedSplit`, `SchedMeaning`, `SchedGraphCopy` | the backend scheduler: assignment, splits, running the splits, the graph copy |
| `SchedHomes`, `SchedSpread`, `SchedCuts` | where passes 1, 3 and 4 put a tensor, what the four sweeps of pass 2 amount to, and where the graph is cut, each told from the graph, the ids and the splits alone |
| `SchedPlanned` | the graph copy as the memory planner sees it |
| `SchedSettings`, `SchedPinned` | the scheduler from the user's settings to the result: when it is right, and two settings with which it is not |
| `ExpertCopy` | copying only the used experts of a weight tensor |
| `AllReduce`, `DelayedReduce`, `Sharding`, `ShardingAccepts`, `Scatter` | the tensor-parallel meta backend |
| `OptDataset`, `OptDriver` | the training driver |
| `HashSet` | the linear-probing hash set and its bitset |
| `Arithmetic`, `Wrappers` | products, quotients and offsets; options |

The planner, the scheduler and the meta backend look at different fields of a tensor, so each has a graph
type with the fields it reads.

Values of tensors are bytes, integers or sequences of integers; operations are arbitrary functions of
their arguments. Sizes and addresses are natural numbers; the limits `SIZE_MAX`, `SIZE_MAX/2`, 16 chunks,
256 free blocks and 30 split inputs are written out where the code uses them. An assertion or abort of the
source is a method result (`false`, `None`, `Full`), so that the contract says when it happens.

## What was found

These promises do not hold of the code as they stand; the project proves when they do.

- Header promise "output tensors are never freed" (`include/ggml-alloc.h:44`): an output that is a view keeps
  its memory only if its root is an output or some view of the root is never read (`OutputViewIsKept`,
  `OutputViewIsReleased`).
- Using a recorded plan again: only counts and sizes are compared. What an accepted graph, of whatever shape, is
  handed out serves it if and only if its inputs do not overlap there and no node writes over what is still to be read
  (`ServesIffNonInterfering`, `AcceptedGraphsRunSafely`); for a graph of the recorded shape, if and only if every node
  that was put where one of its sources is may still be computed there (`AcceptedShapesRunSafely`). This can fail:
  whatever plan is made for three chained nodes is used, too, when the last one reads another source
  (`TopologyIsNotCompared`), when the middle one cannot work in place any more or is laid out differently
  (`OperationsAreNotCompared`), and when a leaf that no node reads has grown (`UnreadLeafsAreNotCompared`).
- Splitting preserves the meaning of a graph if and only if every computing node runs where it can access its
  memory and the sources that are not copied, and no split first makes a copy of a tensor that it computes
  itself (`SplittingPreservesMeaning`). Views pinned to another backend than their root break both: the copy of
  a view is stale (`PinnedViewGoesStale`), or no copy is made although the reader cannot access the memory of
  the root (`PinnedViewIsUnreadable`).
- Of weights in host memory only the experts that the first node of a split uses are copied, but the copy stands for the
  whole tensor. Another node that reads it finds the right values if and only if every expert it names has arrived
  (`ReaderNeedsItsExperts`); an expert that was not used has arrived only if it was there before, up to the padding
  (`UnusedExpertStaysBehind`).
- The generic all-reduce is right for all values if and only if the number of backends is a power of two
  (`AllReduceNeedsPowerOfTwo`).
- The last subgraph is never reduced, although its result counts as held by every device for later readers if it is
  a product (`Reducer.Compute`). For a product of split factors this is right exactly with one device
  (`LastPartNeedsOneDevice`).
- Only the rule for products tells readers that a result in parts will have been all-reduced. Any other result computed
  from leafs in parts is all-reduced, too, but still counts as in parts, so what is computed from it is reduced a second
  time: scaling a leaf in parts twice gives n times the value on n devices (`ScaledTwiceIsMultiplied`). A reader of such
  results is right for all values if and only if there is one device or its operation is constantly zero
  (`SecondReductionIsWrong`); a reader of such results together with leafs in parts, if and only if there is one device
  or its operation is additive in the leafs, whatever the other sources are (`PartsAreReadRight`).
- The rules for the states of a result accept everything for which some state fits the devices' results, except on one
  device, or when one device has all of what is cut, or when a repeated source starts anew with every piece
  (`ShardingAccepts.AcceptedExactly`). There the program stops although it could go on.
- A delayed all-reduce does not look at the use counts of the nodes before the experts' head. Nobody outside the
  chain sees values in parts if and only if these counts are those of the next nodes of the chain
  (`PrivateIfUsesMatch`, `LaterReadersSeeFull`); otherwise some reader finds a wrong value (`PartsCanBeRead`,
  `EarlyReaderSeesPart`). For a single expert it looks one entry past the end of the node list in a case that
  `GetDelayed` characterises.
- `ggml_opt_epoch` on its own leaves gradients over unless both parts of the data are made of whole groups
  (`OptContext.Epoch`); `ggml_opt_fit` always meets this.

## Model

| member | source | states |
|---|---|---|
| FreeList.CanonicalUnique | src/ggml/src/ggml-alloc.c:134-157 | a sorted free list without touching blocks is determined by the bytes it covers, so stating those bytes states the list |
| FreeList.TakeReleaseIsIdentity | src/ggml/src/ggml-alloc.c:259-268 | taking a region that was free and releasing it gives back exactly the old list |
| FreeList.ReleaseOrderIrrelevant | src/ggml/src/ggml-alloc.c:311-349 | releasing two regions in either order gives the same list |
| FreeList.CarveTakes | src/ggml/src/ggml-alloc.c:259-268 | cutting the front of a block removes exactly those bytes, and the block when nothing is left |
| FreeList.GrowUpAndJoin | src/ggml/src/ggml-alloc.c:320-331 | a block that grows until it touches its successor swallows it: the list gains exactly the released bytes and stays canonical |
| FreeList.InsertReleases | src/ggml/src/ggml-alloc.c:134-149 | a region that touches no block, inserted in address order, adds exactly its bytes |
| Chunks.Chunk.InsertBlock | src/ggml/src/ggml-alloc.c:134-149 | in-place insertion: the list is the old one with the block at the first position whose offset is not smaller; refused exactly when 256 blocks are in use |
| Chunks.Chunk.RemoveBlock | src/ggml/src/ggml-alloc.c:151-157 | in-place removal: the list without element idx, reading one cell past the last block |
| Chunks.Chunk.Take | src/ggml/src/ggml-alloc.c:259-303 | the front of the block becomes live, and the high-water mark becomes the largest end handed out so far; free blocks and live regions still tile the chunk |
| Chunks.Chunk.FreeBytes | src/ggml/src/ggml-alloc.c:311-349 | releasing the end of a live region adds exactly those bytes to the free list and shortens the region; tiling is kept; fails exactly when 256 blocks are in use and none is touched |
| Chunks.LiveIsClear | src/ggml/src/ggml-alloc.c:311-349 | a live region never overlaps a free block |
| DynTallocrs.AlignUpIsLeast | src/ggml/src/ggml-alloc.c:52-56 | the rounded size is the least multiple of the alignment that is not smaller |
| DynTallocrs.ReuseIsCost | src/ggml/src/ggml-alloc.c:225-247 | the comparison on the signed reuse factor orders tail blocks by new growth first and waste second |
| DynTallocrs.ChosenUnique | src/ggml/src/ggml-alloc.c:208-247 | which free block serves a request is determined by the state |
| DynTallocrs.DynTallocr.BestInChunk | src/ggml/src/ggml-alloc.c:211-222 | the smallest fitting block of one chunk that is not its last, the last one on ties |
| DynTallocrs.DynTallocr.FindInterior | src/ggml/src/ggml-alloc.c:208-223 | the best interior block of the last chunk that has a fitting one: the best size is forgotten from chunk to chunk |
| DynTallocrs.DynTallocr.FindTail | src/ggml/src/ggml-alloc.c:225-247 | the tail block whose use causes least new growth and then least waste, the first one on ties |
| DynTallocrs.DynTallocr.NewChunk | src/ggml/src/ggml-alloc.c:159-177 | a new chunk has the larger of request and limit, the sixteenth SIZE_MAX/2; none when sixteen are open |
| DynTallocrs.DynTallocr.Alloc | src/ggml/src/ggml-alloc.c:201-309 | the request is served from the chosen block or a new chunk, at a multiple of the alignment that was not live; aborts exactly when nothing fits and no chunk can be opened |
| DynTallocrs.DynTallocr.FreeBytes | src/ggml/src/ggml-alloc.c:311-349 | the chunk's free list gains exactly the returned bytes; nothing else changes |
| DynTallocrs.DynTallocr.Reset | src/ggml/src/ggml-alloc.c:351-363 | no chunk and no live region remains |
| DynTallocrLaws.RefusedOnlyWhenFull | src/ggml/src/ggml-alloc.c:249-258 | a request is refused only when all sixteen chunks are open and the last chunk's high-water mark plus the request exceeds SIZE_MAX/2 |
| DynTallocrLaws.GrowsLeast | src/ggml/src/ggml-alloc.c:208-309 | if any free block fits, the request is served from one that raises its chunk's high-water mark least, and the other chunks are left alone |
| DynTallocrLaws.NewChunkSpans | src/ggml/src/ggml-alloc.c:159-177 | a chunk that is opened spans the request or, if that is larger, the limit; the sixteenth spans SIZE_MAX/2 |
| DynTallocrLaws.RequestsShareChunk | src/ggml/src/ggml-alloc.c:159-258 | so two requests that fit the limit together share a new chunk |
| DynTallocrLaws.ServeThenReleaseIsIdentity | src/ggml/src/ggml-alloc.c:201-349 | allocating and releasing restores every free list; only a chunk opened for the request stays, entirely free |
| DynTallocrLaws.ServedIsUnique | src/ggml/src/ggml-alloc.c:201-309 | address and new state of a served request are determined by the state of the allocator |
| DynTallocrLaws.ReleasedInIsUnique | src/ggml/src/ggml-alloc.c:311-349 | so is the state after a release |
| DynTallocrLaws.LiveRegionsApart | src/ggml/src/ggml-alloc.c:201-349 | live regions of a chunk never overlap and end below the high-water mark |
| DynTallocrLaws.HighWaterReachesTail | src/ggml/src/ggml-alloc.c:303 | the high-water mark reaches at least to the last free block |
| Graphs.NeededIsNotGone | src/ggml/src/ggml-alloc.c:787-820 | a tensor that a later node reads, directly or through a view, still has a nonzero child or view count |
| Graphs.GoneAtEnd | src/ggml/src/ggml-alloc.c:787-820 | after the last node exactly the tensors that are not outputs, unread or seen through an unread view have lost all uses |
| Executions.NonInterferingRunsLikePrivate | src/ggml/src/ggml-alloc.c:717-822 | if no node writes over bytes that it reads itself, unless it works in place on an operand of its layout, or that are needed later, then for all operations and inputs every node finds the source values and leaves the result it would with private storage, and so do the outputs; a node that writes over an operand otherwise leaves arbitrary bytes |
| Executions.TornOperandShows | src/ggml/src/ggml-alloc.c:633-653 | the operand condition is needed: a plan that lets a node write over an operand without working in place on it does not run like private storage |
| ExactPlans.PrivateIffNonInterfering | src/ggml/src/ggml-alloc.c:717-822 | for every graph whose nodes are no leafs and every plan whose inputs do not overlap: every node finds its sources and leaves its result as in private storage, for all operations and inputs, if and only if no node writes over what it still reads or what is needed later |
| ExactPlans.ServesIffNonInterfering | src/ggml/src/ggml-alloc.c:717-822 | a plan lets every choice of inputs be filled in and gives every node and output its private value if and only if inputs do not overlap and the plan is free of interference |
| Executions.LoadingWorks | src/ggml/src/ggml-alloc.c:723-727 | inputs that do not overlap can be filled with any values before the run |
| PlannerSpec.AllocateKeepsMem | src/ggml/src/ggml-alloc.c:622-688 | placing a tensor, fresh or in place of a parent, keeps live regions and tensors that hold memory in one-to-one correspondence |
| PlannerSpec.FreeKeepsMem | src/ggml/src/ggml-alloc.c:690-711 | so does releasing one |
| PlannerSpec.AllocatedApart | src/ggml/src/ggml-alloc.c:622-711 | two tensors that hold memory never overlap |
| PlannerSpec.PlacementHarmless | src/ggml/src/ggml-alloc.c:622-820 | the node being placed shares no byte with a tensor that is still needed after it, and none with a source it reads, except for the parent it has taken over: there the operation works in place, with the same layout at the same address |
| PlannerWalk.SourceIsSkipped | src/ggml/src/ggml-alloc.c:766-774 | a source is already placed when its reader is reached |
| PlannerWalk.PlacedOnce | src/ggml/src/ggml-alloc.c:622-630 | a node gets a place exactly if it is owned and not placed yet |
| PlannerWalk.TakenOverIsGone | src/ggml/src/ggml-alloc.c:632-678 | a parent whose memory is taken over is read by no later node and seen by no view |
| PlannerWalk.TakesOverInPlace | src/ggml/src/ggml-alloc.c:633-653 | a parent is taken over only by an operation that works in place, for a node of the same layout, which then has the parent's address |
| PlannerWalk.CountersStep | src/ggml/src/ggml-alloc.c:792-811 | after every step the child count is the number of source slots of unprocessed nodes that name the tensor, the view count the number of views still to be read |
| PlannerWalk.FreedIsGone | src/ggml/src/ggml-alloc.c:802-818 | whatever is released has no later reader |
| PlannerWalk.PlaceStep | src/ggml/src/ggml-alloc.c:776-777 | placing a node keeps the walk's invariant: bookkeeping, memory, bounds and harmlessness |
| PlannerWalk.SlotStep | src/ggml/src/ggml-alloc.c:792-819 | so does crossing off a source slot and releasing what it was the last use of |
| Planner.Gallocr.FindReusable | src/ggml/src/ggml-alloc.c:632-678 | the first source that can be taken over, which owns its memory: in every reachable state it is not a view, so the branch that reuses memory through a view is never entered |
| Planner.Gallocr.FreeExtraSpace | src/ggml/src/ggml-alloc.c:599-620 | the end of the parent's region that a smaller node does not need is returned; aborts exactly when the parent is smaller or the free list is full |
| Planner.Gallocr.AllocateNode | src/ggml/src/ggml-alloc.c:622-688 | a node is passed over, takes over a parent or gets a fresh region, as the state decides; aborts are characterised |
| Planner.Gallocr.FreeNode | src/ggml/src/ggml-alloc.c:690-711 | an output keeps its memory, any other tensor returns exactly its region |
| Planner.Gallocr.UpdateParent | src/ggml/src/ggml-alloc.c:792-819 | one source slot: the counts fall and the tensor without uses is released, keeping the walk's invariant |
| PlannerRuns.TraceRuns | src/ggml/src/ggml-alloc.c:717-822 | a list of states in which each follows from the one before by the step of the program, exactly as the allocators make it, is a run of the planner |
| PlannerRuns.TraceOf | src/ggml/src/ggml-alloc.c:717-822 | and every run has such a list of states |
| PlannerRuns.RunsAreUnique | src/ggml/src/ggml-alloc.c:717-822 | a program started in a state leads to one state only: places, free lists, chunks and high-water marks are determined |
| PlannerRuns.RunsDoNotStop | src/ggml/src/ggml-alloc.c:717-822 | a program that can be run to its end stops nowhere, so stopping is a property of the graph and the state it starts in |
| PlannerSuccess.SmallGraphsArePlanned | src/ggml/src/ggml-alloc.c:717-847 | a reservation stops nowhere if at most 254 tensors are to be placed, tensors of one layout need the same room, and the number of steps times the largest size does not exceed SIZE_MAX/2 |
| PlannerSuccess.FewBlocks | src/ggml/src/ggml-alloc.c:134-157 | a chunk has at most one free block more than it has live regions |
| PlannerSuccess.MemoryIsLeft | src/ggml/src/ggml-alloc.c:225-258 | no request is refused while the high-water marks and the request together stay below SIZE_MAX/2 |
| Planner.Gallocr.AllocGraphImpl | src/ggml/src/ggml-alloc.c:717-822 | makes exactly the steps of the graph's program, and stops if and only if one of these steps cannot be made: no memory, a full free list, or a node larger than the source it takes over. When it does not stop, the plan makes flat memory behave like private storage for all operations and inputs; inputs do not overlap; every place ends below its chunk's planned size; at the end exactly the persistent tensors hold memory. Every leaf ends in the buffer given for it, every other input in that of the first node that is or reads it, and every other node in its own, unless it works in place: then it has the place of its first source that has no other use left |
| Planner.Gallocr.Reserve | src/ggml/src/ggml-alloc.c:841-847 | the same from scratch, after resetting the allocators: it stops if and only if the program of the graph has a step that cannot be made starting from nothing |
| PlannerPlaces.PlanIsInItsBuffers | src/ggml/src/ggml-alloc.c:717-822 | the same of every run of the planner's steps, told from the graph and the two tables of buffers |
| PlannerPlaces.ReusableIsMayTake | src/ggml/src/ggml-alloc.c:632-653 | at its turn an operation that works in place finds a source reusable if and only if, by the graph, no other slot from there on names it, every view of it has been read, it is no output, owns its memory and has the same layout |
| PlannerPlaces.TakenOverIsFirst | src/ggml/src/ggml-alloc.c:632-678 | and it takes over the first such source, and none if there is none |
| Replay.PlanRecord.Record | src/ggml/src/ggml-alloc.c:849-902 | the record holds the planned place and size of every leaf, of every node and, in the table of ten slots, of every source of a node; empty slots record nothing |
| Replay.PlanRecord.NeedsRealloc | src/ggml/src/ggml-alloc.c:996-1049 | a graph is accepted exactly if the numbers of nodes and leafs agree and every node and every source, slot by slot, fits the recorded size |
| ReplayOffers.AcceptedExactly | src/ggml/src/ggml-alloc.c:996-1049 | told from the two graphs and the plan: accepted if and only if there are as many nodes and leafs, and every node, and every source in its slot, needs no more memory than its counterpart was given |
| ReplayOffers.RecordedIsAccepted | src/ggml/src/ggml-alloc.c:996-1049 | in particular the recorded graph itself |
| Replay.PlanRecord.Assign | src/ggml/src/ggml-alloc.c:969-1097 | for every accepted graph, of whatever shape, every tensor gets the first place that the record offers it on the way, leafs first, then sources before nodes |
| ReplayOffers.LeafIsHanded | src/ggml/src/ggml-alloc.c:1076-1081 | a leaf gets the place recorded for the leaf at its position |
| ReplayOffers.SourceIsHanded | src/ggml/src/ggml-alloc.c:1082-1092 | a source that is no leaf and has not been met before gets the place recorded for its slot |
| ReplayOffers.NodeIsHanded | src/ggml/src/ggml-alloc.c:1082-1094 | a node that has not been met before gets the place recorded for the node at its position |
| Replay.HandsOutThePlan | src/ggml/src/ggml-alloc.c:1051-1097 | for a graph of the recorded shape these are the planned places of all tensors that have one |
| Replay.ReplayIsSound | src/ggml/src/ggml-alloc.c:1051-1097 | for a graph of the same shape with no larger tensors, but any operations and layouts: inputs do not overlap, and the plan is free of interference and runs like private storage if and only if every node that was put where one of its sources is works in place there with the source's layout |
| Replay.AcceptedIsNoLarger | src/ggml/src/ggml-alloc.c:996-1049 | for the same shape, acceptance means that no tensor is larger, unread leafs excepted |
| Replay.SizeBuffer | src/ggml/src/ggml-alloc.c:904-942 | after sizing every chunk of a buffer reaches its high-water mark; a buffer that suffices is kept |
| Replay.PlacementsFit | src/ggml/src/ggml-backend.cpp:2016-2026 | every place handed out ends inside its backend buffer, so the bounds assertion holds |
| Replay.HandedOutIsBacked | src/ggml/src/ggml-alloc.c:969-1097 | whatever its shape, every tensor of an accepted graph whose leafs fit gets the place of a planned tensor that is at least as large |
| Replay.AcceptedGraphsRunSafely | src/ggml/src/ggml-alloc.c:1051-1097 | all of it together, for an accepted graph of any shape: the places it is handed out serve it if and only if its inputs do not overlap there and no node writes over what is still to be read; if its leafs fit their records, too, every tensor gets a place inside the reserved buffers |
| Replay.AcceptedShapesRunSafely | src/ggml/src/ggml-alloc.c:1051-1097 | for the recorded shape, with unread leafs that have not grown, the plan serves an accepted graph if and only if it may still work in place where the plan made it |
| ReplayLimits.TopologyIsNotCompared | src/ggml/src/ggml-alloc.c:1008-1049 | whatever plan the planner makes for a chain of three nodes, a graph whose last node reads the first one is accepted, and what it is handed out does not serve it |
| ReplayLimits.ChainSharesOnePlace | src/ggml/src/ggml-alloc.c:717-822 | every run of the planner on the chain puts all three nodes in one place |
| ReplayLimits.ChainCanBePlanned | src/ggml/src/ggml-alloc.c:717-822 | such a run exists for all sizes and alignments the planner accepts, so it does not stop at the chain |
| ReplayLimits.OperationsAreNotCompared | src/ggml/src/ggml-alloc.c:996-1049 | the chain with another operation or layout in the middle is accepted, too, and runs as with private storage if and only if it still works in place and the layout is the same |
| ReplayLimits.UnreadLeafsAreNotCompared | src/ggml/src/ggml-alloc.c:1008-1049 | a leaf that no node reads may have grown over its neighbour in an accepted graph: the plan serves the recorded graph and not this one |
| ReplayLimits.OutputViewIsKept | src/ggml/src/ggml-alloc.c:690-695 | the memory of an output view is kept to the end if and only if its root is an output or has a view that nobody reads |
| ReplayLimits.KeptOutputEndsRight | src/ggml/src/ggml-alloc.c:690-695 | and then, in every plan that serves the graph, it ends with its private value |
| ReplayLimits.OutputViewIsReleased | src/ggml/include/ggml-alloc.h:44 | a concrete graph in which a declared output loses its memory |
| SchedAssign.Scheduler.BackendFromBuffer | src/ggml/src/ggml-backend.cpp:846-866 | the first backend that supports both the memory of the tensor and the operation, or none |
| SchedAssign.Scheduler.BackendIdFromCur | src/ggml/src/ggml-backend.cpp:881-940 | which backend is suggested: the first that fits the tensor's own memory, else that of its root, else the last one for inputs, else the one of the first weight unless an earlier backend takes the operation over from the host, else none |
| SchedAssign.SuggestionIsUnique | src/ggml/src/ggml-backend.cpp:881-940 | these rules suggest a single backend |
| SchedAssign.SuggestionIsSupported | src/ggml/src/ggml-backend.cpp:881-940 | the suggested backend supports the operation, unless the tensor is an input; nothing is suggested without memory, flag or weight |
| SchedAssign.Scheduler.AssignFromBuffers | src/ggml/src/ggml-backend.cpp:1042-1077 | pass 1 gives exactly the unassigned leafs and nodes the suggested backend and changes nothing else |
| SchedHomes.MemoryDecides | src/ggml/src/ggml-backend.cpp:882-895 | after all passes, a tensor in memory assigned beforehand is on the first backend that reads that memory and supports its operation; a computing node may have moved on to one of higher priority with the same buffer type, here and in the next three rows |
| SchedHomes.InputsGoLast | src/ggml/src/ggml-backend.cpp:908-913 | an input for which there is no such backend is on the last one |
| SchedHomes.WeightDecides | src/ggml/src/ggml-backend.cpp:915-938 | any other tensor without such a backend follows its first weight, unless it is a rope |
| SchedHomes.OfferDecides | src/ggml/src/ggml-backend.cpp:925-934 | but from the last backend, if the weight is in host memory, to the first one of higher priority that offers to take the operation over |
| SchedAssign.Scheduler.ExpandDown | src/ggml/src/ggml-backend.cpp:1084-1104 | pass 2, downwards: a computing node without an id takes the id carried from the closest assigned node above if that backend supports it; nothing else changes |
| SchedAssign.Scheduler.ExpandUp | src/ggml/src/ggml-backend.cpp:1105-1126 | the same upwards |
| SchedAssign.Scheduler.Expand | src/ggml/src/ggml-backend.cpp:1079-1157 | pass 2 is four such sweeps, down and up, first without and then with the last backend; `ExpandedIsSpread` says what they amount to |
| SchedAssign.ExpandedSupports | src/ggml/src/ggml-backend.cpp:1079-1157 | pass 2 fills only unassigned computing nodes, with supporting backends, and a node left over is not supported by the backend offered from below |
| SchedSpread.ExpandedIsSpread | src/ggml/src/ggml-backend.cpp:1079-1157 | which computing node gets which backend, told from the ids before the pass: that of the closest assigned node above, if it supports the operation and is not the last one; else in the same way from below, if no node in between took its id from above; else the last one from above or from below; nothing else changes |
| SchedSpread.FilledFromClosest | src/ggml/src/ggml-backend.cpp:1079-1157 | so an id is taken only from a computing node from which nothing but computing nodes without an id, and views, separate the node |
| SchedSpread.SpreadIsUnique | src/ggml/src/ggml-backend.cpp:1079-1157 | and this description leaves no choice |
| SchedAssign.Scheduler.BestBackend | src/ggml/src/ggml-backend.cpp:1173-1194 | pass 3, unassigned node: the first supporting backend that can read the most sources in place |
| SchedAssign.Scheduler.UpgradeTarget | src/ggml/src/ggml-backend.cpp:1196-1215 | pass 3, assigned node: the first backend of higher priority with the same buffer type that supports the operation and all sources, or the present one |
| SchedAssign.Scheduler.Upgrade | src/ggml/src/ggml-backend.cpp:1159-1218 | pass 3 decides every node with the ids of that moment: final for the nodes before it, untouched from it on |
| SchedHomes.UpgradedToBest | src/ggml/src/ggml-backend.cpp:1195-1215 | told from the ids after the pass: an assigned node ends on the backend of highest priority, up to its own, that allocates in the same buffer type, supports the operation and reads every source where it is |
| SchedHomes.UnassignedGoesToSources | src/ggml/src/ggml-backend.cpp:1173-1194 | and an unassigned one on the supporting backend that reads the largest number of its sources, the first one on ties |
| SchedAssign.UpgradeLowers | src/ggml/src/ggml-backend.cpp:1159-1218 | pass 3 only lowers an assigned id and keeps its buffer type; whatever it assigns supports the operation |
| SchedAssign.Scheduler.AssignRest | src/ggml/src/ggml-backend.cpp:1220-1263 | pass 4 handles the nodes in order and stops exactly at the first that no backend could be given to |
| SchedHomes.FollowsItsReader | src/ggml/src/ggml-backend.cpp:1228-1244 | what no node computes and has no id goes to the backend of its first reader |
| SchedHomes.ViewFollowsRoot | src/ggml/src/ggml-backend.cpp:1224-1244 | a view without an id, read or computed, to that of its root |
| SchedHomes.FallsBack | src/ggml/src/ggml-backend.cpp:1245-1248 | a node with neither an id nor a root that has one to the first backend that supports it |
| SchedAssign.RestPromises | src/ggml/src/ggml-backend.cpp:1220-1263 | pass 4 only fills in ids, views follow their roots and sources get ids; it never stops if every operation has a supporting backend |
| SchedAssign.Scheduler.AssignBackends | src/ggml/src/ggml-backend.cpp:1042-1263 | passes 1 to 4: if every operation has a supporting backend the assertion never fires, and every computing node that is neither pinned nor an input ends on a supporting backend; pinned ids only move to a backend of higher priority with the same buffer type |
| SchedPasses.UpgradedIsUnique | src/ggml/src/ggml-backend.cpp:1159-1218 | what pass 3 states leaves no choice, although every decision depends on those before it |
| SchedPasses.AssignmentIsDetermined | src/ggml/src/ggml-backend.cpp:1042-1263 | the graph, the backends and the user's settings determine the final ids and whether the assertion fires |
| SchedAssign.SweptDownSupports | src/ggml/src/ggml-backend.cpp:1079-1157 | whatever a sweep assigns is supported |
| SchedSplit.Splitter.NeedNewSplit | src/ggml/src/ggml-backend.cpp:1291-1322 | a split of its own is needed exactly if a weight would have to be copied, or a full split would need one more copy |
| SchedSplit.Splitter.RewriteSlot | src/ggml/src/ggml-backend.cpp:1339-1391 | a source the backend cannot read is replaced by its copy, made once per tensor and backend; fails if and only if a new copy is needed and the split is full |
| SchedSplit.SplitGraph | src/ggml/src/ggml-backend.cpp:1265-1396 | succeeds if and only if every computing node and its sources have backends and the scan never needs a new copy when 30 inputs are taken. The splits are cut exactly where the scan of the nodes says: at a node of another backend, a weight that would have to be copied, or one copy too many. They follow each other and cover the nodes, with one backend for all computing nodes; each (tensor, backend) pair is copied at most once, in a split that reads it, no later than needed; all other sources are untouched |
| SchedCuts.InputsAreExact | src/ggml/src/ggml-backend.cpp:1339-1391 | a split copies exactly what its nodes cannot read where it is and no earlier split on its backend has copied, each tensor once |
| SchedCuts.WeightsOpenSplits | src/ggml/src/ggml-backend.cpp:1291-1306 | told from the splits: no node before one that reads a weight which has to be copied adds an input to the split |
| SchedCuts.CutsAreNeeded | src/ggml/src/ggml-backend.cpp:1291-1337 | a split follows another one on the same backend only because its first node reads a weight that has to be copied and the split before copies something, or needs one more copy than the split before has room for |
| SchedMeaning.ComputeSplits | src/ggml/src/ggml-backend.cpp:1561-1742 | the loop over splits, inputs and nodes computes what the function RunSplits says, in which a node gets the contents of a source only from memory its backend can access, and anything else otherwise |
| SchedMeaning.FreshOnBothSides | src/ggml/src/ggml-backend.cpp:1265-1396 | that no split copies what it computes can be told from the graph and the ids, through the scan of the cuts |
| SchedMeaning.SplittingPreservesMeaning | src/ggml/src/ggml-backend.cpp:1265-1396 | running the splits, copying inputs at their start, leaves the same contents in every tensor as running the graph, for all operations, views, initial contents, copy memory and contents of inaccessible memory, if and only if, by the graph, the backends and the ids, every computing node can access its memory and the sources that are not copied, and no copy is first made in the split that computes what it copies |
| SchedSettings.UnpinnedViewsPreserveMeaning | src/ggml/src/ggml-backend.cpp:1042-1396 | from the user's settings to the result: if no view is pinned or tied down, and memory assigned beforehand is usable by some backend, the assigned and split graph computes what the graph does |
| SchedSettings.MemoryStaysAtHome | src/ggml/src/ggml-backend.cpp:1042-1263 | after all passes a tensor in memory assigned beforehand is on a backend that can access that memory |
| SchedMeaning.ViewsAtHomeAreRight | src/ggml/src/ggml-backend.cpp:1368-1391 | everything can be accessed and no copy goes stale if every view a node reads has the backend of its computed root and assigned memory is accessible to the backend of its tensor |
| SchedPinned.PinnedViewGoesStale | src/ggml/src/ggml-backend.cpp:1368-1391 | a view and its reader pinned to different backends: the ids are those of the passes, and every split of them copies the view before its root is computed, so that some meaning is changed |
| SchedPinned.PinnedViewIsUnreadable | src/ggml/src/ggml-backend.cpp:1368-1391 | only the view pinned: its reader follows it, no copy is made because the ids agree, and the reader cannot access the memory of the root |
| SchedPinned.StalePlanIsMade | src/ggml/src/ggml-backend.cpp:1265-1396 | a split of these ids that meets the pass's promises exists |
| SchedPinned.UnreadablePlanIsMade | src/ggml/src/ggml-backend.cpp:1265-1396 | and so does one in the other case |
| SchedGraphCopy.BuildGraphCopy | src/ggml/src/ggml-backend.cpp:1413-1501 | the copy holds, split by split, keep-alive views and copies of the inputs and then the nodes; node and leaf counts never exceed the reserved size |
| SchedGraphCopy.CopiesComeFirst | src/ggml/src/ggml-backend.cpp:1439-1462 | a copied tensor is kept alive up to its copy, and every node that reads the copy comes after it |
| SchedGraphCopy.NodesComeInOrder | src/ggml/src/ggml-backend.cpp:1464-1468 | the nodes keep their order |
| SchedPlanned.CopiedIsWellFormed | src/ggml/src/ggml-backend.cpp:1439-1487 | if the graph was one that the planner can be used for, the graph copy is one if and only if whatever a split copies could be read by its first node: rewired sources, copies and keep-alive views come in the right order, and nothing is read less than before |
| SchedPlanned.FreshCopiesAreInTime | src/ggml/src/ggml-backend.cpp:1439-1487 | if no copy goes stale, if and only if every copied view, or the memory behind it, is there before its split |
| SchedPlanned.CopiedValuesAreRight | src/ggml/src/ggml-backend.cpp:1449-1456 | then, in every plan without interference for the graph copy, whatever a split copies has at that moment the value it would have in memory of its own |
| ExpertCopy.MarkUsed | src/ggml/src/ggml-backend.cpp:1629-1639 | the used set is exactly the ids of the routing table |
| ExpertCopy.CopyRun | src/ggml/src/ggml-backend.cpp:1644-1656 | one transfer copies the run and its padding and nothing else, inside the tensor |
| ExpertCopy.CopyExperts | src/ggml/src/ggml-backend.cpp:1658-1680 | the transfers are the maximal runs of used experts in order; exactly their ranges change, and every used expert equals the source |
| ExpertCopy.CopyRouted | src/ggml/src/ggml-backend.cpp:1610-1680 | every expert that the routing table names equals the source afterwards |
| ExpertCopy.RoutedProductIsTheSame | src/ggml/src/ggml-backend.cpp:1597-1603 | so the product routed by that table is what it would be had the whole tensor been copied, whatever is done with each expert |
| ExpertCopy.ReaderNeedsItsExperts | src/ggml/src/ggml-backend.cpp:1597-1603 | a product routed by any table is right, whatever is done with each expert, if and only if all experts it names have arrived |
| ExpertCopy.UnusedExpertStaysBehind | src/ggml/src/ggml-backend.cpp:1644-1656 | an expert that the copied table does not use has arrived if and only if it was there before, except for the padding behind a used one |
| ExpertCopy.RunsAreUnique | src/ggml/src/ggml-backend.cpp:1658-1680 | the used set determines the list of transfers |
| AllReduce.XorIsPartner | src/ggml/src/ggml-backend-meta.cpp:1788-1792 | for a power of two, exclusive or moves a backend to the neighbouring block |
| AllReduce.Reducer.Exchange | src/ggml/src/ggml-backend-meta.cpp:1788-1845 | all pairs receive each other's value before anybody adds; no buffer is written twice; the auxiliary pools have room |
| AllReduce.Reducer.AddReceived | src/ggml/src/ggml-backend-meta.cpp:1847-1857 | everybody with a partner adds the partner's old value |
| AllReduce.Reducer.AllReduce | src/ggml/src/ggml-backend-meta.cpp:1782-1860 | the loop computes all doubling steps and takes at most one auxiliary graph per backend and step |
| AllReduce.Reducer.Compute | src/ggml/src/ggml-backend-meta.cpp:1715-1893 | every subgraph's output but the last one's is reduced, and the pools never run out for any number of backends |
| AllReduce.StepsIsCeilingOfLog | src/ggml/src/ggml-backend-meta.cpp:1469-1471 | the number of steps the pools are sized for is the binary logarithm rounded up, which is the number of steps taken |
| AllReduce.BlockSums | src/ggml/src/ggml-backend-meta.cpp:1785-1858 | before the step with offset d every backend in a complete aligned block of d backends holds the block's sum |
| AllReduce.AllReduceNeedsPowerOfTwo | src/ggml/src/ggml-backend-meta.cpp:1782-1860 | all backends end with the full sum, whatever the values, if and only if their number is a power of two |
| DelayedReduce.GetDelayed | src/ggml/src/ggml-backend-meta.cpp:1611-1675 | the last node of the longest bias, weights, expert-sum chain, inside the graph; says exactly when the node list is read past its end |
| DelayedReduce.WholePatternIsDelayed | src/ggml/src/ggml-backend-meta.cpp:1611-1675 | the nodes of a product of n experts with bias, weights, views and additions are delayed as a whole, up to the last addition |
| DelayedReduce.DelayedReduceIsRight | src/ggml/src/ggml-backend-meta.cpp:1611-1675 | for any number of devices and experts, reducing at the end of the chain gives what the chain computes from the reduced value, if the other operands are computed before it and held as the states say that the search looks at |
| DelayedReduce.StatesMakeReady | src/ggml/src/ggml-backend-meta.cpp:1620-1643 | the states that the search asks for, a bias in parts with ids held by all and weights held by all, are the ones that make this work |
| DelayedReduce.FanIsPrivate | src/ggml/src/ggml-backend-meta.cpp:1645-1671 | by the use counts nobody outside the chain reads its nodes from the head on, so nobody sees values in parts |
| DelayedReduce.PartsCanBeRead | src/ggml/src/ggml-backend-meta.cpp:1620-1632 | if a use count does not match, a node outside the chain reads one of its nodes, and for some values it does not find the full value on the second device |
| DelayedReduce.PrivateIfUsesMatch | src/ggml/src/ggml-backend-meta.cpp:1611-1675 | nobody outside the chain reads the nodes before its end if and only if the use counts of the nodes before the head equal the slots of the next chain node that name them |
| DelayedReduce.LaterReadersSeeFull | src/ggml/src/ggml-backend-meta.cpp:1611-1675 | then every node after the chain finds the full value of its end on every device, and everything else unchanged |
| DelayedReduce.EarlyReaderSeesPart | src/ggml/src/ggml-backend-meta.cpp:1620-1632 | a concrete graph where a bias follows and a later node finds a part |
| DelayedReduce.CutSubgraphs | src/ggml/src/ggml-backend-meta.cpp:1677-1702 | the subgraphs follow each other, each ends with the chain of the partial node that closes it, and they cover the graph exactly unless the last node is a skipped host view |
| Sharding.SizesAddUp | src/ggml/src/ggml-backend-meta.cpp:983-1020 | the sizes an inferred split takes over add up to the extent of the result |
| Sharding.RuleHolds | src/ggml/src/ggml-backend-meta.cpp:476-556 | for each rule: if the devices hold the sources as the states say, they hold the result as the rule says; what the rules accept is stated by `ShardingAccepts` |
| Sharding.InferIsRule | src/ggml/src/ggml-backend-meta.cpp:983-1020 | taking over the ratio of the first split source gives the sizes the rule needs |
| ShardingAccepts.AcceptedExactly | src/ggml/src/ggml-backend-meta.cpp:476-1020 | for sources with elements, none of them in parts: some state fits what the devices compute, whatever the function and the values are, if and only if the sources are accepted, or there is one device, or one device has all that is cut, or a repeated source starts anew with every piece; the inferred state is one that fits |
| ShardingAccepts.ProductFits | src/ggml/src/ggml-backend-meta.cpp:535-553 | products outside the four accepted cases: only with all that is cut on one device |
| ShardingAccepts.ElementwiseFits | src/ggml/src/ggml-backend-meta.cpp:476-497 | elementwise operations on states that differ: only with all that is cut, the first source included, on one device |
| ShardingAccepts.BroadcastFits | src/ggml/src/ggml-backend-meta.cpp:506-517 | a repeated second source: only with all that is cut on one device, or if it is held by all and every piece of the first starts at a multiple of its extent |
| ShardingAccepts.RowsFit | src/ggml/src/ggml-backend-meta.cpp:500-503 | cut rows: only with all of them on one device, and not if a row becomes a single value |
| ShardingAccepts.PartsAccepted | src/ggml/src/ggml-backend-meta.cpp:476-553 | with a source in parts exactly the sources are accepted that are all in parts, for every operation but the product, and the result is in parts |
| Sharding.ShardingPreservesMeaning | src/ggml/src/ggml-backend-meta.cpp:476-1021 | at every point of every accepted program, recombining what the devices hold gives the unsharded values, for a power-of-two number of devices and leafs that are split, held by all or in parts, if whatever counts as in parts is read by operations that are additive in those sources that have not been all-reduced yet; on several devices a product that the very last instruction leaves in parts is excepted |
| Sharding.AdditiveOpKeepsParts | src/ggml/src/ggml-backend-meta.cpp:476-520 | an elementwise, broadcast or per-row operation that is additive in the sources in parts, whatever the sources held by all are, gives a result in parts |
| Sharding.LastPartNeedsOneDevice | src/ggml/src/ggml-backend-meta.cpp:1872 | a last product that is left in parts is held by every device, for all values of the sources, if and only if there is one device |
| Sharding.PartsNeedAdditiveOps | src/ggml/src/ggml-backend-meta.cpp:476-520 | for each of these operations, any number of sources of which some are held by all and the others in parts, and any number of devices from two on: the result is in parts for all values if and only if the operation is additive in the sources in parts |
| Sharding.PartsAreReadRight | src/ggml/src/ggml-backend-meta.cpp:1683-1687 | a reader of sources that count as in parts, some of which have been all-reduced before, leaves the right value on every device, for all values, if and only if there is one device or its operation is additive in the others |
| Sharding.SecondReductionIsWrong | src/ggml/src/ggml-backend-meta.cpp:786 | if all its sources have been all-reduced before, if and only if there is one device or the operation is constantly zero |
| Sharding.ScaledTwiceIsMultiplied | src/ggml/src/ggml-backend-meta.cpp:851-853 | a program in which a leaf in parts is scaled, the result is scaled again and something follows: every one of n devices ends with n times the second result |
| Scatter.Set2D | src/ggml/src/ggml-backend-meta.cpp:1198-1199 | a strided copy: every row arrives and no other byte changes |
| Scatter.MetaTensor.SetTensor | src/ggml/src/ggml-backend-meta.cpp:1222-1241 | writing whole rows replaces exactly the addressed range of the tensor as its user sees it |
| Scatter.MetaTensor.GetTensor | src/ggml/src/ggml-backend-meta.cpp:1275-1294 | reading whole rows returns exactly that range, so reading after writing returns what was written |
| Scatter.MetaTensor.SetSegments | src/ggml/src/ggml-backend-meta.cpp:1184-1219 | every piece of every segment arrives on its device behind the earlier segments, and together they fill every place of every device's rows with the byte that belongs there |
| Scatter.SegmentsSpreadOut | src/ggml/src/ggml-backend-meta.cpp:1184-1219 | from the written pieces: place x of row r of device j holds byte Origin(j, x) of row r, for every row, device and place |
| Scatter.EveryByteArrives | src/ggml/src/ggml-backend-meta.cpp:1184-1219 | and every byte of every row is found at its target |
| Scatter.TargetHasOrigin | src/ggml/src/ggml-backend-meta.cpp:1184-1219 | the two index maps are inverse: the target of a byte has that byte as its origin |
| Scatter.OriginHasTarget | src/ggml/src/ggml-backend-meta.cpp:1184-1219 | and the origin of a place has that place as its target, so no place is filled twice and none is left out |
| OptDataset.Dataset.Shuffle | src/ggml/src/ggml-opt.cpp:150-161 | the table is the old one with the swaps of the draws made in order; a prefix shuffle keeps the shards before the boundary and the table behind it |
| OptDataset.EveryOrderIsDrawn | src/ggml/src/ggml-opt.cpp:150-161 | every order of a table comes from some list of draws, draw i being at most i |
| OptDataset.DrawsAreDetermined | src/ggml/src/ggml-opt.cpp:150-161 | and, for a table of different shards, from one such list only |
| OptDataset.Dataset.GetBatch | src/ggml/src/ggml-opt.cpp:163-194 | batch b consists of the shards at its place in the table |
| OptDataset.BatchesCover | src/ggml/src/ggml-opt.cpp:163-194 | consecutive batches together are a stretch of the table |
| OptDriver.OptContext.Alloc | src/ggml/src/ggml-opt.cpp:725-780 | which graph is built next, and when the gradients are cleared |
| OptDriver.OptContext.Eval | src/ggml/src/ggml-opt.cpp:782-836 | gradients accumulate, the optimizer graph makes one step that sees them, and the counters advance |
| OptDriver.OptContext.TrainOn | src/ggml/src/ggml-opt.cpp:725-836 | a training batch joins its group; the one that completes it makes a step that sees exactly the group |
| OptDriver.GroupsAreConsecutive | src/ggml/src/ggml-opt.cpp:905-914 | step k sees exactly batches k * period up to (k + 1) * period |
| OptDriver.OptContext.Epoch | src/ggml/src/ggml-opt.cpp:881-924 | the steps of an epoch see the groups of its training batches, one step and one iteration each; nothing is left over if and only if both parts are made of whole groups |
| OptDriver.Fit | src/ggml/src/ggml-opt.cpp:999-1079 | over a whole run every step sees exactly its own group of its own epoch, nothing is left over at any boundary, the number k of logical batches trained on is the share 1 - val_split of all of them, rounded down, and the iteration count grows by k each epoch; the table of every epoch is the one before with the swaps of its draws among the training shards, so all epochs share one permutation up to that order |
| OptDriver.WithoutValidationAllIsTrained | src/ggml/src/ggml-opt.cpp:1022-1026 | with val_split 0 an epoch trains on every shard exactly once |
| OptDriver.EpochVisitsEveryShardOnce | src/ggml/src/ggml-opt.cpp:895-924 | training and validation batches of an epoch together visit every shard once |
| OptDriver.TrainingAndValidationStayApart | src/ggml/src/ggml-opt.cpp:1042-1061 | no shard is used for training in one epoch and for validation in another |
| HashSets.SetOneBit | src/ggml/src/ggml-impl.h:213-215 | setting a bit of a word changes no other |
| HashSets.SetBit | src/ggml/src/ggml-impl.h:213-215 | exactly the bit of the index is set in the bitset |
| HashSets.FreeSlotEndsSearch | src/ggml/src/ggml-impl.h:259-272 | behind the first free slot of its probe sequence a key cannot be |
| HashSets.RoundIsComplete | src/ggml/src/ggml-impl.h:259-272 | a full round visits every slot, so the table is full and the key is not in it |
| HashSets.KeysAreDistinct | src/ggml/src/ggml-impl.h:279-298 | a key is in one slot only |
| HashSets.PutKeepsProper | src/ggml/src/ggml-impl.h:279-319 | filling the free slot at the end of a search keeps every key reachable and moves none |
| HashSets.HashSet.Find | src/ggml/src/ggml-impl.h:259-272 | the key's slot if it is in the set, else a free slot, else FULL exactly when the table is full; terminates for any table size |
| HashSets.HashSet.Contains | src/ggml/src/ggml-impl.h:274-277 | agrees with the abstract set |
| HashSets.HashSet.Insert | src/ggml/src/ggml-impl.h:279-298 | adds the key to the abstract set and moves nothing; aborts exactly when the key is new and the table full |
| HashSets.HashSet.FindOrInsert | src/ggml/src/ggml-impl.h:300-319 | returns the slot of the key, which is in the set afterwards; aborts exactly when it is new and the table full |

## Left out

- Planner.Gallocr.Reserve: buffer types shared by several buffers are taken as one allocator; the hash table behind the planner is an array indexed by tensor here, and `HashSet` models it on its own.
- Planner.Gallocr.AllocGraphImpl: tensors have positive sizes; leafs and inputs have no operation; nodes are in topological order without self-sources; views are flattened, and a view that is read is a node; in-place operations are elementwise-safe.
- DynTallocrs.DynTallocr.Alloc: requests are at most SIZE_MAX/2 after rounding. The sixteenth chunk would be smaller than a larger request, and the size of its block would wrap around; arithmetic near SIZE_MAX is not modelled.
- Replay.AcceptedGraphsRunSafely: no node is a leaf, as in every graph that ggml builds (`ggml.c:6904-6919`) and in the scheduler's copy of it (`SchedPlanned.CopiedIsWellFormed`). A node reads at most ten sources, as in the source, which the graphs of the planner itself do not demand. A tensor whose record holds no place gets none here; the source stops at an assertion or, without assertions, hands out the invalid place.
- PlannerSuccess.SmallGraphsArePlanned: a sufficient condition that counts every step instead of the bytes live at one time, which do not bound the high-water mark when free space lies in pieces that are too small. Exactly when the planner stops is stated by `AllocGraphImpl` in terms of its steps.
- Replay.PlanRecord.Assign: virtual buffers are sequences of chunk sizes; backend allocation failure is not modelled.
- SchedSplit.SplitGraph: at least one node computes; a single copy of each input (`n_copies == 1`), so pipeline parallelism and input duplication are left out.
- SchedMeaning.SplittingPreservesMeaning: copies and nodes run one after the other; events, asynchronous copies, the eval callback and backend graph optimisation are left out. Graphs are single-assignment: only views refer to other tensors' contents. Memory that a backend cannot access yields an arbitrary value when read; the graph copy and the backends' own checks that might stop the program there are not part of this model.
- SchedGraphCopy.BuildGraphCopy: a copied tensor that is itself a view node may come after its keep-alive view, so only the order of copies, their readers and the nodes is stated. When the planner can be used for the copied graph is stated by `SchedPlanned`, but running the splits and running planned memory are two models: one has values by tensor and copies, the other bytes and no copies. In particular a node that takes over a source gets memory in that source's buffer, whatever backend it runs on, while `SchedMeaning` takes a tensor to be in the memory of its own backend.
- ExpertCopy.CopyExperts: the copies in `SchedMeaning` are whole tensors; for the product that the copy is made for this makes no difference, and when it does for others is stated separately. Ids are in range and at least one is used, as the source assumes; caching the ids between splits is left out.
- AllReduce.Reducer.Compute: backend-specific reductions and failing backends are left out; each value stands for one element.
- DelayedReduce.DelayedReduceIsRight: the other operands of the chain are computed before it and held as their states say.
- ShardingAccepts.AcceptedExactly: the sources have elements; for empty ones only what `RuleHolds` says of accepted sources is proved. A state that fits does so for every function of the operation; a function that does not look at a source could be accepted more often.
- Sharding.RuleHolds: the rules for mul_mat, elementwise, broadcast and per-row operations on two axes and one segment; reshape, view, permute, concat, rope, attention and recurrent rules and the state cache depend on stride conventions and are left out, as is ADD_ID outside the delayed chain.
- Scatter.MetaTensor.SetTensor: mirrored tensors (the same bytes everywhere) and partial ones (division by the number of devices in floating point) are left out.
- OptDataset.Dataset.Shuffle: the random engine is a list of draws, and the standard library's shuffle is modelled as the usual sequence of swaps.
- OptDriver.Fit: `val_split` is a real number, so rounding of its product is not modelled; losses, predictions and the progress bar are left out.
- HashSets.HashSet.Find: pointers are natural numbers; the choice of a prime table size is left out.
- GPU kernels, quantisation and floating-point conversion, the backend registry, the command line programs and everything that is input or output.
