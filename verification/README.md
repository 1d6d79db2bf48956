# Picasso: a verified model of the runtime and the compiler core

Picasso is a compiled language: a Go compiler (`irgen/`) emits LLVM IR, and a C runtime (`runtime/`) supplies memory,
green threads and synchronisation. This project models five parts of it in Dafny and proves what they promise.

**Arena allocator and sweep** (`ChunkLayout`, `Rings`, `Blocks`, `BinLists`, `ArenaSteps`, `Payloads`, `OwnerWrites`,
`ArenaSpec`, `Merging`, `AllocSpec`, `Arena`, `GcWalk`, `GcTop`, `GcSweep`, `ArenaLedger`, `ArenaRuns`). The heap is a
set of address-indexed header and link fields, updated in place by the class `Arena`. A ghost map says where every
chunk is: handed out, top, in a fastbin, in a ring bin, or in the hands of the running operation. `Good` is the
invariant: heaps are tiled by chunks up to their boundaries; every free chunk is in exactly one bin of its class; a
clear previous-in-use bit means that the previous chunk is binned and `prev_size` is its size; the two rings of a
large bin hold the same chunks, one of them sorted by size. Every operation is proved to keep it and to leave the
bytes of every payload that stays live alone. The sweep is proved over the walk as it is written: chunks merge and
headers go stale under the scan. The ledger runs requests, returns, collections and the owners' own writes in any
order.

**Lowering of structured control flow** (`SourceLang`, `SourceLaws`, `BlockGraph`, `Lowering`, `LoweringSim`,
`LoweringFunc`, `LoweringScope`, `LoweringForm`, `BlockHandler`). Statements run directly over a stack of scopes;
blocks run on a machine with phi nodes. Operators and conversions are an arbitrary world: they see everything that ran
before, and they may trap. The handlers, with their block holders, loop-end stack and scope stack, are proved to build
what the functions of `Lowering` say, and the graph those functions give is proved to do what the source does: a
function halts with an outcome exactly when its body ends with it. A function is lowered if and only if its body is
well scoped.

**Green-thread protocols** (`RwMutex`, `RwProgress`, `Mutex`, `WaitGroup`, `Scheduler`, `SchedulerOrder`, `DrainLoop`,
`WaitRing`). Each protocol is a system of steps at the granularity of one atomic access, one lock operation or one
queue operation, and every invariant holds in every interleaving. Which steps are possible, and which tasks are stuck,
is stated exactly too.

**Incremental build** (`ImportGraph`, `BuildCache`, `PackageBuilder`). The walk over imports, the spread of
modifications and the bottom-up build, up to one statement about a whole build from the cache.

**Expression parser** (`PrattTables`, `PrattParser`, `PrattOrder`). Printing an expression and parsing it are inverse,
and no shorter tokens are parsed to the same expression, so every parenthesis that is printed is needed.

`Options` holds the option type.

## What the proofs found

- `align16` wraps around: a request of more than 2^64 - 16 bytes is rounded to 0 and served with 32 bytes
  (`PayloadCoversRequest` gives the exact condition).
- A chunk can be up to 32 bytes larger than asked, and `_release` unmaps whatever is at least `MMAP_THRESHOLD`, also
  where it is part of a heap. Some arena hands out such a chunk for an aligned request below the threshold if and only
  if the request is larger than `MMAP_THRESHOLD` - 48 (`ThresholdIff`, `ServedStaysBounded`); what the top chunk
  serves is unmapped if and only if the top chunk reaches the threshold and cannot be split (`RequestAndReturn`).
  Eight requests of 114672 bytes and one of 131040 in a new arena do it (`ReachesThreshold`).
- A release can leave the in-use flag on the new top chunk (`ReleaseCanFlagTop`). The walk of a sweep calls `release`
  only for chunks that are handed out if and only if the top chunk does not look like an unmarked chunk in use;
  otherwise it comes to the top chunk and calls `release` for it (`SafeIffTopClear`, `MeetsTop`, `Sweep`). One request
  of 128 bytes and its release do it (`SweepMeetsTop`). `ClearAfterSweep` says exactly when a sweep leaves the next
  one safe.
- `largebin_search` finds nothing for requests below 512 bytes: a request of 256 bytes is carved from the top chunk
  although a chunk of 1024 bytes is in a large bin (`LargebinSearch`, `PassesOverLarge`).
- A release merges a chunk with one ring-binned chunk in front of it and one free chunk behind it (`ReleaseMerges`).
  Free chunks can stay side by side: after a release the chunk in front is ring-binned if and only if two such chunks
  stood in a row before, and likewise behind (`FreeInFront`, `FreeBehind`, `LeavesNeighbour`).
- The plain mutex excludes tasks from each other if and only if no fast path takes it while a slow path is between its
  load and its store (`ExclusiveIff`); two tasks can come to hold it both (`BothCanHold`).
- A writer whose first look finds readers yields without being in any queue. Its loop would go on, but no scheduler
  ever resumes it, and the mutex stays blocked (`ReturnsIff`, `NeverResumed`, `StuckForever`, `WriterCanGetStuck`).
- A function with a return type whose statements do not themselves include a return keeps one block without a
  terminator, even if every way through it returns (`FuncSealed`).
- `buildTree` never reports a cycle: errors of recursive calls are dropped, and the first call cannot fail
  (`CheckBuildCache`).
- Infix operators group to the right, and infix minus binds more strongly than every other one, because entering it as
  a prefix operator later overwrites its power (`FirstTakes`, `MinusFirst`, `BuildTokensTable`, `MinusOverwritten`).
  For the same reason a prefix operator takes all of a difference, -a - b being -(a - b) (`PrefixTakes`).

## Model

| member | source | states |
|---|---|---|
| ChunkLayout.Align16 | runtime/src/alloc.c:15-17 | rounds up to the next multiple of 16, and to 0 when the addition wraps around |
| ChunkLayout.PayloadFor | runtime/src/alloc.c:514-520 | the payload looked for is a multiple of 16 and at least the smallest payload; unless the rounding wraps around, it is the smallest payload or less than 16 bytes more than asked |
| ChunkLayout.PayloadCoversRequest | runtime/src/alloc.c:514-520 | the payload covers the request if and only if the request is at most 2^64 - 16 |
| ChunkLayout.LargestRequestIsTruncated | runtime/src/alloc.c:514-520 | the largest request is served with 32 bytes |
| ChunkLayout.LargeBinRange | runtime/src/alloc.c:169-201 | which sizes a large bin holds: a step of 64 bytes, the rest up to 64 KB, or one power of two |
| ChunkLayout.LargeBinIndex | runtime/src/alloc.c:173-201 | negative exactly below 512 bytes, otherwise a valid bin |
| ChunkLayout.LargeBinIndexMonotone | runtime/src/alloc.c:173-201 | a larger chunk never goes to a lower bin |
| ChunkLayout.NextHeapSize | runtime/src/alloc.c:204-215 | heap sizes are multiples of 16 and at least 1 MB |
| ChunkLayout.HeapBytesAre | runtime/src/alloc.c:204-215 | heap k, counted from 0, has 2^k MB for k below 7 and 64 (k - 6) MB from there on |
| ChunkLayout.NextHeapIs | runtime/src/alloc.c:204-215 | with the counters that belong to n heaps, the next heap has the size of heap n |
| Rings.RingUnlink | runtime/src/alloc.c:142-156 | unlinking an element of a ring with sentinel leaves the ring of the others |
| Rings.RingInsert | runtime/src/alloc.c:158-163 | linking in a new element at a position gives the ring with that element |
| Blocks.JoinKeeps | runtime/src/alloc.c:590-620 | merging two adjacent loose chunks keeps tiling, flags, boundary tags and classes of all chunks |
| Blocks.CutKeeps | runtime/src/alloc.c:440-452 | cutting a chunk in two keeps tiling, flags, boundary tags and classes of all chunks |
| Blocks.ShelveKeeps | runtime/src/alloc.c:314-332 | a chunk that is marked free and told to its successor keeps all header invariants |
| Blocks.GrowKeeps | runtime/src/alloc.c:221-241 | a new heap with its boundary keeps all header invariants of the others |
| ArenaSteps.DetachGood | runtime/src/alloc.c:142-156 | taking a chunk out of both rings of its bin keeps every list, and leaves exactly that chunk unbinned |
| ArenaSteps.ShelveGood | runtime/src/alloc.c:314-332 | entering a loose chunk in the unsorted bin keeps the whole arena well formed |
| ArenaSteps.SmallGood | runtime/src/alloc.c:264-275 | entering a chunk in the small bin of its size keeps the whole arena well formed |
| ArenaSteps.LargeGood | runtime/src/alloc.c:277-312 | entering a chunk in a large bin at its place in the size ring keeps both rings, with the same members, sorted |
| ArenaSteps.FastPushGood | runtime/src/alloc.c:245-262 | entering a chunk in a fastbin keeps the whole arena well formed |
| ArenaSteps.FastPopGood | runtime/src/alloc.c:334-350 | the head of a fastbin has exactly its size, and handing it out keeps the arena well formed |
| ArenaSteps.JoinGood | runtime/src/alloc.c:574-620 | merging keeps the whole arena well formed |
| ArenaSteps.GrowGood | runtime/src/alloc.c:204-242 | a new heap keeps the whole arena well formed |
| Payloads.PayloadKept | runtime/src/alloc.c:314-557 | when headers and links change only at chunks that are not live, no word inside a live payload changes |
| Payloads.JoinFrame | runtime/src/alloc.c:574-620 | merging changes headers only at chunks and boundaries and links only where nothing is live |
| Payloads.DetachFrame | runtime/src/alloc.c:142-156 | unlinking writes only to chunks that are not live and to sentinels |
| ArenaSpec.TakeKeeps | runtime/src/alloc.c:436-457 | using a chunk whole or cutting it keeps the arena well formed, and frames every payload |
| ArenaSpec.ReleaseKeepsPayloads | runtime/src/alloc.c:628-648 | a release leaves size and bytes of every other live payload as they were |
| Merging.BackwardMerges | runtime/src/alloc.c:604-620 | looking backward merges with the chunk in front if and only if that is in a ring bin; by addresses, sizes and places of all chunks |
| Merging.ForwardMerges | runtime/src/alloc.c:574-602 | looking forward merges with the chunk behind if and only if that has more than 112 bytes and is in a ring bin or is a top chunk not flagged as in use; likewise |
| Merging.ReleaseMerges | runtime/src/alloc.c:622-648 | a released chunk of more than 112 bytes becomes one chunk with what is merged, from the start of the first to the end of the last, unsorted or the new top chunk; no other chunk changes |
| Merging.FreeInFront | runtime/src/alloc.c:604-620 | after a release the chunk in front is in a ring bin if and only if two such chunks stood in a row in front before |
| Merging.FreeBehind | runtime/src/alloc.c:574-602 | after a release the chunk behind would still merge if and only if two such chunks stood in a row behind before, the first of them not the top chunk |
| AllocSpec.FastServes | runtime/src/alloc.c:334-350 | a fastbin that is not empty serves its head, with no slack; it is empty exactly when its head is NULL |
| AllocSpec.SmallServes | runtime/src/alloc.c:352-369 | a small bin that is not empty serves its first chunk, with no slack |
| AllocSpec.FirstFitIsBest | runtime/src/alloc.c:371-423 | the first fit in the first bin that has one is a smallest fit among all large bins |
| AllocSpec.NoFitAnywhere | runtime/src/alloc.c:371-423 | if no bin from the request's own upwards has a fit, no large bin has |
| AllocSpec.FiledBySize | runtime/src/alloc.c:458-468 | an unsorted chunk that does not serve is filed in the small bin of exactly its size below 512 bytes, in the large bin of its size otherwise |
| AllocSpec.TakeIs | runtime/src/alloc.c:436-460 | a chunk is cut after the request if 48 bytes or more are left over, with the rest unsorted, and used whole otherwise; no other chunk changes its size |
| AllocSpec.LivePayloads | runtime/src/alloc.c:514-557 | live payloads are aligned to 16 bytes and pairwise disjoint |
| AllocSpec.ServedKeepsPayloads | runtime/src/alloc.c:514-557 | an allocation leaves size and bytes of every live payload as they were |
| AllocSpec.ServedStaysBounded | runtime/src/alloc.c:636-639 | aligned requests of at most the threshold minus 48 keep every live chunk below the threshold |
| AllocSpec.CarveReachesThreshold | runtime/src/alloc.c:475-512 | in every arena the chunk carved from the top chunk reaches the threshold if and only if the top chunk does and cannot be split; it lies in a heap |
| AllocSpec.ThresholdIff | runtime/src/alloc.c:514-557 | some arena without chunks at the threshold hands one out for an aligned request below it if and only if the request is larger than the threshold minus 48 |
| ArenaModel.Arena.constructor | runtime/src/alloc.c:667-716 | a new arena is well formed, its first heap of 1 MB is the top chunk, nothing is live, and the growth counters are those of one heap |
| ArenaModel.Arena.InitSentinels | runtime/src/alloc.c:667-716 | every sentinel is linked to itself |
| ArenaModel.Arena.UnlinkFd | runtime/src/alloc.c:142-148 | the lists are those with the chunk unlinked from its ring |
| ArenaModel.Arena.UnlinkSorted | runtime/src/alloc.c:150-156 | a chunk of a large bin is unlinked from its size ring, any other is left alone |
| ArenaModel.Arena.Detach | runtime/src/alloc.c:142-156 | a binned chunk leaves its rings; the arena stays well formed and live payloads untouched |
| ArenaModel.Arena.InsertFd | runtime/src/alloc.c:158-163 | the chunk is the first of its ring, in front of all that were there |
| ArenaModel.Arena.InsertUnsorted | runtime/src/alloc.c:314-332 | the chunk is in the unsorted bin, marked free and told to its successor; the arena stays well formed |
| ArenaModel.Arena.InsertFast | runtime/src/alloc.c:245-262 | the chunk is the head of its fastbin, in front of the old head, and marked free |
| ArenaModel.Arena.InsertSmall | runtime/src/alloc.c:264-275 | the chunk is the first of its small bin |
| ArenaModel.Arena.FindCeil | runtime/src/alloc.c:286-293 | the first chunk of the size ring that is not smaller, or the sentinel |
| ArenaModel.Arena.InsertLarge | runtime/src/alloc.c:277-312 | in its size ring the chunk stands behind smaller ones only and in front of the first that is not smaller, and it is first of its bin ring |
| ArenaModel.Arena.ForwardCoalesce | runtime/src/alloc.c:574-602 | what ForwardMerges states, and the arena stays well formed |
| ArenaModel.Arena.BackwardCoalesce | runtime/src/alloc.c:604-620 | what BackwardMerges states, and the arena stays well formed |
| ArenaModel.Arena.Coalesce | runtime/src/alloc.c:622-648 | what ReleaseMerges states; nothing else that was live is given back |
| ArenaModel.Arena.Release | runtime/src/alloc.c:628-648 | NULL does nothing, large chunks go to the unmap path, chunks up to 112 bytes go to their fastbin and nothing else moves, any other is merged as ReleaseMerges states: exactly that chunk stops being live, the arena stays well formed |
| ArenaModel.Arena.FastbinSearch | runtime/src/alloc.c:334-350 | NULL exactly if the fastbin is empty or there is none for the size; otherwise its head, of exactly the size asked |
| ArenaModel.Arena.SmallbinSearch | runtime/src/alloc.c:352-369 | NULL exactly if the small bin is empty or there is none for the size; otherwise its first chunk, of exactly the size asked |
| ArenaModel.Arena.Take | runtime/src/alloc.c:436-457 | the chunk is handed out, cut if at least 48 bytes are left over, and the rest goes to the unsorted bin |
| ArenaModel.Arena.UnsortedbinSearch | runtime/src/alloc.c:425-473 | the first unsorted chunk that fits is handed out and those before it are filed in their bins; NULL if none fits, with all filed |
| ArenaModel.Arena.FindLarge | runtime/src/alloc.c:371-423 | a best fit among all large bins, or NULL if nothing fits; always NULL below 512 bytes |
| ArenaModel.Arena.LargebinSearch | runtime/src/alloc.c:371-423 | a best fit is detached and handed out; NULL changes nothing |
| ArenaModel.Arena.GrowHeap | runtime/src/alloc.c:204-242 | headers and links of the new heap, its boundary and its entry in the heap table; if the heaps so far had the sizes of their positions and the counters were those of their number, that holds again |
| ArenaModel.Arena.CarveFromTop | runtime/src/alloc.c:475-512 | NULL exactly if there is a top chunk and it is too small; otherwise a chunk is served, with a new heap exactly if there was no top chunk |
| ArenaModel.Arena.RetireTop | runtime/src/alloc.c:550-552 | exactly the top chunk goes to the unsorted bin; nothing that is live changes |
| ArenaModel.Arena.AllocateChunk | runtime/src/alloc.c:528-554 | every in-range request is served with at most 32 bytes too much: by a chunk of exactly its size from a fastbin or small bin if there is one, else by the first unsorted chunk that fits, else by a best fit of the large bins, used as TakeIs states; by the top chunk if nothing binned will do; and with one new heap if and only if neither will do, the old top chunk being unsorted then; growth of the heaps is kept |
| ArenaModel.Arena.Allocate | runtime/src/alloc.c:514-557 | nothing for 0 bytes, the mapping path from the threshold on, otherwise a payload as stated for AllocateChunk |
| ArenaLedger.Disjoint | runtime/src/alloc.c:514-557 | payloads that are out are aligned and do not overlap |
| ArenaLedger.Request | runtime/src/alloc.c:514-557 | in any run, a request adds one payload at least as large as asked, and the bytes of all others stay; if the heaps had the sizes of their positions, they have them again |
| ArenaLedger.Return | runtime/src/alloc.c:628-648 | in any run, a return takes exactly that payload off the ledger, and the bytes of all others stay |
| ArenaLedger.Collect | runtime/src/gc.c:203-233 | in any run, a collection takes exactly the unmarked payloads off the ledger, the bytes of all others stay, and the top chunk is clear again if and only if StaysClear held |
| ArenaLedger.OwnersWrite | runtime/src/alloc.c:514-557 | in any run, whatever an owner writes into its payload, the ledger stays balanced and the bytes of all others stay |
| OwnerWrites.WritesKeepGood | runtime/src/alloc.c:514-557 | no write into the payload of a live chunk touches anything that the allocator relies on |
| ArenaRuns.RequestAndReturn | runtime/src/alloc.c:628-648 | a request that the top chunk serves and its release: unmapped if and only if the top chunk reaches the threshold and cannot be split, and then the chunk lies in a heap and is still counted as live |
| ArenaRuns.ReachesThreshold | runtime/src/alloc.c:636-639 | a run from the creation of an arena to a chunk of a heap that is unmapped |
| ArenaRuns.SweepMeetsTop | runtime/src/gc.c:220-229 | a run from the creation of an arena to a sweep that calls release for the top chunk |
| ArenaRuns.PassesOverLarge | runtime/src/alloc.c:371-423 | a run to a request below 512 bytes that is carved from the top chunk although a large bin has a chunk that fits |
| ArenaRuns.MergesNeighbours | runtime/src/alloc.c:590-601 | a run: of three payloads of 1024 bytes the second and then the first are given back, and a request of 2048 bytes gets the address of the first, in a chunk of 2064 bytes |
| ArenaRuns.LeavesNeighbour | runtime/src/alloc.c:604-620 | a run to a release whose merged chunk has a ring-binned chunk in front of it |
| GcWalk.ReleaseTouches | runtime/src/alloc.c:574-648 | a release changes sizes and in-use bits only at the released chunk and the one just before it, marks only at boundaries, and no other chunk in use disappears |
| GcWalk.LooksLive | runtime/src/gc.c:220-229 | a chunk in front of the scan is released if and only if it was unmarked and handed out, or is a top chunk that looks like that, although chunks behind have merged |
| GcSweep.SweepChunk | runtime/src/gc.c:220-229 | a marked chunk loses its mark, an unmarked live one is released, and the walk's invariant holds at the next original chunk; the call for a top chunk is recognised |
| GcSweep.SweepHeap | runtime/src/gc.c:213-231 | the walk visits every original chunk of the heap once, in order, unless it comes to a top chunk that looks unmarked and in use |
| GcSweep.Sweep | runtime/src/gc.c:203-233 | with a clear top chunk every original chunk is visited exactly once, exactly the unmarked live ones are released, exactly the marked stay live, no mark is left, and the arena is well formed; otherwise, and only then, the walk comes to call release for the top chunk, with the arena well formed until then |
| GcWalk.SafeIffTopClear | runtime/src/gc.c:213-231 | over the whole walk as it is written, every call of release is for a chunk that is handed out at that moment if and only if the top chunk did not look unmarked and in use before |
| GcWalk.MeetsTop | runtime/src/gc.c:213-231 | otherwise the walk comes to the top chunk, still the top chunk and with the header it had, and calls release for it |
| GcTop.ReleaseCanFlagTop | runtime/src/alloc.c:582-588 | a release in front of the top chunk leaves the new top chunk flagged if and only if the released chunk's previous-in-use bit was set |
| GcTop.ClearAfterSweep | runtime/src/gc.c:203-233 | a sweep leaves the top chunk clear if and only if it did not look in use before and the chunk that the sweep merges into it, if any, has a chunk before it that is free by then |
| GcSweep.FindChunk | runtime/src/gc.c:84-105 | the chunk in use whose payload holds the pointer, or NULL if the heap has none |
| GcSweep.PointsIntoOne | runtime/src/gc.c:84-105 | at most one chunk's payload holds a pointer |
| SourceLang.Depth | irgen/codegen/handlers/scope/scope.go:68-80 | the innermost scope that has the name, or none |
| SourceLaws.ForeachRuns | irgen/codegen/handlers/block/loop.go:28-80 | a foreach over two numbers whose body applies an operator to the index applies it once to each index from the lower bound up to, but not including, the upper bound, in this order, and leaves the scopes as they were |
| SourceLaws.BreakLeaves | irgen/codegen/handlers/block/defineblock.go:79-86 | a while loop whose body is any statement, a break and anything behind it ends after that statement, with its effects on the scopes outside |
| SourceLaws.ShortCircuits | irgen/codegen/handlers/expression/ops.go:575-660 | a conjunction whose left side is zero is 0 and a disjunction whose left side is not is 1, without running the right side |
| SourceLaws.AssignmentReaches | irgen/codegen/handlers/statement/assignvar.go:102-117 | an assignment in a block of its own changes the innermost variable of that name outside, and nothing else there |
| SourceLaws.DeclarationHides | irgen/codegen/handlers/statement/declarevar.go:18-60 | a declaration in a block of its own changes nothing outside, whether the name is in use there or not |
| LoweringSim.SimExpr | irgen/codegen/handlers/expression/ops.go:575-660 | for every nesting of operators, conjunction, disjunction and negation the blocks run exactly the operators that short-circuit evaluation runs, in the same order, and give the same value or trap; cells in use are untouched |
| LoweringSim.SimLogic | irgen/codegen/handlers/expression/ops.go:575-660 | the same for one short-circuit operator, through its phi |
| LoweringSim.SimNot | irgen/codegen/handlers/expression/ops.go:747-754 | the same for negation |
| LoweringSim.SimDecl | irgen/codegen/handlers/statement/declarevar.go:18-60 | a declaration's slot holds the converted value, or zero |
| LoweringSim.SimAssign | irgen/codegen/handlers/statement/assignvar.go:102-116 | an assignment changes the innermost variable of that name and no other |
| LoweringSim.SimReturn | irgen/codegen/handlers/statement/return.go:60-70 | the machine halts with the converted value, or with none after evaluating the expression |
| LoweringSim.SimIf | irgen/codegen/handlers/block/conditional.go:26-70 | every arm of an else-if ladder runs when direct execution runs it, and all meet in the one end block |
| LoweringSim.SimWhile | irgen/codegen/handlers/block/loop.go:96-131 | from the loop head, any number of iterations: same store, same trace, break leaves to the end block, and an unfinished loop keeps the machine busy |
| LoweringSim.SimBounds | irgen/codegen/handlers/block/loop.go:32-49 | the bounds are evaluated once each before the loop, the upper one in the scope of the index |
| LoweringSim.SimFor | irgen/codegen/handlers/block/loop.go:51-79 | from the loop condition, any number of iterations over the stored bound, which the body cannot change |
| LoweringSim.SimStmt | irgen/codegen/handlers/block/defineblock.go:25-64 | for every statement: same outcome, store and trace; a break is at the start of the innermost loop's end block |
| LoweringSim.SimList | irgen/codegen/handlers/block/defineblock.go:32-63 | the same for statement lists, of which only those up to the first break or return are lowered |
| LoweringSim.SimBlock | irgen/codegen/handlers/block/defineblock.go:25-64 | the same for blocks, whose scope ends with them |
| LoweringFunc.FollowsSource | irgen/codegen/handlers/func/definefunc.go:115-173 | a function's graph reaches the outcome of every run of the source that ends, and runs at least n steps if the source has not ended after n iterations |
| LoweringFunc.Equivalent | irgen/codegen/handlers/func/definefunc.go:115-173 | a function's graph halts with an outcome if and only if direct execution of its body ends with it |
| LoweringScope.LoweredIff | irgen/codegen/handlers/func/definefunc.go:115-173 | a function is lowered if and only if every name used or assigned is declared in an open scope, no declaration repeats a name of its own scope and every break is in a loop; otherwise the first fault is reported |
| LoweringScope.ScopedEquivalent | irgen/codegen/handlers/func/definefunc.go:115-173 | every well-scoped function is lowered, to a graph that halts with an outcome if and only if direct execution of its body ends with it |
| LoweringFunc.TermsStay | irgen/codegen/handlers/func/definefunc.go:162-173 | the terminators that are set at the end of a function replace none by a different one |
| LoweringForm.FuncSealed | irgen/codegen/handlers/func/definefunc.go:162-173 | every branch stays in the function, and a block is left without a terminator if and only if the function has a return type, no return is among the statements of its body, and it is the block at which lowering ended |
| LoweringForm.IfSealed | irgen/codegen/handlers/block/conditional.go:26-70 | an if leaves no block open but its end block |
| BlockHandler.VarTree.Search | irgen/codegen/handlers/scope/scope.go:68-80 | the slot of the innermost declaration |
| BlockHandler.BlockUndone | irgen/codegen/handlers/scope/scope.go:24-41 | a new block hides no name; after it is removed every name stands for what it stood for before, whatever was declared in it |
| BlockHandler.Shadows | irgen/codegen/handlers/scope/scope.go:50-80 | a declaration is found under its name, whatever the name stood for, and every other name stands for what it stood for |
| BlockHandler.Handler.ProcessExpression | irgen/codegen/handlers/expression/base.go:54-105 | builds exactly the blocks of LowerExpr, or reports its error |
| BlockHandler.Handler.LogicalOp | irgen/codegen/handlers/expression/ops.go:575-660 | builds exactly the blocks of ShortCircuit |
| BlockHandler.Handler.DeclareVariable | irgen/codegen/handlers/statement/declarevar.go:18-60 | builds what LowerDecl says and binds the name; an error if and only if the innermost scope has the name already or the initial value uses an unknown one |
| BlockHandler.Handler.AssignVariable | irgen/codegen/handlers/statement/assignvar.go:31-116 | builds what LowerAssign says; an unknown name is an error |
| BlockHandler.Handler.ReturnValue | irgen/codegen/handlers/statement/return.go:60-70 | builds what LowerReturn says |
| BlockHandler.Handler.HandleBreak | irgen/codegen/handlers/block/defineblock.go:79-86 | a branch to the innermost loop end; an error outside loops |
| BlockHandler.Handler.ProcessBlock | irgen/codegen/handlers/block/defineblock.go:25-64 | builds what LowerBlock says; scopes and loop ends are as before |
| BlockHandler.Handler.ProcessIfElse | irgen/codegen/handlers/block/conditional.go:26-70 | builds what LowerIf says |
| BlockHandler.Handler.ProcessWhile | irgen/codegen/handlers/block/loop.go:96-131 | builds what LowerWhile says; the loop-end stack is as before |
| BlockHandler.Handler.ProcessFor | irgen/codegen/handlers/block/loop.go:28-80 | builds what LowerFor says; the loop-end stack is as before |
| BlockHandler.Handler.DefineFunc | irgen/codegen/handlers/func/definefunc.go:115-173 | builds the graph of LowerFunc if and only if the body is well scoped, and reports the first fault otherwise |
| RwMutex.KeepsCounted | runtime/src/sync.c:32-152 | every step keeps the state word equal to twice the readers plus the writer bit |
| RwMutex.KeepsExclusive | runtime/src/sync.c:89-125 | every step keeps readers out while a writer that has returned from lock has not unlocked |
| RwMutex.KeepsKept | runtime/src/sync.c:36-151 | a parked task is in its queue or in the hand of a task that is about to make it ready |
| RwMutex.KeepsWakeup | runtime/src/sync.c:131-152 | no task stays queued while the writer bit is clear unless an unlock is in progress or the very writer that was made ready last is on its way |
| RwMutex.EveryRun | runtime/src/sync.c:32-152 | all of these, and the invariants they need, in every state of every interleaving, with compare-and-swap failing at will |
| RwMutex.WriterIsAlone | runtime/src/sync.c:89-125 | while a writer has returned from lock nobody else reads or owns the bit, and the state is the bare writer bit |
| RwMutex.ReturnsIff | runtime/src/sync.c:120-124 | the write lock returns if and only if its first look finds no readers |
| RwMutex.StuckForever | runtime/src/sync.c:120-124 | a writer that yielded in the drain loop stays there in every later state; the bit stays set, no reader is added and nobody writes |
| RwMutex.WriterCanGetStuck | runtime/src/sync.c:120-124 | a run that gets there, with one reader and one writer |
| RwProgress.StepsIff | runtime/src/sync.c:32-152 | a task has a step if and only if it has not yielded and does not wait for an internal lock that is taken |
| RwProgress.HolderSteps | runtime/src/sync.c:32-152 | in every run, whoever has the internal lock has a step |
| RwProgress.ReaderEnters | runtime/src/sync.c:51-57 | a reader whose exchange starts from the current state can return, whoever else reads |
| RwProgress.WriterEnters | runtime/src/sync.c:109-116 | a writer whose exchange starts from the current state can set the bit, and return in one more step if nobody reads |
| RwProgress.ReadsAlone | runtime/src/sync.c:32-60 | without a writer an undisturbed read lock returns after three steps |
| RwProgress.WritesAlone | runtime/src/sync.c:87-125 | without readers and writers an undisturbed write lock returns after four steps |
| RwProgress.LastReaderWakes | runtime/src/sync.c:66-82 | a read unlock goes on to wake a writer if and only if it was the last reader and the writer bit is set |
| RwProgress.WakesFirstWriter | runtime/src/sync.c:75-80 | an unlock that finds writers makes the one ready that has waited longest |
| RwProgress.WakesFirstReader | runtime/src/sync.c:146-149 | a write unlock that is waking readers makes the one ready that has waited longest, and looks again |
| RwProgress.ReadersTogether | runtime/src/sync.c:32-60 | any number of readers can hold the lock together |
| DrainLoop.Keeps | runtime/src/sync.c:120-124 | mutex and schedulers together, with a loop that may go on after its yield: every step of the mutex is one that the mutex alone allows |
| DrainLoop.NeverResumed | runtime/src/sync.c:120-124 | in every run of both, a call that has yielded in the drain loop never takes another step and its task is never given a scheduler again |
| Mutex.EveryRun | runtime/src/sync.c:170-222 | in every interleaving a task that waits is queued or about to be made ready, nothing is queued twice, and queued tasks are attended to, also where mutual exclusion has failed |
| Mutex.KeepsWakeup | runtime/src/sync.c:170-222 | no task stays queued while the mutex is free unless an unlock is in progress or the very task that was made ready last is on its way |
| Mutex.ExclusiveIff | runtime/src/sync.c:170-202 | in a run with no store pending, at most one task holds the mutex in every state if and only if no fast-path exchange succeeds between a slow path's load and its store |
| Mutex.BothCanHold | runtime/src/sync.c:170-202 | a run of two tasks after which both hold the mutex |
| Mutex.StepsIff | runtime/src/sync.c:170-222 | a task has a step if and only if it is not parked and does not wait for an internal lock that is taken |
| Mutex.TakesIff | runtime/src/sync.c:170-202 | the fast path takes the mutex if and only if it is free, and the slow path goes on to take it if and only if its look finds it free |
| Mutex.WakesFirst | runtime/src/sync.c:208-222 | an unlock that finds waiters makes the one ready that has waited longest |
| WaitGroup.EveryRun | runtime/src/sync.c:249-315 | in every state of every interleaving the counter is the sum of all deltas, waiting tasks are queued or about to be made ready, and a queue that is not empty while the counter is zero has a task that will drain it |
| WaitGroup.KeepsWakeup | runtime/src/sync.c:249-315 | every step keeps the last of these, also for a task that is between its check and its push |
| WaitGroup.ReturnsAfterZero | runtime/src/sync.c:290-315 | Wait returns only if the counter was zero at some moment of the call |
| WaitGroup.StepsIff | runtime/src/sync.c:249-315 | unless the program was aborted, a task has a step if and only if it is not parked and does not wait for a lock that is taken |
| WaitGroup.WaitReturnsIff | runtime/src/sync.c:290-315 | at each of its looks Wait returns if and only if it finds the counter at zero |
| WaitGroup.AddsAny | runtime/src/sync.c:249-269 | any number can be added at any time; the waiters are woken if and only if the counter is brought down to zero |
| WaitGroup.WakesFirst | runtime/src/sync.c:262-265 | the drainer makes the task ready that has waited longest, and looks again |
| Scheduler.KeepsPlaced | runtime/src/scheduler.c:305-382 | every step keeps tasks on their own scheduler, and every task in at most one place: a ready queue, a wait queue or a hand |
| Scheduler.EveryRun | runtime/src/scheduler.c:357-414 | placement, count of tasks and shutdown state are right in every state of every interleaving |
| Scheduler.AtMostOnce | runtime/src/sync.c:36-315 | a task stands at most once in all ready and wait queues together, also when it was woken between queueing itself and yielding |
| Scheduler.ResumesItsOwn | runtime/src/scheduler.c:357-382 | a scheduler resumes a task only if it is the task's own and the task has been switched out |
| Scheduler.NeverAgain | runtime/src/scheduler.c:294-297 | a task that yielded without being queued never changes again |
| Scheduler.ZeroForever | runtime/src/scheduler.c:386-398 | once the count of tasks is zero it stays zero, and no task is alive or queued |
| Scheduler.OneStopEach | runtime/src/scheduler.c:398-409 | exactly one scheduler closes down; when it is done every queue was given exactly one request to stop and holds no task |
| Scheduler.KeepsTally | runtime/src/initutils.c:89-94 | the count is the number of tasks created and not yet counted off, also between creation and the push |
| SchedulerOrder.FirstInFirstOut | runtime/src/scheduler.c:357-382 | in every run each scheduler starts on what was put into its ready queue in exactly the order in which it was put there |
| SchedulerOrder.NeverStuck | runtime/src/scheduler.c:357-414 | a scheduler that is not at an empty queue and has not stopped, or the task on it, has a step |
| SchedulerOrder.FreeMay | runtime/src/scheduler.c:294-382 | a running task that holds no other may finish, yield with or without queueing itself, wait in any queue and create tasks on any scheduler |
| SchedulerOrder.WaiterMay | runtime/src/scheduler.c:294-382 | the first task of a wait queue can be made ready by what it waits for, or be taken by any running task that holds no other |
| SchedulerOrder.SpawnsOn | runtime/src/initutils.c:89-94 | a new task is made ready last in the queue of the scheduler it was created for, and counted |
| WaitRing.WaitQueue.Push | runtime/src/queue.c:142-165 | the ring stays well formed and holds the task in front of all others, and the task points at its node |
| WaitRing.WaitQueue.Remove | runtime/src/queue.c:182-205 | exactly that task leaves the ring, which stays well formed; a task in no ring is left alone |
| WaitRing.Unlink | runtime/src/queue.c:192-193 | without the k-th node the others form the same ring |
| WaitRing.SafeQueue.Push | runtime/src/queue.c:38-54 | the entry is the last one |
| WaitRing.SafeQueue.Pop | runtime/src/queue.c:64-81 | the oldest entry is taken; NULL if there is none |
| BuildCache.ImportTree.BuildTree | irgen/codegen/tools/cache.go:36-55 | ends on every graph; what it adds can be reached from the package and is recorded with all its imports; an error exactly if the package was visited before |
| BuildCache.WalkFinds | irgen/codegen/tools/cache.go:155-162 | the recorded graph has exactly the packages that start reaches, with their imports |
| BuildCache.ReverseImportTree | irgen/codegen/tools/cache.go:105-115 | p is listed under q if and only if p imports q |
| BuildCache.PropagateModified | irgen/codegen/tools/cache.go:117-141 | a package is dirty if and only if it leads to a modified one |
| BuildCache.CheckBuildCache | irgen/codegen/tools/cache.go:143-168 | it never fails, and a package that start reaches is dirty if and only if it was modified or imports, directly or not, one that was |
| PackageBuilder.Generator.BuildPackage | irgen/codegen/compiler.go:107-168 | on success the package and all it imports are built, every compiled package came after its imports, and only what it reaches was added; otherwise there is a cycle or a missing package below the start |
| PackageBuilder.BuildAll | irgen/codegen/compiler.go:67-77 | success if and only if below the start there is no cycle and no missing package; then every package to compile is compiled once and after its imports |
| PackageBuilder.NoCycle | irgen/codegen/compiler.go:113-116 | what has been built completely contains no cycle |
| PackageBuilder.ChangedPath | irgen/codegen/compiler.go:124-132 | every import path to a stale package leads through stale packages, so skipping clean ones misses nothing |
| PackageBuilder.IncrementalBuild | irgen/codegen/compiler.go:67-168 | a cycle is reported if and only if the stale packages below the start contain one; otherwise exactly those are compiled, each once and after every stale package it imports |
| PackageBuilder.Declarations.Declare | irgen/codegen/compiler.go:314-349 | without cycles: the package is declared after everything it imports, nothing twice |
| PackageBuilder.ResolveUserImports | irgen/codegen/compiler.go:300-302 | exactly the packages that the direct imports reach are declared, each once and after everything it imports |
| PrattParser.ParsesBack | irgen/parser/expr.go:12-52 | from the first token of a printed expression the parser comes to where that expression is all it has, in any context that does not take its end |
| PrattParser.RoundTrip | irgen/parser/expr.go:12-52 | printing with the fewest parentheses and parsing before a token of power 0 gives the same tree and uses exactly those tokens |
| PrattParser.Shortest | irgen/parser/expr.go:12-192 | no tokens that are parsed to an expression are fewer than those it is printed as: every printed parenthesis is needed |
| PrattParser.PrintsApart | irgen/parser/expr.go:97-110 | different expressions are printed differently |
| PrattParser.Groups | irgen/parser/expr.go:97-110 | of two operators in a row the second takes the middle operand unless the first binds more strongly |
| PrattOrder.FirstTakes | irgen/parser/lookup.go:57-90 | for all operands, of two infix operators in a row the first takes the operand between them if and only if its class is later in: shifts, logical and bitwise, comparisons, plus, products, minus |
| PrattOrder.PrefixTakes | irgen/parser/lookup.go:97-101 | a prefix operator takes its operand before every infix operator but minus |
| PrattOrder.KindsAre | irgen/parser/lookup.go:55-101 | which tokens are infix and which are prefix operators |
| PrattParser.MinusFirst | irgen/parser/expr.go:97-110 | infix minus takes its left operand from every other infix operator, for all operands |
| PrattTables.Tables.BuildTokensTable | irgen/parser/lookup.go:55-134 | the entries, made one after another in the order of the source, give exactly the powers and rules that the parser is proved with |
| PrattTables.LastEntries | irgen/parser/lookup.go:40-134 | the last entry for a token decides its power and its rules |
| PrattTables.MinusOverwritten | irgen/parser/lookup.go:83-98 | infix minus is entered with the power of a sum and ends up stronger than every other infix operator, the only one whose power changes |
| PrattParser.Parser.ParseExpr | irgen/parser/expr.go:12-41 | the parser object gives the tree and position of Parse, or its failure |
| PrattParser.Parser.ParseStart | irgen/parser/expr.go:43-192 | the same for the handlers of the first token: names, numbers, null, prefix operators and groups |
| PrattParser.Parser.ParseBinary | irgen/parser/expr.go:97-110 | the same for an infix operator and its right operand |

## Left out

- ArenaModel.Arena.Allocate: where a new heap is needed it asks for a free heap slot and a fresh region; the code does not check its heap table for overflow.
- ArenaModel.Arena.Release: after the unmap path the chunk is still there in the model; that the code would fault when it reads such a header again is not modelled.
- GcSweep.Sweep: one arena, whose live chunks are below the threshold, as the ledger keeps them; the loop over arenas adds nothing. What the release of a top chunk does to the arena is not modelled.
- ArenaLedger.Collect: asks for a clear top chunk; Sweep says what happens without one.
- ChunkLayout.NextHeapSize: the message for heaps above the maximum size changes nothing and is not modelled.
- Header flags are fields of their own; the packing of flag bits into size words is not modelled.
- Locks around `allocate` and `release`, and failing system calls.
- Marking: the set of marks is an input to the sweep. The stop-the-world handshake is not modelled; collection is sequential.
- Memory mapped for large requests.
- BlockHandler.Handler.ProcessExpression: calls, members, indexing, strings, arrays and new are not modelled.
- BlockHandler.Handler.AssignVariable: only names are targets.
- BlockHandler.Handler.DefineFunc: parameters are given as an initial scope; constructors are not modelled.
- BlockHandler.Handler.DeclareVariable: one name per declaration; tuples and multiple assignment are not modelled.
- LoweringSim.SimStmt: an expression statement stands for a call; other expressions, which the compiler rejects, are not rejected. Conversions and operators are single steps of an arbitrary world; the blocks that a checked conversion adds, calls, members, arrays, atomic blocks and classes are not modelled.
- SourceLaws.ForeachRuns: the body is one operator applied to the index; LoweringFunc.Equivalent is about every body.
- BlockHandler.VarTree.Search: function boundaries and global names are not modelled.
- LoweringFunc.Equivalent: parameters are given as an initial scope; constructors and the main function's own return are not modelled.
- RwMutex.EveryRun: the state word is an unbounded integer; memory is sequentially consistent.
- WaitGroup.EveryRun: the counter is an unbounded integer; memory is sequentially consistent.
- Mutex.EveryRun: memory is sequentially consistent.
- RwProgress.StepsIff: which steps are possible, not that schedulers are fair.
- DrainLoop.NeverResumed: queueing of waiting tasks in the mutex and in the schedulers is not linked step by step; the schedulers may do more than the mutex asks of them.
- Scheduler.EveryRun: a task waits for I/O in a wait queue and is made ready by one step; timers, signals and context switching are not modelled, nor are delays.
- WaitRing.SafeQueue.Pop: the blocking variant waits for an entry and then does the same.
- PackageBuilder.IncrementalBuild: every import names an existing package; without that, BuildAll says what happens.
- PackageBuilder.Generator.BuildPackage: foreign and standard library packages are not modelled, nor is loading of exported declarations.
- BuildCache.CheckBuildCache: which files were modified is an input.
- PrattParser.RoundTrip: calls, members, indexing, ranges, assignment, strings, arrays, functions and new are not modelled; the parser object says so when it meets one.
- Lexer, statements of the parser, LLVM types, class metadata, strings and arrays of the runtime, network and disk I/O, and the command line.
