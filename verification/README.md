# DTrace for Linux: the concurrent core, modelled and proved in Dafny

This project models the parts of DTrace for Linux whose correctness is hardest to see by reading: the cyclic
subsystem's timer protocol, and, in the DTrace framework, speculations, lock-free dynamic variables, the trace ring
buffer, aggregations, the DIF validator and emulator, probe lookup, and 128-bit arithmetic.

Concurrent code is modelled as a step system. A step is one access to shared memory (a load, a store or a
compare-and-swap); steps of all CPUs interleave in every possible order; a run is a sequence of steps from the initial
state, and the theorems are about every state of every run. Code that updates a structure in place on one CPU is
modelled as classes, arrays and methods with loops, each tied to a specification function or to the property itself.

| part | modules | what is shown |
|---|---|---|
| cyclic protocol | Counting, CyclicSystem, CyclicInvariant, CyclicSoft, CyclicWrites, CyclicHigh, CyclicModify, CyclicExpand, CyclicLockstep, CyclicTheorems, CyclicJuggle, CyclicRace, CyclicKin, CyclicStranded, CyclicSigned, CyclicNoWait, CyclicEarlyFree | one handler call per expiry through any interleaving of expiry, both soft levels, resize and removal; a juggled cyclic is never live on two CPUs; where a resize, a count beyond 2^31 or a missing wait can break it |
| cyclic heap | HeapSpec, FireSpec, CyclicHeap | heap, free slots and programmed time through add, remove, fire, expand and juggle; how often fire expires each cyclic |
| speculation | SpecSystem, SpecInvariant, SpecTheorems | who may be involved in which state; every record is delivered at most once, never after a discard; where a discard can be undone |
| dynamic variables | DynSystem, DynInvariant, DynStable, DynReads, DynWrites, DynLinks, DynPush, DynMoves, DynCleaner, DynSteps, DynTheorems, DynLookup, DynRace, DynAsserts, DynWitness, DynInit | the hash chains are an atomic map; each chunk is in one place; where a list of chunks can be lost |
| ring buffer | RingSpec, RingBuffer | a queue that forgets its oldest records; exactly when giving up a reservation breaks it |
| aggregation | AggSpec, AggTable, AggBuffer | the buffer is a table from canonical key to folded value |
| DIF | Dif, DifRun, DifReach, DifVars | validated programs run to an end within registers, tables and tuple stack; where a run can get to, and which programs also keep to the variable tables in every run; rewriting loads preserves meaning |
| probes | ProbeHash, ProbeLinks, ProbeMatch | the hash is a multimap; matching by hash is matching by scan |
| arithmetic | Arith128 | exact products, sums, shifts and sums of squares |

## What turned out false

The code does not keep these promises unconditionally. For each there is a concrete failing run or input, and the exact
condition under which the promise holds.

- Resizing the cyclic arrays can drop pending work. If an expiry and the resize cross call both fall between a soft
  interrupt's last look at the producer index and its look at `cys_hard`, the entry is stranded in the old buffer
  (`CyclicRace.WindowExact`, `CyclicRace.ResizeCanDrop`). Whatever happens afterwards, its handler is never called
  again (`CyclicStranded.StrandedForever`); in runs with any number of such resizes a pending slot is in no buffer if
  and only if one of them caught it (`CyclicStranded.StrandedExact`), and every other registration's expiries are
  answered (`CyclicStranded.OthersAnswered`). These are about runs in which no count but a stranded one outgrows a
  signed `int` and no stranded slot is removed: its removal would wait for calls that never come. The comment at
  driver/cyclic.c:471-475 says the switch happens after the soft buffer is drained; the code checks that before it
  looks at `cys_hard`, not at the same instant, and the model follows the code.
- `cyclic_softint` holds the unsigned pending count in a signed `int`. A decrement keeps every pending slot queued if
  and only if the decremented count fits (`CyclicSigned.SignedExact`); a run of 2^31 + 1 expiries ends with one call
  made and the slot in no buffer (`CyclicSigned.SignedDrops`). The theorems of CyclicTheorems are about runs without
  this and without the coincidence above.
- On Linux `sema_p` is defined away (driver/cyclic.c:562), so a resize frees the old array and buffers, and a removal
  returns, without waiting. The step system keeps the semaphore the protocol is written for. Without it, some
  activation can come to read freed memory before the next resize if and only if a level has entries left in its old
  buffer (`CyclicEarlyFree.ExpandExact`), and a removal keeps its promise if and only if the semaphore had been posted
  (`CyclicNoWait.RemoveExact`); two runs show the failures (`CyclicNoWait.FreedInUse`,
  `CyclicNoWait.RemovedTooEarly`).
- A `discard()` in the clause whose `speculate()` holds the buffer revives the discarded records, exactly when the CPU
  is the only one that has traced into the speculation and has done so before (`SpecTheorems.RevivedExact`). The runs
  the speculation theorems leave out are exactly those: the step they exclude revives records
  (`SpecTheorems.UntidyRevives`), and without it none are ever revived (`SpecTheorems.TidyNeverRevives`).
- The compare-and-swap that moves a clean list to a free list can fail, and the list is then lost, although the code
  asserts success (`DynWitness.ChunkLost`, `DynRace.HandOverExact`). All other theorems about dynamic variables hold
  for all runs; that nothing is lost holds for runs without this race, and the race cannot happen if the cleaner takes
  a dirty list aside only while nobody carries that CPU's clean list (`DynRace.TimelyNoRace`).
- A reservation that wraps past the newest record and is then given up leaves its own words to be decoded as a record
  (`RingSpec.OvertakenInvents`, `RingSpec.AbandonExact`). Reservations and records of at most a third of the buffer
  are safe.
- The validator accepts DIF the emulator's assertions reject: `ldts`, `ldgaa` and `ldtaa` of a built-in variable, and
  any user variable that is not in its table. Three such programs break an assertion at the first turn of every
  run (`DifVars.WildAccepted`, `DifVars.UndeclaredAccepted`). A turn breaks an identifier assertion if and only if its
  instruction is such a load (`DifVars.TurnExact`), so what matters is where runs get to. `DifReach.Reach` computes
  that from the program text, following condition codes, the depth of the tuple stack and which registers are zero as
  far as they are known. If no such load is in the reach set, no run breaks an assertion; if one is in its sure part,
  some run does; where the way is always known the two coincide (`DifVars.AssertsExact`). Straight-line code is sure
  (`DifVars.StraightBreaks`), a load behind a test of a variable is (`DifVars.GuardedBreaks`), and one in dead code is
  harmless (`DifVars.DeadCode`). The same holds of the variable tables, with a condition on the declarations: a static
  variable must be declared, a thread-local one must lie below the least power of two above one declared
  (`DifVars.TablesExact`, `DifVars.VState.Init`). Between the sure part and the whole reach set lie branches on
  compared registers and divisions by computed ones, where only the values decide.
- A right shift of a 128-bit value by 33 to 63 loses bits unless the bits that should move are zero
  (`Arith128.ShiftRight`, `Arith128.ShiftLoses`). No caller in driver/dtrace.c shifts right: both shift left by 32.

## Model

| member | source | states |
|---|---|---|
| CyclicInvariant.InitInv | driver/cyclic.c:2098-2156 | a configured CPU satisfies the protocol invariant |
| CyclicHigh.ExpireStep | driver/cyclic.c:803-857 | an expiry keeps the invariant: the slot is queued only when its count was zero, and there is always room for it |
| CyclicHigh.Room | driver/cyclic.c:423-430 | a slot that is not queued leaves room for itself in its level's buffer |
| CyclicHigh.KeptEntry | driver/cyclic.c:829-840 | producing never overwrites the entry a soft interrupt is processing |
| CyclicWrites.SoftStep | driver/cyclic.c:1045-1255 | every shared access of a soft interrupt, at either level, keeps the invariant |
| CyclicModify.AddStep | driver/cyclic.c:1570-1676 | adding a cyclic keeps the invariant |
| CyclicModify.RemoveStep | driver/cyclic.c:1706-1739 | the removal cross call keeps the invariant, moving the pending count to the CPU's removal count |
| CyclicExpand.XcallStep | driver/cyclic.c:1259-1351 | the resize cross call keeps the invariant when it misses the window |
| CyclicExpand.WaitStep | driver/cyclic.c:1395-1456 | when the resizing thread is woken, nothing looks at the old array or buffers any more |
| CyclicTheorems.StepKeeps | driver/cyclic.c:803-1870 | every step of the protocol keeps the invariant |
| CyclicTheorems.RunKeeps | driver/cyclic.c:803-1870 | every state of every run without the race satisfies the invariant |
| CyclicLockstep.LockstepStep | driver/cyclic.c:1259-1456 | every step keeps both levels in step with the resizes and a second buffer alive only during one |
| CyclicTheorems.RunLockstep | driver/cyclic.c:1259-1456 | so in every state of every run: cys_hard is the number of resizes modulo two on both levels |
| CyclicTheorems.CallsAnswerExpiries | driver/cyclic.c:803-857 | in every such state, the expiries of a registration are its completed calls plus what its slot still owes (pending count, removal count and call in progress), and calls never exceed expiries |
| CyclicTheorems.QuiescentSettled | driver/cyclic.c:1071-1186 | at quiescence every expiry has had its call and no pending count is left |
| CyclicTheorems.BuffersExact | driver/cyclic.c:340-344 | a slot with a pending count is in exactly one live place of its own level's buffers; a buffer, also one that a resize has retired, exceeds its size by at most one entry, and only while the finished entry's index store is outstanding |
| CyclicTheorems.AssertsHold | driver/cyclic.c:803-1870 | a soft interrupt never touches freed memory nor indexes outside an array, and the assertions of softint, remove_pend, expand_xcall, expand, remove_xcall and remove_here on the state of the protocol hold, among them: both levels on the same cys_hard, no second buffer left over, the old buffers half the size, sizes a power of two, and no waiting count for a caller that will not wait |
| CyclicTheorems.ResizeHandshake | driver/cyclic.c:1193-1456 | each resize is acknowledged once by each level and posts its semaphore once, in either order; when the old memory is freed no activation points to it |
| CyclicTheorems.WaiterNotStranded | driver/cyclic.c:1395-1456 | a thread waiting in expand or remove has its semaphore posted or a soft interrupt running or posted |
| CyclicTheorems.SoftEffect | driver/cyclic.c:1071-1186 | all that one access of a soft interrupt can change: one slot's count and one registration's calls |
| CyclicTheorems.StaysRetired | driver/cyclic.c:508-538 | a retired registration is never expired or called again |
| CyclicTheorems.RemovalGuarantee | driver/cyclic.c:1816-1870 | when a removal is about to return, the handler is not running, all its expiries have been called, and it is never called again though its slot may be reused |
| CyclicRace.WindowExact | driver/cyclic.c:1193-1220 | a resize that catches a softint at its look at cys_hard keeps every pending cyclic queued if and only if nothing was queued in between |
| CyclicRace.WindowReachable | driver/cyclic.c:1071-1220 | a run of eight steps reaches the window |
| CyclicRace.ResizeCanDrop | driver/cyclic.c:1071-1220 | a run ends with a pending cyclic that is in no buffer |
| CyclicKin.StepKin | driver/cyclic.c:803-1870 | every step takes a state and the same state with the expiries of some slots forgotten the same way |
| CyclicStranded.DropInv | driver/cyclic.c:1193-1220 | a state in the window, with what was queued there forgotten, satisfies the invariant |
| CyclicStranded.RunKin | driver/cyclic.c:803-1870 | every state of every run in which no stranded slot is removed and no other count outgrows a signed int, with exactly what resizes have caught in the window forgotten, satisfies the invariant |
| CyclicStranded.StrandedExact | driver/cyclic.c:1071-1351 | in every such run, outside the wait of a resize, a pending slot is in no buffer if and only if an earlier resize caught it in the window |
| CyclicStranded.StrandedForever | driver/cyclic.c:1071-1351 | in every such run a slot so caught stays pending, and its handler is never called again |
| CyclicStranded.OthersAnswered | driver/cyclic.c:803-1255 | in every such run the expiries of every registration not caught are its calls plus what its slot owes |
| CyclicStranded.CleanTame | driver/cyclic.c:803-1870 | runs without the race are among these |
| CyclicStranded.CatchReachable | driver/cyclic.c:1071-1351 | and so is a run in which a resize catches a slot |
| CyclicSigned.SignedExact | driver/cyclic.c:1072-1182 | after a successful decrement every slot with a pending count is still queued if and only if the decremented count fits a signed int |
| CyclicSigned.SignedDrops | driver/cyclic.c:1072-1182 | a run of 2^31 + 1 expiries and one delivery ends with one call made, 2^31 counted and the slot in no buffer |
| CyclicEarlyFree.ExpandExact | driver/cyclic.c:1420-1453 | freed without the wait, the old array or buffers can be read by a present or later activation before the next resize if and only if a level has entries left in its old buffer; a posted semaphore means none has |
| CyclicEarlyFree.DrainedSafe | driver/cyclic.c:1420-1453 | with both old buffers drained, the state after the free satisfies what keeps activations on live memory |
| CyclicEarlyFree.SafeStep | driver/cyclic.c:803-1255 | every step, removals without waiting included, keeps that |
| CyclicEarlyFree.LedAstray | driver/cyclic.c:1071-1186 | otherwise the lagging activation, left to itself, comes to read freed memory |
| CyclicNoWait.RemoveExact | driver/cyclic.c:1861-1868 | without the wait, the removed handler is not running and has had all its calls if and only if the semaphore had been posted |
| CyclicNoWait.FreedInUse | driver/cyclic.c:562 | without the wait, a run ends with a soft interrupt about to read the freed array |
| CyclicNoWait.RemovedTooEarly | driver/cyclic.c:562 | without the wait, a run ends with a removal returning while a call is outstanding |
| HeapSpec.SwapUp | driver/cyclic.c:685-726 | one step up keeps everything but the moved entry in heap order |
| HeapSpec.SwapDown | driver/cyclic.c:728-801 | one step down does the same |
| HeapSpec.RootFirst | driver/cyclic.c:889-965 | the root of the heap expires first |
| FireSpec.OneShot | driver/cyclic.c:911-958 | one turn of the firing loop uses up one of the expiries due and leads to the same final time |
| FireSpec.NextDue | driver/cyclic.c:911-958 | the final expiration time is after now, within an interval, on the same interval boundary, and never zero |
| FireSpec.Arrived | driver/cyclic.c:911-958 | a cyclic that is no longer due has expired exactly (now-e)/interval + 1 times, or once when it was more than a second late |
| CyclicHeap.CycCpu.Upheap | driver/cyclic.c:685-726 | an entry earlier than its parent finds its place; the result says whether it is now the root |
| CyclicHeap.CycCpu.Downheap | driver/cyclic.c:728-801 | an entry later than its children finds its place |
| CyclicHeap.CycCpu.Fire | driver/cyclic.c:889-965 | terminates; every due cyclic expires the right number of times, nothing is due afterwards, and the backend is programmed for a time after now |
| CyclicHeap.AllArrived | driver/cyclic.c:889-965 | when the root is not due, no active cyclic is, and all have made all their expiries |
| CyclicHeap.CycCpu.constructor | driver/cyclic.c:2098-2156 | an empty CPU is valid |
| CyclicHeap.CycCpu.Add | driver/cyclic.c:1570-1636 | takes a free slot, keeps heap, free slots and programmed time in order; a start of 0 means the next interval boundary |
| CyclicHeap.CycCpu.Remove | driver/cyclic.c:1678-1811 | refuses only when calls are pending and the caller will not wait; otherwise frees exactly that slot and keeps order |
| CyclicHeap.CycCpu.Search | driver/cyclic.c:1741-1747 | finds the heap entry of an active slot |
| CyclicHeap.CycCpu.Resettle | driver/cyclic.c:1769-1811 | up, and if not to the root down: the heap is in order again and the backend programmed |
| CyclicHeap.CycCpu.Expand | driver/cyclic.c:1259-1316 | doubles heap and slots, keeping the old ones and adding free ones |
| CyclicHeap.Alive | driver/cyclic.c:540-552 | an active cyclic's recorded expiration time is never 0, so adding it elsewhere never re-bases it |
| CyclicHeap.JuggleTo | driver/cyclic.c:1877-1956 | moves a cyclic exactly when it has nothing pending: same handler, level, flags, interval and expiration time there, free here, all else unchanged |
| CyclicJuggle.NeverLiveTwice | driver/cyclic.c:1877-1956 | over every run of any number of CPUs, a juggled cyclic is at no time live on both its CPUs |
| CyclicJuggle.NothingLostOnTheWay | driver/cyclic.c:540-552 | expiries on both CPUs together are the calls on both together and what the destination still owes |
| SpecInvariant.StepKeeps | driver/dtrace.c:2202-2608 | every step of speculation, speculate, commit, discard and cleaning keeps the invariant, except a discard that frees the speculation in the middle of the same CPU's fill |
| SpecTheorems.RunKeeps | driver/dtrace.c:2202-2608 | so every state of every run without that step satisfies it, other discards inside a fill included |
| SpecTheorems.WhoIsInvolved | driver/dtrace.c:2246-2380 | ACTIVEONE involves at most one CPU, COMMITTING exactly its committer, INACTIVE and ACTIVE none |
| SpecTheorems.AssertsHold | driver/dtrace.c:2287-2575 | the assertions of commit, clean and buffer hold |
| SpecTheorems.DeliveredOnce | driver/dtrace.c:2246-2380 | a record is in at most one principal buffer, once, and not if its activation was discarded |
| SpecTheorems.DiscardStays | driver/dtrace.c:2384-2440 | winning discards are never undone in the books |
| SpecTheorems.NeverAfterDiscard | driver/dtrace.c:2384-2440 | after a winning discard no record of that activation is in any principal buffer, ever |
| SpecTheorems.NothingLost | driver/dtrace.c:2246-2380 | every record is in a buffer still to be copied, in a principal buffer, dropped for lack of room, or thrown away |
| SpecTheorems.ThrownOnlyDiscarded | driver/dtrace.c:2384-2440 | a record is thrown away only after its activation was discarded |
| SpecTheorems.GoKeepsMany | driver/dtrace.c:2246-2608 | no CPU takes the speculation out of COMMITTINGMANY or DISCARDING |
| SpecTheorems.LeftOnlyByCleaner | driver/dtrace.c:2443-2540 | those states are left only by the cleaner, to INACTIVE, after every CPU ran its cross call; then no CPU is involved |
| SpecTheorems.RevivedExact | driver/dtrace.c:6168-6225 | a discard inside the same CPU's fill revives discarded records if and only if the state is ACTIVEONE and the buffer was not empty |
| SpecTheorems.TidyNeverRevives | driver/dtrace.c:2384-2440 | in such a run no CPU ever holds discarded records of a speculation that is free for reuse |
| SpecTheorems.UntidyRevives | driver/dtrace.c:2384-2440 | and the excluded step does revive: two steps later the CPU holds what it discarded |
| SpecTheorems.RevivedDelivers | driver/dtrace.c:2202-2380 | the next activation then delivers them |
| SpecTheorems.FirstFillReachable | driver/dtrace.c:2546-2608 | a run reaches a first fill |
| SpecTheorems.SecondFillReachable | driver/dtrace.c:2546-2608 | a run reaches the failing case |
| DynTheorems.InitInv | driver/dtrace.c:12392-12484 | the initial free lists satisfy the invariant |
| DynSteps.AlwaysReady | driver/dtrace.c:1341-1812 | the registers a step relies on always point into memory |
| DynSteps.StoreOwn | driver/dtrace.c:1437-1812 | each store and successful compare-and-swap keeps the lists sound and the storing CPU's claims true |
| DynStable.Stable | driver/dtrace.c:1437-1812 | what a CPU relies on survives whatever the others do |
| DynSteps.Flushed | driver/dtrace.c:1249-1331 | when the cleaner's wait is over, no CPU has a rinsing chunk in sight and none carries the lists concerned |
| DynSteps.StepKeeps | driver/dtrace.c:1249-1812 | every step of every call and of the cleaner keeps the invariant |
| DynTheorems.RunKeeps | driver/dtrace.c:1249-1812 | every state of every run satisfies the invariant |
| DynTheorems.NeverAstray | driver/dtrace.c:1341-1812 | every enabled step can be taken: nothing is dereferenced that is not a chunk |
| DynTheorems.ReachesPlace | driver/dtrace.c:1249-1331 | following the pointers from a list's head finds exactly the chunks recorded as being on it |
| DynTheorems.OnePlace | driver/dtrace.c:1249-1331 | every chunk not lost is on exactly one list, following the pointers, or in exactly one CPU's hands |
| DynTheorems.CasesSound | driver/dtrace.c:1544-1810 | a compare-and-swap that succeeds is not fooled by a recycled chunk: what the CPU read still holds |
| DynAsserts.RunDescends | driver/dtrace.c:1459-1589 | in every state of every run a deallocating walk has gone from newer to older chunks |
| DynAsserts.CallAssertsHold | driver/dtrace.c:1437-1812 | in every state of every run the assertions of dtrace_dynvar hold where each CPU stands, and a walk that runs onto a dirty list starts over; the assertion that the free list was empty (1752) holds in runs without the race |
| DynTheorems.CleanAssertsHold | driver/dtrace.c:1249-1331 | the assertions of dtrace_dynvar_clean hold |
| DynTheorems.MapStep | driver/dtrace.c:1538-1812 | the keys on the chains change only by a publication, which adds a key that was absent, and an unlinking, which removes one that was there |
| DynTheorems.OneEntry | driver/dtrace.c:1787-1812 | no key is on its chain twice |
| DynLookup.NullMeansAbsent | driver/dtrace.c:1437-1812 | a lookup, allocation or deallocation that returns NULL, and a deallocation that finds nothing: at some instant of the call the key was absent |
| DynLookup.NullMeansExhausted | driver/dtrace.c:1652-1712 | an allocation that returns NULL has moreover seen a CPU's free list empty and after that the same CPU's clean list empty |
| DynLookup.FoundWasPresent | driver/dtrace.c:1437-1812 | a call that returns a chunk: at some instant of the call that chunk held the key |
| DynRace.OrderlyStep | driver/dtrace.c:1652-1758 | a step without the race loses no chunk |
| DynRace.NothingLost | driver/dtrace.c:1652-1758 | in a run without the race no chunk is ever lost |
| DynRace.HandOverExact | driver/dtrace.c:1713-1754 | when a clean list is handed over while a CPU is about to take it, its chunks reach the free list if and only if that list is empty then |
| DynRace.TimelyNoRace | driver/dtrace.c:1249-1331 | if dirty lists are taken aside only while nobody carries that CPU's clean list, the race never happens |
| DynWitness.RaceReachable | driver/dtrace.c:1249-1812 | a run of two CPUs and three chunks reaches the race |
| DynWitness.RaceLoses | driver/dtrace.c:1713-1754 | from any such state four more steps lose the rinsed chunks |
| DynWitness.ChunkLost | driver/dtrace.c:1713-1754 | so a run ends with a chunk on no list and in nobody's hands |
| DynInit.RoomBehindBuckets | driver/dtrace.c:12408-12446 | whatever size is asked for, there is a chunk's room for every bucket |
| DynInit.CutShare | driver/dtrace.c:12471-12480 | one CPU's share is cut into chunks that do not overlap, linked in order |
| DynInit.CutShares | driver/dtrace.c:12448-12484 | the shares follow one another; the last CPU takes the rest |
| DynInit.FreeLists | driver/dtrace.c:12434-12484 | one list for each CPU, disjoint, inside the space, linked as the pointers say; none empty if there is a chunk for each |
| DynInit.LaidInitial | driver/dtrace.c:12392-12484 | lists so laid out are an initial state of the step system |
| DynInit.Prepare | driver/dtrace.c:12434-12484 | from the sizes on: the space is laid out and is an initial state |
| RingSpec.WalkLands | driver/dtrace.c:10709-10760 | the overwrite walk ends, lands on a record boundary and leaves a suffix of the records |
| RingSpec.WalkLeast | driver/dtrace.c:10709-10760 | it stops at the first boundary that clears the target |
| RingSpec.ReserveOk | driver/dtrace.c:10572-10803 | a reservation is dropped if and only if its padded size exceeds the buffer; otherwise it clears its words by dropping only oldest records |
| RingSpec.NothingDropped | driver/dtrace.c:10572-10803 | a reservation with room drops nothing |
| RingSpec.OverwriteKeeps | driver/dtrace.c:10685-10782 | overwriting keeps every record that starts behind the reservation |
| RingSpec.WrapKeeps | driver/dtrace.c:10635-10766 | so does wrapping |
| RingSpec.CommitOk | driver/dtrace.c:6425-6426 | a commit appends exactly its record |
| RingSpec.AbandonOk | driver/dtrace.c:6425-6426 | giving up a reservation that has not overtaken changes nothing the buffer holds |
| RingSpec.AbandonExact | driver/dtrace.c:6425-6426 | giving up keeps what the consumer decodes if and only if the reservation has not overtaken the newest record |
| RingSpec.ConsumedOk | driver/dtrace.c:10805-10849 | after polishing the consumer decodes exactly what the buffer holds, oldest first |
| RingSpec.ThirdNeverOvertakes | driver/dtrace.c:10572-10803 | reservations and records of at most a third never overtake |
| RingSpec.FireOk | driver/dtrace.c:10572-10803 | one probe keeps a suffix of the records and adds its own |
| RingSpec.RingIsQueue | driver/dtrace.c:10572-10849 | over any sequence of committed, given-up and dropped probes, none of the given-up ones overtaking, the consumer decodes the newest committed records, whole and in order |
| RingSpec.ThirdIsQueue | driver/dtrace.c:10572-10849 | the third of the buffer is enough for every sequence |
| RingSpec.OvertakenInvents | driver/dtrace.c:10635-10766 | six words, one record and one overtaking give-up: a record nobody committed is decoded |
| RingBuffer.Ring.constructor | driver/dtrace.c:10506-10514 | an empty buffer |
| RingBuffer.Ring.Clear | driver/dtrace.c:10805-10849 | clears exactly the words asked for |
| RingBuffer.Ring.Advance | driver/dtrace.c:10709-10760 | the loop computes the walk |
| RingBuffer.Ring.Wrap | driver/dtrace.c:10635-10766 | the wrapping branch, in place |
| RingBuffer.Ring.MakeRoom | driver/dtrace.c:10685-10766 | the overwriting branch, in place |
| RingBuffer.Ring.Reserve | driver/dtrace.c:10572-10803 | in place, the same buffer and offset as the specification, or a drop that changes nothing |
| RingBuffer.Ring.Store | driver/dtrace.c:6349-6361 | stores exactly the reserved words |
| RingBuffer.Ring.Trace | driver/dtrace.c:6425-6426 | reserve, store, commit or give up: what was held, less the oldest, is still held, and the committed record with it |
| RingBuffer.Ring.Polish | driver/dtrace.c:10805-10849 | clears what lies between newest and oldest record |
| RingBuffer.Ring.Decode | libdtrace/dt_consume.c:1586-1967 | decodes the records of a range |
| RingBuffer.Ring.Snapshot | driver/dtrace.c:15881-15895 | a consumer reads exactly the records held |
| AggSpec.HashField | driver/dtrace.c:2041-2055 | hashes a member, a string only up to its NUL |
| AggSpec.Hash | driver/dtrace.c:2041-2059 | the hash depends on the canonical key only |
| AggSpec.SameField | driver/dtrace.c:2085-2091 | two members compare the same exactly when their canonical bytes are |
| AggSpec.SameKey | driver/dtrace.c:2078-2092 | two tuples compare the same exactly when their canonical keys are equal |
| AggSpec.CutDiffers | driver/dtrace.c:2085-2091 | strings that differ before a common NUL have different canonical bytes |
| AggTable.GoodStep | driver/dtrace.c:1946-2194 | one sample keeps the table's promise |
| AggTable.RunGood | driver/dtrace.c:1946-2194 | after any samples each key has one row, the fold of all its samples; the drops are exactly the samples of keys without a row |
| AggBuffer.Buffer.constructor | driver/dtrace.c:1946-1990 | an empty buffer holds an empty table |
| AggBuffer.Buffer.Find | driver/dtrace.c:2066-2115 | finds the key with this canonical tuple if and only if there is one |
| AggBuffer.Buffer.Setup | driver/dtrace.c:1991-2027 | lays out empty buckets at the top on first use, or says there is no room |
| AggBuffer.Buffer.Insert | driver/dtrace.c:2122-2194 | adds a row if there is room between data and keys, else changes nothing |
| AggBuffer.Aligned | driver/dtrace.c:2122-2124 | the alignment loop rounds a multiple of four up to a multiple of eight |
| AggBuffer.PartsApart | driver/dtrace.c:1991-2142 | no byte of the buffer belongs to two of: a tuple with its value, a key, a bucket, the description at the end |
| AggBuffer.Buffer.PartsOf | driver/dtrace.c:1991-2142 | so it is in every buffer in use |
| AggBuffer.Buffer.Aggregate | driver/dtrace.c:1946-2194 | the table changes as a plain table would; a sample is dropped, and counted, exactly when its key is new and there is no room |
| AggBuffer.Buffer.AggregateAll | driver/dtrace.c:1946-2194 | any sequence of samples gives the plain table and its drop count |
| AggBuffer.Buffer.CopyTuple | driver/dtrace.c:2141-2178 | the copy has the same canonical key and nothing outside it changes |
| AggBuffer.Buffer.PadField | driver/dtrace.c:2157-2178 | clearing behind the NUL keeps the canonical bytes |
| Dif.Validate | driver/dtrace.c:8225-8470 | no errors if and only if the object meets every check; loads are then rewritten exactly when kernel loads must be checked |
| DifRun.PassesInRange | driver/dtrace.c:4584-5455 | what the validator checked is what the accesses to registers, integer and string tables and tuple stack need |
| DifRun.StepSafe | driver/dtrace.c:4584-5455 | an instruction of a validated program indexes registers, integer and string tables and tuple stack in range, keeps %r0 zero and moves the program counter forward |
| DifVars.WildExact | driver/dtrace.c:8431-8450 | of the instructions the validator accepts exactly ldts, ldgaa and ldtaa below the user base break an identifier assertion |
| DifReach.TurnGoesOn | driver/dtrace.c:4584-5455 | a turn that neither faults nor returns goes to a node that follows by the program text |
| DifReach.RunReaches | driver/dtrace.c:4584-5455 | whatever the environment, the emulator is only ever at instructions in the reach set |
| DifReach.TurnGoes | driver/dtrace.c:4584-5455 | where the way is known, each following node is where some answer of the environment leads |
| DifReach.Steer | driver/dtrace.c:4584-5455 | for every node of the sure part there are answers with which the emulator comes to stand there |
| DifReach.EveryTurnExact | driver/dtrace.c:4584-5455 | where the way is always known, a property of instructions holds at every turn of every run if and only if it holds throughout the reach set |
| DifReach.StraightReached | driver/dtrace.c:4584-5455 | code after neither branch, ret, ldta, division nor a ninth push is in the sure part |
| DifVars.TurnExact | driver/dtrace.c:4960-5300 | a turn of a run breaks an identifier assertion if and only if its instruction is such a load |
| DifVars.AssertsExact | driver/dtrace.c:4960-5300 | no run of a validated program breaks an identifier assertion if no such load is reached, some run does if one is surely reached, and where the way is known this is an equivalence |
| DifVars.StraightBreaks | driver/dtrace.c:4960-5300 | such a load after straight-line code breaks the assertion in some run |
| DifVars.GuardedBreaks | driver/dtrace.c:4960-5300 | and so does one behind a branch on a variable |
| DifVars.DeadCode | driver/dtrace.c:4960-5300 | an accepted program with such a load that no run comes to |
| DifVars.TablesExact | driver/dtrace.c:4960-5300 | with tables built from the declarations, the same three statements for indexing a table only where there is a variable, the condition being on text and declarations |
| DifVars.WildAccepted | driver/dtrace.c:8431-8436 | two programs the validator accepts, every run of which breaks an assertion at its first turn |
| DifVars.UndeclaredAccepted | driver/dtrace.c:8440-8450 | an accepted store to a variable that is in no table, reached at the first turn of every run |
| DifVars.DoubledPower | driver/dtrace.c:9007-9026 | from nothing a table doubles to the least power of two above the index |
| DifVars.VState.Add | driver/dtrace.c:8994-9085 | one declaration: the tables gain that variable and, if it is thread-local, those up to the next power of two, and nothing else |
| DifVars.VState.Init | driver/dtrace.c:8984-9095 | after initialisation exactly the variables there before and those so gained are in the tables |
| DifVars.InitNew | driver/dtrace.c:8984-9095 | the tables of a new consumer hold just what the declarations put there |
| DifVars.DeclaredInside | driver/dtrace.c:8984-9095 | a validated program that declares what it names and reaches no wild load indexes its tables rightly in every run |
| DifRun.RunsToAnEnd | driver/dtrace.c:4584-5455 | a validated program stops after at most as many turns as it has instructions, by ret or fault |
| DifRun.Emulate | driver/dtrace.c:4584-5455 | the loop computes that run, and its value is 0 after a fault |
| DifRun.RewriteValid | driver/dtrace.c:8288-8322 | a rewritten program still validates |
| DifRun.RewriteStep | driver/dtrace.c:4780-4870 | a rewritten load does the same as the original, or is denied and stops |
| DifRun.RewritePreserves | driver/dtrace.c:651-717 | on every input the rewritten program runs as the original, turn by turn, unless and until a load of memory that could not be stored to, where it stops with the privilege fault |
| ProbeHash.Hash.constructor | driver/dtrace.c:6463-6480 | an empty hash finds nothing |
| ProbeHash.Hash.Find | driver/dtrace.c:6566-6578 | the bucket of a name, or none |
| ProbeHash.Hash.Lookup | driver/dtrace.c:6566-6578 | all probes of a name |
| ProbeHash.Hash.Collisions | driver/dtrace.c:6581-6594 | zero exactly for a name without probes, and never less than it has, although removals are not subtracted |
| ProbeHash.Hash.Resize | driver/dtrace.c:6496-6525 | doubles the table; no name loses or gains a probe |
| ProbeHash.Hash.Add | driver/dtrace.c:6527-6564 | adds to its name only, resizing at most once |
| ProbeHash.Hash.Remove | driver/dtrace.c:6596-6647 | removes from its name only; an empty bucket goes |
| ProbeLinks.Links.Push | driver/dtrace.c:6550-6563 | a new probe goes to the front of its doubly linked chain; no other chain is touched |
| ProbeLinks.Links.Unlink | driver/dtrace.c:6616-6647 | a probe is unlinked where it stands, the chain keeping the others in order and empty exactly when it was the only one; no other chain is touched |
| ProbeLinks.Links.PushProbe | driver/dtrace.c:6550-6563 | the pointers come to link the chain that adding to the hash leaves |
| ProbeLinks.Links.UnlinkProbe | driver/dtrace.c:6616-6647 | the pointers come to link the chain that removing from the hash leaves, and the head is NULL exactly when that is empty |
| ProbeLinks.MinusAt | driver/dtrace.c:6616-6647 | unlinking a probe where it stands is removing it from the chain |
| ProbeMatch.HashedIsScan | driver/dtrace.c:6984-7085 | filtering the probes of a fixed name is filtering all probes |
| ProbeMatch.OnlyId | driver/dtrace.c:6999-7007 | looking up one identifier is scanning for it |
| ProbeMatch.Registry.constructor | driver/dtrace.c:6463-6480 | no probes |
| ProbeMatch.Registry.Create | driver/dtrace.c:7547-7624 | a probe enters the array and all three hashes |
| ProbeMatch.Registry.Destroy | driver/dtrace.c:7485-7545 | a probe leaves the array and all three hashes |
| ProbeMatch.Registry.ByHash | driver/dtrace.c:7067-7081 | a hash search finds what a scan finds |
| ProbeMatch.Registry.All | driver/dtrace.c:7041-7059 | the scan |
| ProbeMatch.Registry.ById | driver/dtrace.c:6999-7007 | one identifier |
| ProbeMatch.Registry.Match | driver/dtrace.c:6984-7085 | whichever hash is picked, the probes matched are those of the scan, each as often |
| Arith128.Add128 | driver/dtrace.c:1015-1026 | the sum modulo 2^128, also when the result overwrites an operand |
| Arith128.ShiftLeft | driver/dtrace.c:1032-1067 | the left shift modulo 2^128 |
| Arith128.ShiftRight | driver/dtrace.c:1032-1067 | the right shift is exact from 64 on, and below 64 if and only if no bit that should move is masked away |
| Arith128.ShiftLoses | driver/dtrace.c:1032-1067 | 2^95 shifted right by 33 comes out as 0 instead of 2^62 |
| Arith128.Multiply128 | driver/dtrace.c:1076-1100 | the full product of any two 64-bit values |
| Arith128.Stddev | driver/dtrace.c:1901-1923 | one more value: count, sum and sum of squares modulo their widths |
| Arith128.StddevAll | driver/dtrace.c:1901-1923 | the same for any sequence of values |

## Left out

- Weak memory: steps are sequentially consistent and a compare-and-swap is atomic; memory barriers are not modelled.
- Liveness: that a posted soft interrupt runs, that a juggle's retry loop ends, that the cleaner is scheduled.
- cyclic_pick_cpu, binding, partitions, omnipresent cyclics, suspend and resume, and the Linux timer backend.
- CyclicHeap.CycCpu.Fire: records the expiries it makes; what an expiry then does to the pending count is in CyclicSystem, not in this class.
- Times are unbounded integers: the 64-bit overflow of a nanosecond clock is not modelled.
- Buffer indices, speculation identifiers and lock counters are unbounded where the source wraps them at 32 or 64 bits.
- Several speculations at once: one is modelled, since they share no state but the cleaner.
- The second synchronisation of dtrace_dynvar_clean and its state word, which only choose how a failed allocation is counted.
- Dynamic variables: hashing of the key tuple and comparison of its parts; a key is a value with a hash, and equal keys have equal hashes.
- DynLookup.NullMeansExhausted: a variable larger than a chunk, dropped before any list is looked at, is not modelled.
- Trace buffers that fill or switch, and inactive buffers; words of four bytes stand for bytes, so only alignments 4 and 8 are modelled.
- RingBuffer.Ring.Decode: models record boundaries and sizes, not the consumer's formatting.
- AggBuffer.Buffer.Aggregate: a tuple found under another action (the illegal-operation branch) is not modelled: one aggregation has one action.
- AggBuffer.Buffer.Insert: keys, buckets and values are sequences beside the bytes of the tuples; PartsApart says where in the buffer they lie, but their own encoding as bytes is not modelled.
- Aggregations: the value is folded by any function; quantize, lquantize and the order in which consumers print are not modelled.
- Dif.Validate: the checks of the return type and of the types in the variable table are not modelled; they have no part in the properties shown.
- DifVars.AssertsExact: one way only where a branch depends on compared registers or a division on a computed one: which way those go is a matter of the values.
- CyclicStranded.StrandedExact: says nothing once the removal of a stranded slot has begun, which then waits for good.
- DIF: the values of loads, variables and subroutines, shifts and signed division are an arbitrary environment.
- ProbeHash.Hash.Remove: models a bucket's chain as a sequence; ProbeLinks shows chain by chain that the previous and next pointers carry it.
- CyclicHeap.JuggleTo: one attempt; the retry loop is not modelled, and what juggling does to the running protocol is in CyclicJuggle.
- CyclicTheorems.AssertsHold: the assertions on the heap (916, 1582, 1603, 1693, 1796, 1810) are matters of the class in CyclicHeap, and those on cpu_lock and CPU flags are not modelled.
- ProbeMatch.Registry.Match: the callback always asks for the next probe; glob matching and privileges are arbitrary predicates.
- The predicate cache, credentials, ioctl, DOF parsing, helpers, stack walking, disassembly, instruction emulation and DWARF.
