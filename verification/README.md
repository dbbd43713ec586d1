# Stacklets: lazy threads, their locks and queues, verified

The repository runs recursive programs as lazy threads. A call publishes a *seed* for the work it will
do next and runs its first child on its own stack; if another thread takes the seed, the frame turns
into a two-way join and its second child runs on a fresh *stacklet*, so that stacks form a cactus. Around
this sit a lock that passes requests by user-level interrupts, a shared ring buffer, a barrier and a
reader-writer lock. This project models them and proves what they promise.

`dafny verify dfyconfig.toml` checks everything.

| files | what they hold |
|---|---|
| `Lists`, `Sums`, `Fibonacci` | sequences without repetition, finite sums, the sequential recursion and the table of results |
| `Cactus`, `CactusInvariant`, `CactusSteps`, `CactusLaws`, `CactusKept` | frames, stacklets, strands and joins: the machine both runtimes share, its invariant, its conservation laws and its measure of work |
| `WorkStealing`, `WorkStealingInvariant`, `WorkStealingProof`, `WorkStealingProgress`, `WorkStealingFairness`, `WorkStealingLedger`, `WorkStealingOrder` | the multithreaded runtime of `compiler/v3`: per-thread seed queues and locks, any number of threads, any interleaving |
| `SingleThread`, `SingleThreadProof`, `SingleThreadYields` | the runtime of `compiler/v2`: ready queue, yields, `stubBase`, freeing of stacklets |
| `LinkedQueues` | the four linked queues, with their pointers, under any sequence of operations |
| `CactusHeap`, `SeedQueues`, `WorkStealingRuntime`, `SingleThreadRuntime` | both runtimes in memory: records and stacklets as objects, outputs written through pointers, the linked queues, locks in an array |
| `UliLock`, `UliLockInvariant`, `UliLockSteps`, `UliLockProof`, `UliLockProgress`, `UliLockPolls`, `UliLockLost` | the queue lock of `sync` in polled mode, with one lock and every shared access a separate step |
| `UliLocks`, `UliLocksTokens`, `UliLocksTidy`, `UliLocksSteps`, `UliLocksExact`, `UliLocksCalls`, `UliLocksPolls` | any number of such locks over the per-CPU words they share, calls nested in any way, and exactly when they exclude |
| `UliLocksProof`, `UliLocksProgress`, `UliLocksNested`, `UliLocksMachine` | the same with one lock at a time per CPU, where each lock behaves as if alone; a nested run that goes wrong; the locks in memory with linked message queues |
| `RingBuffer`, `Barrier`, `RwLock` | the shared buffer and the two pthread primitives, in any interleaving |
| `StackletLayout` | the address arithmetic of stacklet and stub, on 64-bit words |

How to read it. A concurrent protocol is a state and a step function; `Run` applies a schedule, which is
any sequence of thread numbers and choices, and a theorem about `Run` for all schedules is a theorem about
all runs. A thread whose step is not possible waits. In `WorkStealing` that happens only while a lock is
taken or no seed is found (`EnabledUnlessBlocked`); in `UliLock` and `SingleThread` it never does
(`MessagesInOrder`, `EveryYieldChoiceComputesFib`). Frames carry a *phase*, and the lock a *chain*, as
history variables: no step decides anything by them.

The theorems are proved about step functions on values. `CactusHeap`, the two `...Runtime` modules and
`UliLocksMachine` are the same programs on memory: objects that point to each other and are updated in
place, each with a ghost field `abs` holding the value state it stands for. `Valid()` ties the two together,
every method is proved to take `abs` from one specified state to the next, and so what is proved about runs
holds of the memory a run leaves behind (`StartFib`, `HoldersAfter`). A method may need to know that, say, a
frame about to release its seed still has one; that is `Fit`, which the invariants give in every reachable
state (`AlwaysFit`). `RingBuffer`, `Barrier` and `RwLock` are classes whose `Valid()` is the invariant and
whose `Run` takes any schedule. Beside each is its step as a function (`Next`), about whose runs is proved what
callers get: what a call was given and what it returned, and what it did to the queue or the holds.

Four promises turn out to hold under a condition only.

* `addme` (`sync/mylock.c`) ignores the result of its compare-and-swap and reads the owner again. If the CPU it
  made owner has linked a successor in between, the grant is forgotten: the request goes to the new
  owner and nobody is told to take the lock. `SwapCanBeLost` is such a run, `LostMeansNeverAgain` shows that
  the lock is then gone for good, and `ChainKeptIffNothingLost` that chain and requests are in order exactly in the
  runs without such a lost swap. `CanSettleIffNoneOvertaken` is the same for progress: all that wait can still
  be served exactly when no swap was lost or has been overtaken. When swap and re-read are one step none ever is
  (`UndividedKeepsChain`, `UndividedCanSettle`). With one lock, mutual exclusion holds in all runs.
* `trigger` and `waiter_id` (`sync/mylock.c`) are per CPU, not per lock. If a CPU asks for a lock while it has one,
  two waiters for different locks can end up in one word, and `myunlock` tells a CPU to go on that waits for another
  lock: `NestedLocksCollide` is such a run. `ExcludesIffDirected` shows that this misdirected grant is the exact
  condition: without one the locks exclude, and from the first one on a collision is at hand. If no CPU asks while it
  has a lock there is none (`OneAtATimeDirected`), and progress too holds for each lock by itself
  (`CanRestIffNoneOvertaken`).
* `pthread_rwlock_unlock` (`simulation/m5threads/pthread.c`) counts a reader out whoever calls it. Writers always
  exclude each other. A write hold is granted beside a reader exactly if there was such a stray unlock
  (`StoreWriter`); `ReaderBesideWriter` is a run with one.
* `main` (`compiler/v3/myfib.c`) expects 0 for n = 0, where `fib` returns 1. `ZeroIsRejected` gives the run, and
  `MainAcceptsUnlessZero` shows that the check succeeds exactly for n >= 1, among 0 to 46.

## Model

| member | source | states |
|---|---|---|
| `WorkStealingProof.EveryScheduleComputesFib` | compiler/v3/myfib.c:34-200 | for every n, every number of threads and every interleaving, each frame that has returned delivered Fib of its input, and whatever reaches `startfib` is Fib(n) |
| `WorkStealingProof.StepInv` | compiler/v3/myfib.c:34-200 | every enabled step of every thread keeps the whole invariant (frames, stacklets, queues, locks, tracker totals) and the input of the root; a productive step strictly lowers the work measure, any other step leaves it as it is |
| `WorkStealingProof.RunKeepsInv` | compiler/v3/myfib.c:223-260 | the invariant holds after every schedule from `startfib` |
| `WorkStealingProof.JoinPassedOnce` | compiler/v3/myfib.c:109-197 | a frame goes past its join at most once: a stolen frame only with both outputs written, any other with its first output, and with the second once the inline child is back; when the root has returned, every frame with children has gone past it exactly once |
| `WorkStealingProof.StrandsConserved` | compiler/v3/myfib.c:126-182 | active strands = 1 + frames whose counter is 2 or about to be set to 2 by a thief; always at least one strand and never more than threads; exactly one at the end |
| `WorkStealingProof.TotalsAtTheEnd` | compiler/v3/tracker.c:18-31 | summed over threads, fib calls = 2 Fib(n) - 1 and forks = firstReturn + secondReturn, whatever was stolen |
| `WorkStealingLedger.TrackersCountOwnDeeds` | compiler/v3/myfib.c:34-200 | in every run each tracker counts exactly the frames its own thread entered, forked, and took past the join from the first and from the second child, read off the positions of the thread |
| `WorkStealingLedger.TotalsCountFrames` | compiler/v3/tracker.c:18-31 | the totals are numbers of frames: entered, stolen, and the stolen ones whose first, or whose second, child came back last |
| `WorkStealingLedger.JoinPassedOneWay` | compiler/v3/myfib.c:109-197 | a frame is forked if and only if it was stolen; a stolen one goes past its join from exactly one of the two children, any other alone, each at most once, and every frame with children once the root has returned |
| `WorkStealingLedger.StepMarks` | compiler/v3/myfib.c:34-200 | a step leaves its mark (entered, stolen, past the join) on the frame its thread works on, on no other, and never twice |
| `WorkStealingLedger.StepCounts` | compiler/v3/myfib.c:45-186 | a step counts for the thread that makes it, and only what that thread does |
| `WorkStealingProof.OneThreadHalts` | compiler/v3/myfib.c:252-259 | only one thread gets back to `startfib`; all others are then in `suspend` |
| `WorkStealingProof.MainAcceptsUnlessZero` | compiler/v3/myfib.c:262-278 | for 0 <= n <= 46 no addition leaves 32 bits, and the comparison in `main` succeeds if and only if n >= 1 |
| `WorkStealingProof.OutputsCorrect` | compiler/v3/myfib.c:122-124 | in every state that satisfies the invariant, outputs and result are the values of the recursion |
| `WorkStealingProof.StartInv` | compiler/v3/stacklet.c:292-311 | the state `firstFork` sets up, with lock 0 taken, satisfies the invariant |
| `WorkStealingProof.NotBeingStolen` | compiler/v3/myfib.c:112-118 | with the queue lock held and the normal return address found, the seed is still in the queue: no thief is half way |
| `WorkStealingProof.ThiefHolds` | compiler/v3/stacklet.c:214-227 | from taking a seed until the join is set up the thief holds the lock of the queue the seed came from |
| `WorkStealingProof.SuspendInv` | compiler/v3/stacklet.c:214-266 | looking for a seed, locking, re-checking and grabbing or backing out keep the invariant |
| `WorkStealingProof.EnterInv` | compiler/v3/myfib.c:44-69 | entry of `fib` and the base case keep the invariant and count one call |
| `WorkStealingProof.PushInv` | compiler/v3/myfib.c:98-107 | locking and pushing the seed keep the invariant |
| `WorkStealingProof.GoFirstInv` | compiler/v3/myfib.c:106-109 | unlocking and calling the first child keep the invariant |
| `WorkStealingProof.ComeBackInv` | compiler/v3/myfib.c:112-153 | return of the first child, on either return address, keeps the invariant |
| `WorkStealingProof.GoInlineInv` | compiler/v3/myfib.c:117-121 | unlocking and calling the second child inline keep the invariant |
| `WorkStealingProof.StealSecondInv` | compiler/v3/myfib.c:126-136 | turning a stolen frame into a two-way join keeps the invariant |
| `WorkStealingProof.ForkSecondInv` | compiler/v3/stacklet.c:187-210 | `stackletFork` (unlock, then a fresh stacklet) keeps the invariant |
| `WorkStealingProof.MeetSecondInv` | compiler/v3/myfib.c:171-187 | return of the stolen child keeps the invariant |
| `WorkStealingProof.FinishStepInv` | compiler/v3/myfib.c:166-169 | a frame past its join can always return, and returning keeps the invariant |
| `WorkStealingProof.ResumeStepInv` | compiler/v3/stacklet.c:149-181 | the stub can always resume the parent it names, and that keeps the invariant |
| `WorkStealingProgress.SeedsWhereTheyBelong` | compiler/v3/seedStack.c:56-101 | in every run a seed is in queue x, once, if and only if thread x pushed it, its first child is outstanding, its return address is unchanged and no thief has it |
| `WorkStealingProgress.SeedTakenByParentOrThief` | compiler/v3/myfib.c:112-118 | a seed leaves its queue only by its parent releasing it or by one thief, each holding the lock of that queue |
| `WorkStealingProgress.SeedConsumedOnce` | compiler/v3/seedStack.c:72-83 | a consumed seed is in no queue after any further step |
| `WorkStealingProgress.LockDiscipline` | compiler/v3/seedStack.c:29-41 | every step takes only a free lock and releases only a lock its own thread took |
| `WorkStealingProgress.RunsOnTop` | compiler/v3/myfib.c:109-124 | code that calls, returns or goes on past a join runs on the top record of its stacklet |
| `WorkStealingProgress.EnabledUnlessBlocked` | compiler/v3/myfib.c:34-200 | a strand can always step unless the single lock it waits for is taken |
| `WorkStealingProgress.OwnerEnabled` | compiler/v3/seedStack.c:29-41 | the owner of a lock can always step: there is no circular wait |
| `WorkStealingProgress.SomeThreadCanStep` | compiler/v3/stacklet.c:234-266 | until a thread is back in `startfib`, some thread can make a productive step or give back a lock |
| `WorkStealingProgress.ProductiveStepsBounded` | compiler/v3/myfib.c:34-200 | productive steps of any run plus the measure left never exceed the initial measure |
| `WorkStealingProgress.CanAlwaysFinish` | compiler/v3/stacklet.c:234-266 | every run, however it went so far, can be continued until Fib(n) is back in `startfib` |
| `WorkStealingFairness.FairRunsFinish` | compiler/v3/stacklet.c:234-266 | under every schedule in which each thread occurs in each window of w steps, Fib(n) is back in `startfib` after (Total(Start) + 1) windows |
| `WorkStealingFairness.StepsBounded` | compiler/v3/myfib.c:34-200 | steps taken by any run, fair or not, plus the total left never exceed the total at the start; a look at an empty queue is no step, so how long `suspend` spins over empty queues is not counted |
| `WorkStealingFairness.WindowMoves` | compiler/v3/stacklet.c:234-266 | until the root has returned, some step is taken in every window in which each thread occurs |
| `WorkStealingFairness.LooksLess` | compiler/v3/stacklet.c:214-227 | seeing a front, locking, looking again and backing out strictly lower the looking left, so idle threads cannot go on like this while nothing else happens; looks at empty queues are not counted |
| `WorkStealingOrder.StealsOldestWhereItLooked` | compiler/v3/stacklet.c:214-227 | in every run a thief takes its seed from the queue in which it saw one, with the lock of that queue, and takes the frame older than all others there; the rest of the queue stays |
| `WorkStealingOrder.UndisturbedSteal` | compiler/v3/stacklet.c:214-227 | an idle thread that looks at a queue with a seed and a free lock has, after three steps of its own, the first seed and the lock |
| `WorkStealingOrder.YoungestAlways` | compiler/v3/myfib.c:101-104 | in every run each queue is in order of age, and a frame that has not pushed its seed yet is younger than all whose seeds its thread has pushed |
| `WorkStealingProgress.ZeroIsRejected` | compiler/v3/myfib.c:262-278 | there is a run of fib(0) that ends with 1, which `main` rejects |
| `Fibonacci.CallsOfFib` | compiler/v3/myfib.c:57-69 | one call of `fib` makes 2 Fib(n) - 1 calls in all |
| `Fibonacci.TableOfFib` | compiler/v3/myfib.c:26-30 | the table of results agrees with the recursion at n <= 46 if and only if n >= 1 |
| `Fibonacci.FitsInt` | compiler/v3/myfib.c:262-278 | Fib(n) fits a 32-bit int for n <= 46 |
| `CactusInvariant.InitInv` | compiler/v3/myfib.c:240-253 | one root frame on the first stacklet satisfies the frame, stacklet and value invariant |
| `CactusInvariant.CoveredWaits` | compiler/v3/myfib.c:109-121 | a record with another record above it belongs to a frame that waits for a child |
| `CactusInvariant.TopOfStack` | compiler/v3/myfib.c:109-124 | a frame that runs its own code has the last record of its stacklet |
| `CactusInvariant.ReturnsToParent` | compiler/v3/stacklet.c:149-181 | returning hands control to exactly the parent that waits: after its first call, after its inline second call, or through the stub of its stacklet |
| `CactusSteps.LeafInv` | compiler/v3/myfib.c:57-69 | base case: enabled, and keeps the invariant |
| `CactusSteps.BeginInv` | compiler/v3/myfib.c:85-88 | setting up the children keeps the invariant |
| `CactusSteps.PublishInv` | compiler/v3/myfib.c:101-103 | publishing the frame keeps the invariant |
| `CactusSteps.CallAInv` | compiler/v3/myfib.c:109-109 | calling the first child overwrites no live record and keeps the invariant |
| `CactusSteps.ReleaseInv` | compiler/v3/myfib.c:115-118 | going past the join alone keeps the invariant |
| `CactusSteps.CallBInv` | compiler/v3/myfib.c:121-121 | calling the second child inline overwrites no live record and keeps the invariant |
| `CactusSteps.ClaimInv` | compiler/v3/stacklet.c:219-225 | a slot without a strand taking an outstanding seed keeps the invariant |
| `CactusSteps.ConvertInv` | compiler/v3/myfib.c:126-132 | rewriting return address and counter keeps the invariant |
| `CactusSteps.ForkBInv` | compiler/v3/stacklet.c:196-209 | starting the second child on a fresh stacklet keeps the invariant |
| `CactusSteps.JoinFirstInv` | compiler/v3/myfib.c:139-152 | counting the first child down keeps the invariant |
| `CactusSteps.JoinSecondInv` | compiler/v3/myfib.c:171-182 | counting the second child down keeps the invariant |
| `CactusSteps.ReturnInv` | compiler/v3/myfib.c:166-169 | popping a record and delivering the right value to the right record keeps the invariant |
| `CactusSteps.FinishInv` | compiler/v3/myfib.c:121-124 | a frame with both outputs can return and delivers Fib of its input |
| `CactusSteps.ResumeInv` | compiler/v3/stacklet.c:149-158 | resuming the parent named by the stub keeps the invariant |
| `CactusLaws.Finished` | compiler/v3/myfib.c:252-259 | when the root has returned: result Fib(n), one strand left, every call made once, every fork matched, every join passed once |
| `CactusLaws.AllGone` | compiler/v3/myfib.c:252-259 | when the root has returned no frame is left |
| `CactusLaws.DoubledMeans` | compiler/v3/myfib.c:126-132 | the frames counted in strand conservation are those with counter 2 or with a thief about to write it |
| `CactusLaws.SumFits` | compiler/v3/myfib.c:166-169 | for a root input up to 46 the addition of the two outputs stays within 32 bits |
| `CactusLaws.SomeStrand` | compiler/v3/stacklet.c:234-266 | some slot always has a strand |
| `CactusHeap.Heap.CallChild` | compiler/v3/myfib.c:109-121 | a call puts a new record right above its caller on the same stacklet, over whatever was there; every other record, and every pointer into one, still means what it did |
| `CactusHeap.Heap.ForkSecondChild` | compiler/v3/stacklet.c:196-209 | the second child gets a new stacklet whose stub points to the parent record, and its output pointer to that record |
| `CactusHeap.Heap.PopRecord` | compiler/v3/myfib.c:166-169 | the way back is read from the stack: the record below, or the stub at the base |
| `CactusHeap.Heap.ReturnFrame` | compiler/v3/myfib.c:166-169 | the output written through the pointer lands in the parent record the machine delivers to, and in no other |
| `CactusHeap.Heap.ConvertFrame` | compiler/v3/myfib.c:126-132 | overwriting return address and counter of the shared record is what the thief does to the frame |
| `CactusHeap.Heap.CountDown` | compiler/v3/myfib.c:139-182 | decrementing the shared counter is one arrival at the join, and says whether it was the last |
| `CactusHeap.Heap.FinishFrame` | compiler/v3/myfib.c:121-124 | the two words the children wrote are added and returned |
| `CactusHeap.Heap.ResumeParent` | compiler/v3/stacklet.c:149-181 | following the pointer in the stub resumes the parent the stacklet was forked by, or ends in `startfib` |
| `SeedQueues.Queues.Push` | compiler/v3/seedStack.c:56-70 | pushing into one linked queue appends there and leaves all other queues, and every frame's own seed pointer, valid |
| `SeedQueues.Queues.Release` | compiler/v3/seedStack.c:72-83 | a frame releasing its seed through its own pointer takes that frame out of that queue, wherever it is, and disturbs no other queue |
| `SeedQueues.Queues.TakeFront` | compiler/v3/seedStack.c:72-101 | a thief gets the frame whose seed is oldest; the rest stays in order, and no other queue is disturbed |
| `SeedQueues.Queues.HasFront` | compiler/v3/seedStack.c:89-101 | the front pointer is null if and only if the queue holds no frame |
| `SeedBook.Book.Release` | compiler/v2/seedStack.c:31-36 | popping a seed through the frame's own pointer takes out exactly that frame |
| `SeedBook.Book.TakeFront` | compiler/v2/seedStack.c:31-36 | `suspend` takes the newest seed and learns whose it is |
| `WorkStealingRuntime.LazyThreads.GrabSeed` | compiler/v3/stacklet.c:219-225 | unlinking the front seed, with the lock held, makes the thief go on in that frame, as the runtime specifies |
| `WorkStealingRuntime.LazyThreads.PushSeed` | compiler/v3/myfib.c:98-107 | linking a seed and remembering its pointer and queue publishes the frame in memory as specified |
| `WorkStealingRuntime.LazyThreads.Dispatch` | compiler/v3/myfib.c:112-157 | the return address found in the record decides: the normal one releases the seed through the frame's pointer, the other leaves the queue alone; memory is then that of the specified step |
| `WorkStealingRuntime.LazyThreads.FirstDone` | compiler/v3/myfib.c:139-152 | the counter found in the record decides who passes the join; memory is then that of the specified step |
| `WorkStealingRuntime.LazyThreads.StartChild` | compiler/v3/stacklet.c:187-210 | the new record and stacklet are those of the specified fork |
| `WorkStealingRuntime.LazyThreads.CanStep` | compiler/v3/myfib.c:34-200 | from locks, queue fronts and positions alone: true if and only if the specified step is enabled |
| `WorkStealingRuntime.LazyThreads.Advance` | compiler/v3/myfib.c:34-200 | one step of one thread on records, stacklets, linked seed queues, locks and trackers leaves memory in the specified next state; nothing old is moved or freed |
| `WorkStealingRuntime.Execute` | compiler/v3/myfib.c:223-260 | any schedule run in memory leaves the specified result |
| `WorkStealingRuntime.StartFib` | compiler/v3/myfib.c:223-260 | whatever comes back from memory is Fib(n), and under a fair schedule that is long enough it does come back |
| `WorkStealingRuntime.AlwaysFit` | compiler/v3/myfib.c:98-118 | in every reachable state a frame about to push has no seed yet and a frame about to release still has its own, once |
| `SingleThreadProof.EveryYieldChoiceComputesFib` | compiler/v2/myfib.c:12-134 | total correctness for every choice of yield points: never stuck, halts within the initial potential with Fib(n), empty queues and every allocated stacklet freed |
| `SingleThreadProof.SuspendNeverSpins` | compiler/v2/stacklet.c:69-94 | whenever `suspend` is entered its first pass finds a seed or a ready thread |
| `SingleThreadYields.YieldsWhenTold` | compiler/v2/myfib.c:32-36 | in every run a frame with children that is told to yield is then last in the ready queue, with no seed pushed and control in `suspend`; not told to, it pushes its seed and leaves the ready queue alone |
| `SingleThreadYields.ResumedGoesOn` | compiler/v2/stacklet.c:98-120 | a frame yields once: resumed, it pushes its seed whatever it is told |
| `SingleThreadYields.SeedsFirst` | compiler/v2/stacklet.c:69-94 | in `suspend` the newest seed is taken before any ready strand |
| `SingleThreadYields.YieldedAreResumed` | compiler/v2/stacklet.c:69-120 | in every run the strands resumed, followed by those in the ready queue, are the strands that yielded, in that order, and each gets back the `stubBase` it had |
| `SingleThreadYields.AllResumed` | compiler/v2/stacklet.c:69-120 | when the program is back in `startfib` every strand that yielded has been resumed |
| `SingleThreadYields.YieldStealResume` | compiler/v2/myfib.c:12-134 | a run of fib(4) in which the first child yields, the second child of the root is stolen, and the strand that yielded is resumed |
| `SingleThreadProof.StrandsConserved` | compiler/v2/stacklet.c:69-120 | running strand + ready queue = 1 + joins still at 2 |
| `SingleThreadProof.StubBaseRight` | compiler/v2/myfib.c:54-80 | whenever code of a frame runs, `stubBase` is the base of its stacklet, which is not freed, and where it may call or return its record is on top |
| `SingleThreadProof.FreedOnceAndUnused` | compiler/v2/stacklet.c:33-42 | a stacklet is freed once, by its own stub, when no live frame, no seed and no ready entry refers to it |
| `SingleThreadProof.LeaveStep` | compiler/v2/stacklet.c:33-42 | the stub frees the stacklet it runs on, resumes the parent and restores the parent's `stubBase`; this keeps the invariant |
| `SingleThreadProof.HaltedClean` | compiler/v2/myfib.c:124-134 | when `fib` has returned to `startfib`: result Fib(n), queues empty, all stacklets freed |
| `SingleThreadProof.StepInv` | compiler/v2/myfib.c:12-118 | until it has halted the program can step, and every step, yielding or not, keeps the invariant |
| `SingleThreadProof.StepUsesWork` | compiler/v2/myfib.c:12-118 | every step strictly lowers the potential |
| `SingleThreadProof.RunKeepsInv` | compiler/v2/myfib.c:124-134 | the invariant holds after every sequence of choices, and steps taken plus potential left never exceed the initial potential |
| `SingleThreadProof.NotBeingStolen` | compiler/v2/myfib.c:61-65 | with the normal return address the seed is still in the list |
| `SingleThreadProof.ForkStep` | compiler/v2/stacklet.c:45-62 | `stackletFork` keeps the invariant and the `stubBase` discipline |
| `SingleThreadProof.StealStep` | compiler/v2/myfib.c:73-80 | resuming at the stolen frame restores its `stubBase` |
| `SingleThreadProof.YieldStep` | compiler/v2/stacklet.c:97-112 | yielding keeps the invariant |
| `SingleThreadProof.ResumeReadyStep` | compiler/v2/stacklet.c:84-92 | resuming the oldest ready thread keeps the invariant and restores its `stubBase` |
| `SingleThreadProof.ClaimStep` | compiler/v2/stacklet.c:74-82 | taking the newest seed keeps the invariant |
| `SingleThreadRuntime.LazyThread.TakeSeed` | compiler/v2/stacklet.c:74-82 | unlinking the newest seed resumes its frame at the steal address with memory as specified |
| `SingleThreadRuntime.LazyThread.ResumeReady` | compiler/v2/stacklet.c:84-92 | the oldest entry of the linked ready queue resumes with memory as specified |
| `SingleThreadRuntime.LazyThread.YieldStrand` | compiler/v2/stacklet.c:97-112 | a yielding strand leaves one new entry at the end of the ready queue; memory is as specified |
| `SingleThreadRuntime.LazyThread.PopOwnSeed` | compiler/v2/myfib.c:61-71 | with the normal return address the frame pops its seed through its own pointer; memory is as specified |
| `SingleThreadRuntime.LazyThread.ForkStacklet` | compiler/v2/stacklet.c:45-62 | the new stacklet, its stub and the saved `parentStubBase` are those of the specified fork |
| `SingleThreadRuntime.LazyThread.RunStub` | compiler/v2/stacklet.c:33-42 | the stub frees its stacklet, restores the saved `stubBase` and resumes the parent record it points to, as specified |
| `SingleThreadRuntime.LazyThread.Advance` | compiler/v2/myfib.c:12-118 | one step on records, stacklets, linked seed list and ready queue leaves memory in the specified next state |
| `SingleThreadRuntime.AlwaysFit` | compiler/v2/myfib.c:47-65 | in every reachable state a frame about to push has no seed yet, and a frame about to pop still has its own |
| `SingleThreadRuntime.StartFib` | compiler/v2/myfib.c:124-134 | the loop over memory terminates for every choice of yields and returns Fib(n) |
| `UliLockProof.MutualExclusion` | sync/mylock.c:35-160 | in every run of a program with one lock, with every access a separate step, at most one CPU is between winning the lock and giving it up |
| `UliLockProof.ChainKeptIffNothingLost` | sync/mylock.c:118-157 | chain, token and request invariants hold at every point of a run if and only if no successful swap is overtaken before its re-read |
| `UliLockProof.UndividedKeepsChain` | sync/mylock.c:121-125 | if the swap and its re-read are not separated by another CPU, nothing is lost and the chain and request invariants hold after every run |
| `UliLockProof.LostMeansNeverAgain` | sync/mylock.c:121-140 | after a lost swap no CPU ever has the lock again and it never becomes free |
| `UliLockProof.LostKills` | sync/mylock.c:125-136 | the step that loses a swap leads from an orderly state to a dead one, which is not orderly |
| `UliLockProof.StepDead` | sync/mylock.c:35-160 | every step keeps a dead state dead, and no CPU is blocked |
| `UliLockProof.ChainIsFifo` | sync/mylock.c:81-102 | the chain only grows at its end and shrinks at its head; -1 is written only when nobody is linked; a CPU leaves `mylock` only as head of the chain |
| `UliLockProof.RequestsAccounted` | sync/mylock.c:56-75 | a spinning CPU is linked or has exactly one outstanding request; any other CPU has none |
| `UliLockProof.NoStaleRequest` | sync/mylock.c:56-75 | in every run a CPU has at most one request under way, and only while it spins, so no message refers to a record it has left |
| `UliLockProof.MessagesInOrder` | sync/u_interrupt.c:79-106 | in every run no empty queue is dequeued, handlers start each message once and in sending order, and every CPU can step |
| `UliLockPolls.PollServesQueue` | sync/u_interrupt.c:60-106 | in every run a call of `poll` or `eui`, in a handler or not, gets back to where it was made only after every message in the queue at the call has been started, in order |
| `UliLockPolls.UnlockServesQueue` | sync/mylock.c:101-101 | so a CPU is back from `myunlock` only when it has started all requests that were in its queue |
| `UliLockPolls.StepMails` | sync/u_interrupt.c:60-106 | whatever CPU makes a step, messages are only added, and a handler ends only when all are started |
| `UliLockProof.RunInOrder` | sync/mylock.c:35-191 | every run is in an orderly state if no swap was lost in it, in a dead one otherwise |
| `UliLockSteps.StepStrong` | sync/mylock.c:35-160 | every step that loses no swap is enabled and keeps the chain, token, request and message invariants |
| `UliLockSteps.InitStrong` | sync/mylock.c:162-191 | the state after `init_lock` satisfies them |
| `UliLockSteps.CasForStrong` | sync/mylock.c:120-121 | a swap on behalf of another CPU makes it the whole chain |
| `UliLockSteps.LinkOwnerStrong` | sync/mylock.c:154-156 | linking adds the asking CPU at the end of the chain |
| `UliLockSteps.GrantStrong` | sync/mylock.c:93-96 | handing over passes the token to the next CPU of the chain |
| `UliLockSteps.FreeStrong` | sync/mylock.c:97-98 | -1 is written only by the last CPU of the chain |
| `UliLockSteps.TriggerStrong` | sync/mylock.c:137-140 | setting the trigger passes the token to the CPU the swap was made for |
| `UliLockProgress.CanSettleIffNoneOvertaken` | sync/mylock.c:35-160 | a run can be continued until every waiting CPU has had the lock and given it back, all messages are handled and the lock is free, if and only if no swap in it was lost or has been overtaken |
| `UliLockProgress.UndividedCanSettle` | sync/mylock.c:121-125 | so it always can when the swap and its re-read are one step |
| `UliLockProgress.StepNearer` | sync/mylock.c:35-160 | every step that does more than wait uses up turns of ownership still to come, or leaves those alone and uses up work |
| `UliLockProgress.AllWaiting` | sync/mylock.c:56-75 | if all CPUs only wait, the lock is free and nobody is in the lock code: nobody waits for a message that will not come |
| `UliLockProgress.OvertakenStays` | sync/mylock.c:121-136 | an overtaken swap stays overtaken whatever the other CPUs do |
| `UliLockLost.SwapCanBeLost` | sync/mylock.c:121-136 | a run of three CPUs in which a swap is lost, so the chain claim is false without its condition |
| `UliLocksExact.ExcludesIffDirected` | sync/mylock.c:35-160 | with any number of locks and calls nested in any way: no run that branches off from a given one, without a misdirected grant of its own, brings two CPUs into one critical section, if and only if no grant of the given run tells a CPU that does not spin on the lock given back |
| `UliLocksExact.LocksExclude` | sync/mylock.c:35-160 | in every run without a misdirected grant each lock is at no more than one CPU, however calls are nested |
| `UliLocksExact.AstrayGrantCollides` | sync/mylock.c:93-95 | from the first misdirected grant there is a continuation without another one that brings two CPUs into one critical section |
| `UliLocksExact.AstrayGrant` | sync/mylock.c:93-95 | at the first misdirected grant the CPU told spins on another lock, and the CPU that tells it has that one |
| `UliLocksSteps.KeptStep` | sync/mylock.c:35-160 | every step but a misdirected grant keeps the right to each lock at one place at most and every CPU referred to once at most, and only while it spins on the lock in question |
| `UliLocksSteps.GrantStep` | sync/mylock.c:93-96 | a grant to a CPU that spins on the lock given back keeps all that |
| `UliLocksSteps.EngageStep` | sync/mylock.c:120-156 | making the asking CPU the owner, by swap or by link, keeps all that |
| `UliLocksSteps.TakeStep` | sync/mylock.c:48-98 | taking a free lock and freeing it keep all that |
| `UliLocksSteps.BeginKept` | sync/mylock.c:162-191 | it holds after `init_lock` |
| `UliLocksTidy.CoresCanStep` | sync/mylock.c:35-160 | in every run, misdirected or not, no CPU is ever stuck |
| `UliLocksTidy.RunTidy` | sync/mylock.c:35-160 | in every run, misdirected or not, the words of each CPU are in range and as its place in the code leaves them |
| `UliLocksPolls.PollServesQueue` | sync/u_interrupt.c:60-106 | the same for `poll` and `eui` with any number of locks, nested calls or not |
| `UliLocksPolls.MailInOrder` | sync/u_interrupt.c:79-106 | in every run each CPU starts its messages in the order sent, each once |
| `UliLocksCalls.HasWhatItAskedFor` | sync/mylock.c:35-102 | in every run a CPU in its own code has exactly the locks its calls have asked for and not given back, and inside a call works on the lock it was called with |
| `UliLocksCalls.AsksOwner` | sync/mylock.c:67-71 | a CPU that finds its lock owned, left undisturbed, has its request for that lock last in the queue of the owner and spins |
| `UliLocksCalls.ForwardsToOwner` | sync/mylock.c:142-152 | a handler that finds the lock owned sends the request on to the owner |
| `UliLocksProof.OneAtATimeDirected` | sync/mylock.c:35-160 | if no CPU asks for a lock while it has one, no grant is misdirected |
| `UliLocksProof.OneAtATimeExcludes` | sync/mylock.c:35-160 | so then each lock is at no more than one CPU |
| `UliLocksProof.LocksInOrder` | sync/mylock.c:35-191 | in such a run each lock by itself is in an orderly state if it lost no swap, in a dead one otherwise |
| `UliLocksProof.CodeSound` | sync/mylock.c:35-102 | what one lock sees of a step of lock code for any lock is a step of that lock or nothing, although `trigger` and `waiter_id` are shared |
| `UliLocksProof.HandleSound` | sync/mylock.c:104-160 | what one lock sees of a step of a handler for any lock is a step of that lock or nothing |
| `UliLocksProgress.CanRestIffNoneOvertaken` | sync/mylock.c:35-160 | in such a run a lock can still be brought to rest, with everybody that waits for it served, if and only if it has lost no swap and has none overtaken, whatever became of the other locks |
| `UliLocksProgress.StepNearer` | sync/mylock.c:35-160 | every step that does more than wait leaves fewer live locks, or as many and fewer turns of ownership, or as many of both and less work |
| `UliLocksProgress.OvertakenStays` | sync/mylock.c:121-136 | an overtaken swap on any lock stays overtaken until it is tested |
| `UliLocksNested.NestedLocksCollide` | sync/mylock.c:93-156 | a run of three CPUs and two locks, with one CPU asking while it has a lock and a misdirected grant, in which two CPUs have lock 1 at once |
| `CpuMemory.Cpus.Send` | sync/u_interrupt.c:68-77 | a message linked into the queue of one CPU is last there, and no other CPU is disturbed |
| `CpuMemory.Cpus.Take` | sync/u_interrupt.c:79-94 | the oldest message leaves the linked queue of one CPU, and no other CPU is disturbed |
| `UliLocksMachine.Machine.Advance` | sync/mylock.c:35-160 | one step of one CPU on owner words, CPU records and linked message queues leaves memory in the specified next state |
| `UliLocksMachine.Machine.CanStep` | sync/mylock.c:35-160 | from memory alone: true if and only if the specified step is possible |
| `UliLocksMachine.Machine.Holders` | sync/mylock.c:35-102 | finds exactly the CPUs that have the given lock, each once |
| `UliLocksMachine.HoldersAfter` | sync/mylock.c:35-160 | after any schedule run in memory the CPUs found are those that have the lock, and there is at most one unless a grant was misdirected |
| `MessageQueue.Queue.IsEmpty` | sync/queue.c:14-22 | true if and only if there is no message |
| `MessageQueue.Queue.Enqueue` | sync/queue.c:64-90 | one new node at the end; every other node stays where it is, so earlier pointers into the queue stay good |
| `MessageQueue.Queue.Delete` | sync/queue.c:23-42 | removes exactly the given node, wherever it is, keeps all others in order and never returns null |
| `MessageQueue.Queue.Dequeue` | sync/queue.c:46-62 | removes the first node and returns the oldest message |
| `MessageQueue.Queue.Run` | sync/queue.c:5-90 | after any sequence of enqueues, dequeues and deletions by nodes of earlier enqueues, the queue holds exactly the nodes the specification leaves, in order |
| `SeedQueue.Queue.Push` | compiler/v3/seedStack.c:56-70 | one new seed at the end; every other seed stays where it is, so the frames' own pointers stay good |
| `SeedQueue.Queue.ReleaseAt` | compiler/v3/seedStack.c:72-83 | removes exactly the given seed, wherever it is, and keeps all others in order |
| `SeedQueue.Queue.Release` | compiler/v3/seedStack.c:72-83 | removes exactly the seed of the given frame, as the runtime model does by name |
| `SeedQueue.Queue.Peek` | compiler/v3/seedStack.c:89-101 | null if and only if the queue is empty, else the oldest seed |
| `SeedQueue.Queue.Run` | compiler/v3/seedStack.c:56-101 | after any sequence of pushes, steals and releases by seeds of earlier pushes, the queue holds exactly the seeds the specification leaves, in order |
| `SeedList.List.Push` | compiler/v2/seedStack.c:22-29 | one new seed in front, behind the dummy head; every other seed stays where it is |
| `SeedList.List.Pop` | compiler/v2/seedStack.c:31-36 | removes exactly the given seed, wherever it is, and keeps all others in order |
| `SeedList.List.First` | compiler/v2/stacklet.c:74-76 | null if and only if the list is empty, else the newest seed |
| `SeedList.List.Run` | compiler/v2/seedStack.c:22-36 | after any sequence of pushes and pops, of the newest seed or of earlier ones, the list holds exactly the seeds the specification leaves, in order |
| `ReadyQueue.Queue.Enqueue` | compiler/v2/readyQ.c:13-26 | one new entry at the end; every other entry stays where it is |
| `ReadyQueue.Queue.Dequeue` | compiler/v2/readyQ.c:28-37 | removes the oldest entry and yields its strand |
| `ReadyQueue.Queue.Run` | compiler/v2/readyQ.c:13-37 | after any sequence of both, the queue holds exactly the entries the specification leaves, in order |
| `Lists.RemoveOne` | compiler/v3/seedStack.c:72-83 | removing one name takes out that name and nothing else, where no name occurs twice |
| `Lists.RemoveByName` | compiler/v3/seedStack.c:72-83 | removing a frame's seed by name is removing it by position |
| `RingBuffer.SlotsApart` | runtime-example/sbuffree.c:65-65 | positions less than n apart use different slots |
| `RingBuffer.SharedBuffer.constructor` | runtime-example/sbuffree.c:23-34 | an empty queue of capacity n |
| `RingBuffer.SharedBuffer.BeginInsert` | runtime-example/sbuffree.c:44-48 | a call of `sbuf_insert` changes nothing in the queue |
| `RingBuffer.SharedBuffer.TakeRear` | runtime-example/sbuffree.c:54-54 | one attempt at the producer ticket: taken if and only if free |
| `RingBuffer.SharedBuffer.CheckFull` | runtime-example/sbuffree.c:56-56 | under the ticket, gives up if and only if the queue holds n items |
| `RingBuffer.SharedBuffer.ReturnFull` | runtime-example/sbuffree.c:57-58 | gives the ticket back and returns 0; the queue is unchanged |
| `RingBuffer.SharedBuffer.PointRear` | runtime-example/sbuffree.c:60-60 | insert point is the slot after the last one |
| `RingBuffer.SharedBuffer.RecheckRear` | runtime-example/sbuffree.c:61-64 | the re-check of the ticket never fails |
| `RingBuffer.SharedBuffer.StoreItem` | runtime-example/sbuffree.c:65-65 | the slot written holds none of the queued items |
| `RingBuffer.SharedBuffer.WriteRear` | runtime-example/sbuffree.c:66-66 | advances rear by one |
| `RingBuffer.SharedBuffer.LoadInserted` | runtime-example/sbuffree.c:70-70 | load half of the increment |
| `RingBuffer.SharedBuffer.StoreInserted` | runtime-example/sbuffree.c:70-70 | the item enters at the end of the queue, which had room |
| `RingBuffer.SharedBuffer.ReturnInserted` | runtime-example/sbuffree.c:71-74 | gives the ticket back and returns 1; the queue is unchanged |
| `RingBuffer.SharedBuffer.BeginRemove` | runtime-example/sbuffree.c:80-86 | a call of `sbuf_remove` changes nothing in the queue |
| `RingBuffer.SharedBuffer.WaitRead` | runtime-example/sbuffree.c:107-107 | the first of the two reads, of either counter |
| `RingBuffer.SharedBuffer.WaitCompare` | runtime-example/sbuffree.c:107-107 | goes on if and only if the two reads differ; if the counter read first has not moved since, that is when the queue is not empty |
| `RingBuffer.SharedBuffer.TakeFront` | runtime-example/sbuffree.c:116-116 | one attempt at the consumer ticket: taken if and only if free |
| `RingBuffer.SharedBuffer.CheckEmpty` | runtime-example/sbuffree.c:118-118 | under the ticket, retries if and only if the queue is empty |
| `RingBuffer.SharedBuffer.Retry` | runtime-example/sbuffree.c:119-120 | gives the ticket back and starts over |
| `RingBuffer.SharedBuffer.PointFront` | runtime-example/sbuffree.c:123-123 | remove point is the slot after the last one removed |
| `RingBuffer.SharedBuffer.ReadItem` | runtime-example/sbuffree.c:124-124 | the slot read holds the oldest item of the queue |
| `RingBuffer.SharedBuffer.RecheckFront` | runtime-example/sbuffree.c:126-126 | the re-check of the ticket never fails |
| `RingBuffer.SharedBuffer.WriteFront` | runtime-example/sbuffree.c:128-128 | advances front by one |
| `RingBuffer.SharedBuffer.LoadRemoved` | runtime-example/sbuffree.c:131-131 | load half of the increment |
| `RingBuffer.SharedBuffer.StoreRemoved` | runtime-example/sbuffree.c:131-131 | the oldest item leaves the queue, and it is the one returned |
| `RingBuffer.SharedBuffer.ReturnItem` | runtime-example/sbuffree.c:132-135 | gives the ticket back and returns the item; the queue is unchanged |
| `RingBuffer.SharedBuffer.InsertStep` | runtime-example/sbuffree.c:44-75 | the queue takes the item once, at its end, when it is counted in, and is unchanged by every other step of an insert |
| `RingBuffer.SharedBuffer.RemoveStep` | runtime-example/sbuffree.c:80-136 | the queue gives up its first item once, when it is counted out, and is unchanged by every other step of a remove |
| `RingBuffer.SharedBuffer.Step` | runtime-example/sbuffree.c:44-136 | each step of any thread takes it and the buffer to the next position of the code, an idle thread to the call it was told to make with the item given, is the step of a bounded FIFO queue that this calls for, and returns what the call returns |
| `RingBuffer.SharedBuffer.Run` | runtime-example/sbuffree.c:44-136 | any interleaving leaves the state its steps lead to; items taken followed by items queued are the items inserted, in order, at most n are queued, and what was added to either is what the threads counted in and out |
| `RingBuffer.CallersServed` | runtime-example/sbuffree.c:44-136 | in every run, whatever other threads do, the items a thread has put in are in order those of its `sbuf_insert` calls that returned 1, and its `sbuf_remove` calls returned what it took out |
| `RingBuffer.RunFromInit` | runtime-example/sbuffree.c:28-136 | whole runs from `sbuf_init`: what left the queue, then what is in it, is what entered, and every thread between its calls has been served as above |
| `Barrier.BarrierObject.constructor` | simulation/m5threads/pthread.c:650-662 | nobody has entered; direction up, counter 0 |
| `Barrier.BarrierObject.NobodyPassesEarly` | simulation/m5threads/pthread.c:671-702 | no thread has finished more waits than any other thread has begun |
| `Barrier.BarrierObject.NotAllStuck` | simulation/m5threads/pthread.c:695-699 | never are all threads spinning on a direction nobody will turn |
| `Barrier.BarrierObject.Enter` | simulation/m5threads/pthread.c:671-673 | a wait begins |
| `Barrier.BarrierObject.ReadInitialDirection` | simulation/m5threads/pthread.c:675-675 | the initial direction is the one of the round the thread belongs to |
| `Barrier.BarrierObject.TakeLock` | simulation/m5threads/pthread.c:678-678 | one attempt at the spin lock: taken if and only if free |
| `Barrier.BarrierObject.CountMe` | simulation/m5threads/pthread.c:679-679 | one more thread has arrived; the counter moves with the direction |
| `Barrier.BarrierObject.TestAndTurn` | simulation/m5threads/pthread.c:680-683 | the direction turns if and only if this thread is the last of its round |
| `Barrier.BarrierObject.DropLock` | simulation/m5threads/pthread.c:684-684 | the spin lock is given back |
| `Barrier.BarrierObject.Look` | simulation/m5threads/pthread.c:695-699 | a thread leaves its k-th wait only after all threads have begun their k-th |
| `Barrier.BarrierObject.SomeoneMoves` | simulation/m5threads/pthread.c:671-702 | some thread can always get further: one that does not wait for the direction, or the one with the spin lock |
| `Barrier.BarrierObject.Step` | simulation/m5threads/pthread.c:671-702 | every step of every thread keeps the barrier in order, takes the thread to its next position, and gets it further exactly when it neither finds the spin lock taken nor its own direction |
| `Barrier.BarrierObject.RunFairly` | simulation/m5threads/pthread.c:671-702 | if every thread occurs in every window, the rounds go on: m windows take at least m / (7 count) turns of the direction, but for one round, and every thread is back from all rounds but the last |
| `Barrier.BarrierObject.Run` | simulation/m5threads/pthread.c:671-702 | any interleaving, over any number of rounds, leaves the state its steps lead to; nobody gets ahead of anybody else, and not all are stuck |
| `RwLock.RwLockObject.constructor` | simulation/m5threads/pthread.c:378-385 | no readers, no writer |
| `RwLock.RwLockObject.WriterExcludes` | simulation/m5threads/pthread.c:392-459 | a writer excludes every other writer; beside it there is a reader if and only if `readers` plus the strays (unlocks without a hold that counted a reader out) is positive |
| `RwLock.RwLockObject.Enter` | simulation/m5threads/pthread.c:392-459 | a call, also of unlock without a hold, changes no hold |
| `RwLock.RwLockObject.TakeSpin` | simulation/m5threads/pthread.c:404-404 | one attempt at the spin lock: taken if and only if free |
| `RwLock.RwLockObject.DropSpin` | simulation/m5threads/pthread.c:407-411 | the spin lock is given back; a failed attempt starts over |
| `RwLock.RwLockObject.PeekWriter` | simulation/m5threads/pthread.c:397-402 | goes on if and only if there is no writer |
| `RwLock.RwLockObject.TestWriter` | simulation/m5threads/pthread.c:405-405 | under the lock, counts in if and only if there is no writer |
| `RwLock.RwLockObject.CountReader` | simulation/m5threads/pthread.c:406-406 | a read hold is granted while there is no writer, and counted |
| `RwLock.RwLockObject.PeekForWriting` | simulation/m5threads/pthread.c:422-425 | unlocked look at the writer |
| `RwLock.RwLockObject.PeekReaders` | simulation/m5threads/pthread.c:426-429 | unlocked look at the readers |
| `RwLock.RwLockObject.TestBoth` | simulation/m5threads/pthread.c:433-433 | under the lock, goes on if and only if there is neither writer nor reader |
| `RwLock.RwLockObject.StoreWriter` | simulation/m5threads/pthread.c:434-434 | the write hold is granted while nobody writes, and beside a reader if and only if there was a stray unlock |
| `RwLock.RwLockObject.Release` | simulation/m5threads/pthread.c:449-455 | releases the kind of hold the caller has, and only that; without one it still counts a reader out, and that is a stray |
| `RwLock.RwLockObject.Step` | simulation/m5threads/pthread.c:392-459 | every step keeps the lock in order and takes the thread, its holds and the lock where its position says; a thread outside makes the call it is asked for |
| `RwLock.RwLockObject.Run` | simulation/m5threads/pthread.c:392-459 | any interleaving leaves the state its steps lead to, and each thread with the holds its calls are for; there is at most one writer; `readers` is the number of read holds if and only if there was no stray unlock, and a reader is beside a writer if and only if `readers` plus the strays is positive, never without a stray |
| `RwLock.HoldsFollowCalls` | simulation/m5threads/pthread.c:392-459 | in every run, whatever other threads do, the holds of a thread are what its calls are for: one more read hold from each rdlock, the write hold from wrlock, one hold less (the write hold first) from unlock, from the moment the call has its effect |
| `RwLock.RunFromInit` | simulation/m5threads/pthread.c:378-459 | whole runs from `pthread_rwlock_init`: a thread back from its calls has exactly the holds they are for |
| `RwLock.ReaderBesideWriter` | simulation/m5threads/pthread.c:392-459 | one stray unlock, after which a reader and a writer are in together |
| `StackletLayout.RecoversIffNear` | compiler/v3/stacklet.c:161-176 | on 64-bit words with the mask -1 << 7: for an aligned buffer and any stack pointer, the buffer is found again if and only if the stack pointer is, as a signed distance, in [-64, 64) bytes of the stub |
| `StackletLayout.RecoversStubIffNear` | compiler/v3/stacklet.c:161-176 | and exactly then the stub is found |
| `StackletLayout.SameStub` | compiler/v3/stacklet.c:174-174 | different buffers have different stubs |

## Left out

- Inline assembly, saving of registers and labels as values: a jump is a change of the control state of a strand, and a stack pointer is the number of a frame or stacklet.
- Memory: `malloc`, `calloc` and `posix_memalign` always succeed, stacklets do not overflow, and `compiler/v3` never frees them.
- The stores of the return address and the counter of a stolen frame (compiler/v3/myfib.c:129-130) are one step: the thief holds the lock of the queue during both, and the first child reads them under it.
- Grabbing a seed reads and unlinks the front of the queue in one step, under the lock; an idle thread may look at any queue next, which covers the fixed order in `suspend`.
- The counters `firstReturn` and `secondReturn` are increased in the step in which the join is passed; the counter of calls of `suspend` is not modelled.
- The ready queue and `yield` of `compiler/v3`, which its `fib` does not use; they are modelled for `compiler/v2`, where a frame may yield or not at its yield point, whatever the counter there says.
- Counting of additions beyond 32 bits is shown for n <= 46 only, as `main` refuses more; a negative n reads outside the table in `main` and is not modelled there.
- In memory a pointer to a record that runs or waits is the number of the record (`CactusHeap`), and which records a stacklet holds is a list kept in the stacklet; pointers between records, to stubs and to seeds are pointers.
- WorkStealingFairness.FairRunsFinish: an unfair scheduler may starve a thread that holds a lock; which threads run is up to the operating system.
- WorkStealingFairness.StepsBounded: a look at an empty queue is no step of the model, so the loop of `suspend` over empty queues (compiler/v3/stacklet.c:242-265) is not counted; it is not bounded.
- WorkStealingFairness.LooksLess: the same, only looks that find a front count.
- UliLocksProgress.CanRestIffNoneOvertaken: says that a way on exists, not that every fair run takes it, as CPUs may keep asking; nested calls can deadlock, and progress is not stated for them.
- RwLock.RwLockObject.Enter: thread identities are abstract and survive being stored in the writer field.
- RingBuffer.SharedBuffer.Run: no progress is stated, as a ticket or the spin lock of `RwLock` may be taken by others each time a thread tries.
- UliLocksMachine.Machine.Advance: a null lock and a failing `malloc` of the message are left out, as is interrupt delivery by hardware (`SIM_ULI`).
- RingBuffer.SharedBuffer.WaitRead: idle counting and the exit signal around it (runtime-example/sbuffree.c:88-111) are left out; only the wait for an item is modelled.
- RingBuffer.SharedBuffer.CheckFull: its two reads are one step, as is the read in `CheckEmpty`, because the ticket fixes one of the counters.
- Memory ordering: every shared access is one atomic step and all threads see the same order; `__sync_synchronize` is a no-op.
- RingBuffer.SharedBuffer.BeginInsert: the unlocked early test for a full buffer (runtime-example/sbuffree.c:50) is modelled as a call that does not start, so returning 0 there is not claimed to mean full.
- RingBuffer.SharedBuffer.StoreInserted: counters are unbounded integers, so wrap-around after 2^31 insertions is not modelled.
- Barrier.BarrierObject.Run: the barrier is used by exactly the number of threads it was initialised with.
- LinkedQueues: freeing of a removed node is not modelled; nothing in a queue refers to it any more.
- StackletLayout: the fields of the stub are not modelled, only its size and place.
- `compiler/uli`, `runtime-example/mythreads.c`, condition variables, `pthread_once`, thread creation, the vendored simulator and the benchmarks.
