# Verified models of the OS/161 kernel

This project models parts of the OS/161 kernel and of the support code it shares with user
programs, and proves what they promise. It has four groups.

**Multi-word arithmetic** (`Words`, `Digits`, `Shifts`, `AlgorithmD`, `Qdivrem`, `Muldi3`,
`TwosComplement`, `Divdi3`). 64-bit division is Knuth's Algorithm D, 64-bit multiplication is the
three-product split, and signed division adds signs to it. The half-word width is a parameter
everywhere, so the results hold for every width of int. Words wrap where the C code wraps them.

**Threads** (`ThreadSystem`, `ThreadSafety`, `ThreadSteps`, `ThreadForks`, `ThreadFrames`,
`ThreadRuns`, `ThreadOrder`, `ThreadWakeups`, `ThreadLives`, `ThreadMigration`, `ThreadProgress`,
`Migration`, `Semaphore`, `SemaphoreCalls`, `SleepLock`, `SleepLockCalls`, `Spl`, `ThreadList`).
The thread system is a state machine over any number of CPUs, threads and wait channels. Run queue
locks and channel locks are part of the state, and a step is one access to shared state, so a run
is any interleaving the locks allow. `ThreadSafety.Inv` is the invariant, `ThreadSteps` proves it
for each step and `ThreadRuns` draws the conclusions for all runs. The modules after it say what an
operation does between its call and its return while all other CPUs are running: in which order
threads run, whom a wakeup wakes, where a forked thread goes, what a migration moves, and that
nothing deadlocks. Semaphores, sleep locks and condition variables are state machines of the same
kind, with the same two parts. `Migration` runs thread_consider_migration without interference,
loop by loop. `Spl` and `ThreadList` are classes.

**Allocators and paging** (`KHeapModel`, `KHeapSteps`, `KHeapPages`, `KHeap`, `KHeapRuns`,
`Coremap`, `PageTable`, `Swap`). The kernel heap is a class whose methods are the regions that run
under kmalloc_spinlock, so the invariant holds wherever the code drops that lock. In `KHeapRuns` any
number of threads run these regions in any order from the heap at boot: a step is only what a
region writes, validity is proved, and its Run methods show that the methods of the class take
these steps. Pagerefs, links and free-list words are addresses in maps, as they are in memory. alloc_kpages and free_kpages are
interfaces: fresh, page-aligned pages. Beside the words that the code keeps, the heap carries what
they stand for: the lists, the free list of each page, the live blocks, and the owner of each page.

**Text and copying** (`Numbers`, `Atoi`, `Printf`, `PrintfText`, `Memory`, `Uio`). What printf
prints for a number is read back, by atoi or in the base of the directive, and uiomove works over
any vector of buffers on a flat memory. `Common` holds what
several modules share.

## Where the code does not keep its promise

Six promises hold only under a condition. Each has a lemma or a contract that says exactly when.

- lock_create does not initialise owner. If the leftover value is a thread, lock_do_i_hold is wrong
  for that thread: `SleepLock.DoIHoldExact`. If that thread then calls lock_release without having
  acquired the lock, two threads can hold it: `SleepLock.BothHold`, `SleepLock.ExclusionExact`. As
  long as only threads that acquired the lock release it, it excludes whatever was left in owner:
  `SleepLock.MutualExclusion`.
- kmalloc rounds up in 32 bits. For the last 4095 sizes it asks for no pages:
  `KHeap.NPagesEnough`.
- freepageref asserts that a root without a page has no bits set. allocpageref leaves its bit set
  when it cannot get a page, so a root can fill up with bits and never have a page. Pagerefs then
  come from a later root, and freeing the last block of such a page fails the assertion. It takes
  one thread, and the root stays as it is: `KHeap.FreeFails`, `KHeap.KHeap.Kfree`.
- pt_search adds the page size to the entry's address in 32 bits. An entry for the last page of the
  address space is never found: `PageTable.CoversPage`, `PageTable.Table.Search`.
- A field with both '-' and '0' pads on the right with zeros, which changes the number:
  `Printf.PrintThenRead`.
- uiomove looks at resid only between two buffers. If resid ends inside a buffer and more is asked
  for, it moves more than resid and resid wraps: `Uio.UiomoveExact`, `Uio.WrapsAt`. load_segment
  in kern/syscall/loadelf.c passes a uio whose resid ends inside its only buffer.

Two comments in the code are off. NUMBER_BUF_SIZE has no room for slop: 22 octal digits and the NUL
fill it. If firstFreeFrame is the number of frames, coremap_victim_selection fails its assertion
and not its panic; `Coremap.Coremap.SelectVictim` returns nothing in both cases.

## Model

| member | source | states |
|---|---|---|
| `Words.HHalf` | common/gcc-millicode/longlong.h:110 | the high half-word, as the quotient by the digit base, for any half-word width |
| `Words.LHalf` | common/gcc-millicode/longlong.h:111 | the mask is the remainder modulo the digit base |
| `Words.LHUp` | common/gcc-millicode/longlong.h:112 | the left shift keeps the low half-word and moves it up, modulo the word size |
| `Words.Combine` | common/gcc-millicode/qdivrem.c:48 | shift and or of two digits is a*B + b, without loss |
| `Qdivrem.SplitDigits` | common/gcc-millicode/qdivrem.c:112-122 | the four digits of a long long evaluate back to it |
| `Qdivrem.ShortDivide` | common/gcc-millicode/qdivrem.c:125-148 | one-digit divisor: quotient and remainder satisfy u = q*t + r, 0 <= r < t |
| `Qdivrem.NormaliseCount` | common/gcc-millicode/qdivrem.c:169-171 | D1 stops with the shifted leading digit at least B/2 and below B |
| `Qdivrem.Normalise` | common/gcc-millicode/qdivrem.c:169-175 | both operands are multiplied by the same power of two and no digit overflows |
| `Shifts.ShiftLeft` | common/gcc-millicode/qdivrem.c:271-279 | shl multiplies the value of the digits by 2^sh when nothing falls out on the left |
| `Shifts.ShiftRight` | common/gcc-millicode/qdivrem.c:247-254 | the unshift loop divides the value of the remainder digits by 2^d exactly |
| `AlgorithmD.TrialDigit` | common/gcc-millicode/qdivrem.c:193-210 | D3 ends after at most two decrements, counted from its first guess, with the largest digit that the leading three digits allow, with no product out of range |
| `AlgorithmD.TrialDigitBound` | common/gcc-millicode/qdivrem.c:186-192 | for a normalised divisor that trial digit is the true digit or one more |
| `AlgorithmD.SubtractDigit` | common/gcc-millicode/qdivrem.c:218-220 | one step of D4: digit and borrow account for u - v*qhat - t although t is an unsigned word that wraps |
| `AlgorithmD.MultiplySubtract` | common/gcc-millicode/qdivrem.c:217-223 | D4 subtracts qhat*v from the window, and the borrow out is exactly the sign of the result |
| `AlgorithmD.AddBack` | common/gcc-millicode/qdivrem.c:232-237 | D6 adds v to the window; the carry that is lost is the one that cancels the borrow |
| `AlgorithmD.BorrowMeans` | common/gcc-millicode/qdivrem.c:225-230 | there is a borrow if and only if qhat is one too large |
| `AlgorithmD.AddBackRestores` | common/gcc-millicode/qdivrem.c:225-238 | a single add-back makes the window the remainder of the true digit |
| `AlgorithmD.DivideStep` | common/gcc-millicode/qdivrem.c:183-239 | one pass of D3 to D6: the digit is the true quotient digit, the window becomes the remainder and stays below v, and the borrow occurs exactly when qhat was one more |
| `Qdivrem.DivideLoop` | common/gcc-millicode/qdivrem.c:182-240 | the D loop leaves u = q*v + r with r below v over all passes |
| `Qdivrem.SkipLeadingZeros` | common/gcc-millicode/qdivrem.c:157-161 | m counts the quotient digits and skipping loses no value |
| `Qdivrem.Denormalise` | common/gcc-millicode/qdivrem.c:242-258 | dividing the normalised remainder by the multiplier gives the remainder of the original operands |
| `Qdivrem.Remainder` | common/gcc-millicode/qdivrem.c:247-258 | the unshifted digits join to the remainder |
| `Qdivrem.LongDivide` | common/gcc-millicode/qdivrem.c:152-262 | the full Algorithm D path returns the quotient and the remainder |
| `Qdivrem.Qdivrem` | common/gcc-millicode/qdivrem.c:68-263 | for every dividend, every nonzero divisor and every half-word width: u = q*v + r and 0 <= r < v, on all three paths |
| `Muldi3.ThreeProducts` | common/gcc-millicode/muldi3.c:60-74 | the three-product identity with a signed middle term |
| `Muldi3.MiddleProduct` | common/gcc-millicode/muldi3.c:202-210 | the two differences multiply to the middle term with the right sign |
| `Muldi3.AddShifted` | common/gcc-millicode/muldi3.c:224-226 | adding mid << N with the carry test is exact modulo the double word |
| `Muldi3.SubtractShifted` | common/gcc-millicode/muldi3.c:220-222 | subtracting mid << N with the borrow test is exact modulo the double word |
| `Muldi3.Lmulq` | common/gcc-millicode/muldi3.c:184-241 | the two result words are exactly the double-width product of any two words |
| `Muldi3.HighProduct` | common/gcc-millicode/muldi3.c:140-156 | the high word of the product, all of it modulo the word size |
| `Muldi3.MulUnsigned` | common/gcc-millicode/muldi3.c:124-158 | the product of the magnitudes modulo 2^(4N), on both paths |
| `Muldi3.Muldi3` | common/gcc-millicode/muldi3.c:100-164 | a*b in two's complement for all a and b, including the minimum value |
| `TwosComplement.Magnitude` | common/gcc-millicode/divdi3.c:50-56 | magnitude and sign of a value; the minimum value keeps its bit pattern |
| `Divdi3.TruncatedUnique` | common/gcc-millicode/divdi3.c:40-45 | truncated division (section 6.5.5 of ISO/IEC 9899:1999) determines quotient and remainder |
| `Divdi3.QuotientFits` | common/gcc-millicode/divdi3.c:58-61 | the truncated quotient is representable except for the minimum value divided by -1 |
| `Divdi3.Divdi3` | common/gcc-millicode/divdi3.c:45-62 | the result is congruent to the truncated quotient, and equal to it if and only if not minimum / -1; from the contract of Qdivrem alone |
| `Divdi3.Moddi3` | common/gcc-millicode/moddi3.c:46-62 | the remainder has a's sign or is zero and is smaller in magnitude than b, for every b other than 0 |
| `ThreadSafety.InitInv` | kern/thread/thread.c:163-260 | the state that boot leaves satisfies the invariant |
| `ThreadSteps.SwitchLockInv` | kern/thread/thread.c:567-585 | entering thread_switch and locking the run queue keeps the invariant |
| `ThreadSteps.PlaceReadyInv` | kern/thread/thread.c:598-600 | yielding onto the own run queue keeps the invariant |
| `ThreadSteps.PlaceSleepInv` | kern/thread/thread.c:601-613 | queueing on the channel and releasing lk before S_SLEEP is written keeps the invariant |
| `ThreadSteps.PlaceZombieInv` | kern/thread/thread.c:614-617 | queueing as a zombie keeps the invariant |
| `ThreadSteps.WriteStateInv` | kern/thread/thread.c:619-639 | writing the new state, possibly after a wakeup has begun, keeps the invariant |
| `ThreadSteps.PickInv` | kern/thread/thread.c:640-648 | taking the next thread keeps the invariant |
| `ThreadSteps.GoIdleInv` | kern/thread/thread.c:642-646 | unlocking the empty run queue to idle keeps the invariant |
| `ThreadSteps.SwitchFrameInv` | kern/thread/thread.c:657-661 | moving to the stack of the next thread keeps the invariant |
| `ThreadSteps.FinishInv` | kern/thread/thread.c:710-715 | S_RUN and release of the run queue, also in thread_startup, keep the invariant |
| `ThreadSteps.ExorciseInv` | kern/thread/thread.c:295-304 | destroying a zombie keeps the invariant |
| `ThreadSteps.ExorciseSafe` | kern/thread/thread.c:295-304 | the thread that exorcise destroys is S_ZOMBIE and not current on any CPU: both assertions hold |
| `ThreadSteps.WakeGrabInv` | kern/thread/thread.c:1019-1045 | taking a thread off a channel keeps the invariant |
| `ThreadSteps.ForkInv` | kern/thread/thread.c:492-530 | creating a thread with its parent's t_cpu keeps the invariant |
| `ThreadSteps.ForkPutInv` | kern/thread/thread.c:541-544 | beginning to make it runnable, also after the parent has been switched out and migrated, keeps the invariant |
| `ThreadSteps.TargetSettled` | kern/thread/thread.c:449-479 | a wakeup that has the run queue lock finds no thread of that CPU half way to sleep |
| `ThreadSteps.PutEnqueueInv` | kern/thread/thread.c:463-478 | S_READY, addtail and the unidle interrupt keep the invariant |
| `ThreadSteps.TakeOneInv` | kern/thread/thread.c:873-880 | taking victims from the tail keeps the invariant |
| `ThreadSteps.MigrateInv` | kern/thread/thread.c:917-931 | giving a victim to another CPU keeps the invariant |
| `ThreadSteps.KeepCurrentInv` | kern/thread/thread.c:911-915 | putting curthread back behind the victims keeps the invariant |
| `ThreadSteps.BackOneInv` | kern/thread/thread.c:937-946 | returning leftovers to the own queue keeps the invariant |
| `ThreadRuns.StepInv` | kern/thread/thread.c:447-1075 | every step of switch, sleep, wakeup, fork, idle and migration on any CPU keeps the invariant |
| `ThreadRuns.RunInv` | kern/thread/thread.c:447-1075 | the invariant holds in every state of every interleaving on any number of CPUs |
| `ThreadRuns.OneList` | kern/thread/thread.c:447-1075 | in every run each thread is on at most one list, at most once |
| `ThreadRuns.NoSharedStack` | kern/thread/thread.c:557-725 | in every run no thread is current on two CPUs |
| `ThreadRuns.NoneLost` | kern/thread/thread.c:557-725 | in every run a thread on no list is the current thread of its own CPU |
| `ThreadRuns.QueuedReady` | kern/thread/thread.c:447-479 | in every run a thread on a run queue is S_READY with t_cpu that CPU, also after a wakeup that raced its sleep |
| `ThreadRuns.WakeupWaits` | kern/thread/thread.c:601-619 | while a sleeper has yet to write S_SLEEP, no wakeup holds its run queue lock or is about to enqueue it |
| `ThreadRuns.ZombiesOnly` | kern/thread/thread.c:295-304 | in every run exorcise destroys only zombies that no CPU is on |
| `ThreadRuns.NoStuckIdle` | kern/thread/thread.c:466-473 | in every run a CPU idling with a thread on its queue has an interrupt coming |
| `ThreadRuns.LocksExclude` | kern/thread/thread.c:447-1075 | no two CPUs hold the same run queue lock or channel lock |
| `ThreadRuns.NeverNull` | kern/thread/thread.c:876-879 | remtail in the victim loop never finds an empty queue, under any interference |
| `ThreadRuns.VictimsLeft` | kern/thread/thread.c:887-889 | remhead in the sending loop never finds an empty victim list |
| `ThreadRuns.MigrationConserves` | kern/thread/thread.c:847-950 | a migration step makes, loses or wakes no thread; a thread that changes CPU goes to the queue of its new t_cpu and is current nowhere |
| `ThreadRuns.NeverAboveShare` | kern/thread/thread.c:887-933 | for as long as a CPU sends threads to another, over any steps of all other CPUs, the receiver's queue never grows above one share |
| `ThreadRuns.ForkGoesOn` | kern/thread/thread.c:513-544 | in every run a thread being forked has a parent that is alive, not exiting, and can make it runnable as soon as it runs; no CPU is on the new thread |
| `ThreadForks.StepBirths` | kern/thread/thread.c:492-548 | every step keeps the parent of a thread being forked alive, with one fork at a time |
| `ThreadForks.QueueGuarded` | kern/thread/thread.c:447-1075 | a step that changes a run queue is taken by a CPU that holds its lock |
| `ThreadForks.LockProtects` | kern/thread/thread.c:447-1075 | while a CPU holds a run queue lock no step of another CPU changes that queue |
| `ThreadFrames.OthersLeave` | kern/thread/thread.c:447-1075 | no step of another CPU changes where a CPU is, what it is doing, or the lists in its hands |
| `ThreadFrames.QueueOrder` | kern/thread/thread.c:449-946 | run queues are first in, first out: a thread joins behind all that are there, only the CPU itself takes one from the front, to run it, or from the back, to give it away |
| `ThreadFrames.ChannelOrder` | kern/thread/thread.c:601-613 | wait channels are first in, first out, and change only under their lock |
| `ThreadFrames.ChannelProtected` | kern/thread/thread.c:1019-1075 | while a CPU holds the lock of a channel no step of another CPU changes that channel |
| `ThreadFrames.OtherThread` | kern/thread/thread.c:447-1075 | a step changes the record of one thread at most |
| `ThreadOrder.TurnComes` | kern/thread/thread.c:640-648 | in every run a thread on a run queue moves up by exactly one place each time its CPU takes a thread, and no thread gets in front of it |
| `ThreadOrder.FirstInFirstOut` | kern/thread/thread.c:640-648 | in every run, of two threads on the same run queue the one in front stays in front |
| `ThreadOrder.YieldGivesUp` | kern/thread/thread.c:807-813 | from the call of a yield to its context switch, with all other CPUs running: the thread in front of the queue becomes current and the yielding thread is the last of the queue |
| `ThreadOrder.YieldAlone` | kern/thread/thread.c:585-592 | a yield with an empty run queue returns to the same thread at once |
| `ThreadOrder.SleepJoins` | kern/thread/thread.c:1000-1013 | a thread that goes to sleep ends up behind all threads on its channel; the lock of the channel is held until then and free afterwards |
| `ThreadWakeups.WakesExactly` | kern/thread/thread.c:1019-1075 | from the call of wchan_wakeone or wchan_wakeall to its return, with all other CPUs running: exactly the first thread, or every thread in channel order, is put on the run queue of its t_cpu, and the others stay on the channel |
| `ThreadLives.ForkLands` | kern/thread/thread.c:492-548 | a forked thread belongs to the CPU on which its parent forked it, and the first run queue that it gets on is that one, behind all others, wherever the parent is by then |
| `ThreadLives.RunsOnAndOn` | kern/thread/thread.c:710-725 | from its return from thread_switch until it is put on a list again a thread stays current and S_RUN |
| `ThreadLives.ZombieStays` | kern/thread/thread.c:614-617 | a zombie stays one until exorcise destroys it |
| `ThreadLives.ExitIsFinal` | kern/thread/thread.c:776-801 | once the CPU has switched away from a thread that exits, the thread is on no run queue and no CPU is ever on it again |
| `ThreadLives.AllReaped` | kern/thread/thread.c:295-304 | in every run a CPU has at most one zombie, and none whenever it is out of thread_switch |
| `ThreadProgress.NoDeadlock` | kern/thread/thread.c:447-1075 | in every state of every run each CPU can take its next step, or waits for a run queue lock whose holder can |
| `ThreadProgress.LockIsReleased` | kern/thread/thread.c:447-1075 | a run queue lock is released after a bounded number of steps of its holder, whatever all other CPUs do |
| `ThreadProgress.CanCall` | kern/thread/thread.c:447-1075 | a CPU outside thread_switch can begin every operation as soon as the lock that it takes is free |
| `ThreadMigration.Decides` | kern/thread/thread.c:856-873 | one share is the average of the queue lengths as they were seen, rounded up; with less the CPU is done |
| `ThreadMigration.MigratesExcess` | kern/thread/thread.c:848-934 | with all other CPUs running: the victims are the end of the own queue, as many as it was seen above one share; each turn gives one to a CPU below one share or puts curthread behind the others; it stops after as many turns, or once every other CPU has been seen at one share |
| `ThreadMigration.PutsBack` | kern/thread/thread.c:937-946 | leftover victims go to the end of the own queue in order and none is left |
| `Migration.RoomEnough` | kern/thread/thread.c:866-871 | the other CPUs have room for everything above one share |
| `Migration.CountThreads` | kern/thread/thread.c:855-864 | the counting loop |
| `Migration.TakeVictims` | kern/thread/thread.c:873-880 | the victims are the tail of the own queue, in order |
| `Migration.SendTo` | kern/thread/thread.c:887-933 | the inner loop fills one CPU and keeps the account of victims and room |
| `Migration.PutBack` | kern/thread/thread.c:941-946 | leftovers go to the end of the own queue |
| `Migration.ConsiderMigration` | kern/thread/thread.c:848-950 | without interference: threads conserved as a multiset, own queue left at exactly one share plus curthread if it was a victim, receivers keep what they had and end at one share at most, t_cpu set for those sent and unchanged for all others, curthread never sent |
| `Semaphore.StepInv` | kern/thread/synch.c:91-138 | every step of P and V keeps the invariant |
| `Semaphore.RunInv` | kern/thread/synch.c:91-138 | the invariant holds in every state of every interleaving |
| `Semaphore.CountBalances` | kern/thread/synch.c:91-138 | sem_count = initial + increments - decrements in every state of every run |
| `Semaphore.NoLostWakeup` | kern/thread/synch.c:110-137 | while a thread sleeps the count is at most the threads woken but not rechecked, plus one during a V; with the lock free and a positive count somebody is on the way |
| `Semaphore.VPanics` | kern/thread/synch.c:133-134 | the assertion in V fails exactly when the count is at the top of its range |
| `SemaphoreCalls.CallReturns` | kern/thread/synch.c:92-139 | from the call of P or V to its return, in every run: P decrements once, after any number of sleeps; V increments once and then wakes |
| `SemaphoreCalls.CountSteps` | kern/thread/synch.c:92-139 | the count changes by these two accesses only, by one, and never below zero |
| `SemaphoreCalls.WokenInOrder` | kern/thread/synch.c:110-137 | a thread that sleeps in P is behind all others, and V wakes exactly the one in front |
| `SemaphoreCalls.NoDeadlock` | kern/thread/synch.c:92-139 | a thread that is not asleep can go on, or the holder of the spinlock can, unless V fails its assertion |
| `SleepLock.StepInv` | kern/thread/synch.c:196-321 | every access of lock and condition variable operations keeps the invariant |
| `SleepLock.RunInv` | kern/thread/synch.c:196-321 | the invariant holds in every state of every run in which only threads that acquired the lock release it, whatever was left in owner |
| `SleepLock.MutualExclusion` | kern/thread/synch.c:196-233 | in every such run at most one thread is between the return of lock_acquire and lock_release, whatever was left in owner |
| `SleepLock.OwnerStep` | kern/thread/synch.c:196-238 | if owner is right it stays right, and then the assertion stops a lock_release by a thread that has not acquired |
| `SleepLock.GoodIsPolite` | kern/thread/synch.c:144-233 | if the leftover owner is not a thread, every run is such a run |
| `SleepLock.DoIHoldExact` | kern/thread/synch.c:144-179 | lock_do_i_hold is exact in all states of all runs if and only if the value lock_create leaves in owner is not a thread |
| `SleepLock.BothHold` | kern/thread/synch.c:144-233 | a run in which the leftover owner calls lock_release without having acquired, and two threads hold the lock |
| `SleepLock.ExclusionExact` | kern/thread/synch.c:144-233 | the lock excludes in all reachable states if and only if the leftover owner is not a thread or there is one thread |
| `SleepLock.SignalFindsWaiters` | kern/thread/synch.c:285-309 | a thread about to signal finds every thread that gave up the lock in cv_wait on the channel or already woken |
| `SleepLock.SignalWakes` | kern/thread/synch.c:298-321 | signal wakes exactly the first waiter, broadcast exactly all |
| `SleepLock.LockWakeupNotLost` | kern/thread/synch.c:205-230 | if a thread sleeps while the lock is available, another will test it or is about to wake one |
| `SleepLockCalls.CallReturns` | kern/thread/synch.c:197-321 | from the call of an operation to its return, in every run in which only acquirers release: its accesses in order; lock_acquire and cv_wait return as the holder with lock_do_i_hold true, lock_release without the lock, signals with it |
| `SleepLockCalls.CallWakes` | kern/thread/synch.c:299-321 | from the call: cv_broadcast wakes every thread on the channel, cv_signal exactly the first, and no other thread is touched |
| `SleepLockCalls.ChannelOrder` | kern/thread/synch.c:205-230 | both channels are first in, first out, and lock_release wakes the thread that has slept longest |
| `SleepLockCalls.NoDeadlock` | kern/thread/synch.c:197-321 | if the leftover owner is not a thread, a thread that is not asleep can go on, or waits for a spinlock whose holder can go on or waits for lk_lock, whose holder can |
| `Spl.Cpu.SplRaise` | kern/thread/spl.c:87-104 | interrupts are off afterwards and the count is one more |
| `Spl.Cpu.SplLower` | kern/thread/spl.c:107-122 | the count is one less and interrupts are on exactly if it is zero |
| `Spl.Cpu.Splx` | kern/thread/spl.c:132-160 | sets the level, returns the old one and keeps the account |
| `Spl.Cpu.Acquire` | kern/thread/spinlock.c:75-115 | keeps the account with one more lock; the panic happens exactly for a lock already held |
| `Spl.Cpu.Release` | kern/thread/spinlock.c:121-134 | keeps the account with one lock less; fails exactly for a lock not held |
| `Spl.Cpu.DoIHold` | kern/thread/spinlock.c:140-148 | true exactly for the locks held |
| `Spl.Cpu.Fork` | kern/thread/thread.c:531-536 | a new thread carries a count of 2 |
| `Spl.Cpu.SwitchNothing` | kern/thread/thread.c:567-592 | a thread_switch that returns at once leaves level, count and interrupts as they were |
| `Spl.Cpu.SwitchStart` | kern/thread/thread.c:567-613 | the thread about to go carries 2: the level and the run queue lock; the lock it slept with is free |
| `Spl.Cpu.IdleUnlock` | kern/thread/thread.c:640-645 | unlocking the run queue to idle leaves a count of 1 and interrupts off |
| `Spl.Cpu.IdleLock` | kern/thread/thread.c:645-648 | locking it again brings the count back to 2 |
| `Spl.Cpu.SwitchTo` | kern/thread/thread.c:657-661 | the thread that goes and the one that comes both carry 2, whether it ran here, was forked or migrated here, or is the current thread itself |
| `Spl.Cpu.Switch` | kern/thread/thread.c:557-725 | a whole thread_switch with any number of idle rounds: the account is right for the next thread, back at its own level |
| `Spl.Migrate` | kern/thread/thread.c:917-931 | a thread given to another CPU still carries 2, and every CPU keeps its account |
| `Spl.SwitchOne` | kern/thread/thread.c:557-725 | a thread_switch on one CPU leaves every CPU with its account right |
| `Spl.MigrateAndRun` | kern/thread/thread.c:657-725 | a migrated thread is switched in on its new CPU with the account right |
| `Spl.Apart` | kern/thread/thread.c:557-725 | no thread is on two CPUs and no lock is held by two |
| `Spl.Cpu.SwitchIn` | kern/thread/thread.c:714-724 | after releasing the run queue the thread is back at its own level with the account right |
| `Spl.Perform` | kern/thread/spl.c:60-160 | any sequence of splx, acquire and release, nested or not, does what its meaning says and ends with interrupts off exactly if a lock is held or the level is high |
| `ThreadList.InsertAfterNode` | kern/thread/threadlist.c:107-120 | both directions of links stay consistent with the node inserted after |
| `ThreadList.InsertBeforeNode` | kern/thread/threadlist.c:127-140 | both directions of links stay consistent with the node inserted before |
| `ThreadList.RemoveNode` | kern/thread/threadlist.c:147-157 | both directions of links stay consistent and the removed node has null links |
| `ThreadList.ThreadList.constructor` | kern/thread/threadlist.c:61-72 | an empty list with linked sentinels |
| `ThreadList.ThreadList.IsEmpty` | kern/thread/threadlist.c:92-97 | exactly for the empty sequence |
| `ThreadList.ThreadList.AddHead` | kern/thread/threadlist.c:163-170 | prepends to the sequence |
| `ThreadList.ThreadList.AddTail` | kern/thread/threadlist.c:173-180 | appends to the sequence |
| `ThreadList.ThreadList.RemHead` | kern/thread/threadlist.c:183-198 | null exactly for the empty list, else the first node, loose |
| `ThreadList.ThreadList.RemTail` | kern/thread/threadlist.c:201-216 | null exactly for the empty list, else the last node, loose |
| `ThreadList.ThreadList.InsertAfter` | kern/thread/threadlist.c:219-224 | inserts behind a given node |
| `ThreadList.ThreadList.InsertBefore` | kern/thread/threadlist.c:227-232 | inserts in front of a given node |
| `ThreadList.ThreadList.Remove` | kern/thread/threadlist.c:235-240 | removes a node from the middle and leaves it loose |
| `ThreadList.MoveHead` | kern/thread/threadlist.c:163-198 | a removed node can go on another list and neither list disturbs the other |
| `KHeapModel.LiveDisjoint` | kern/vm/kmalloc.c:1159-1220 | live blocks never overlap, subpage or whole-page |
| `KHeapModel.FreeCount` | kern/vm/kmalloc.c:1136-1137 | a free list is never longer than the page has blocks, and one as long is the whole page |
| `KHeapSteps.PagesApart` | kern/vm/kmalloc.c:989-1014 | two listed pagerefs never have the same page |
| `KHeapSteps.TakeInv` | kern/vm/kmalloc.c:922-942 | taking the first free block keeps lists, free lists, partition and ownership |
| `KHeapSteps.PutInv` | kern/vm/kmalloc.c:1105-1136 | putting a block back keeps them, and nfree stays within the page |
| `KHeapSteps.FullListOk` | kern/vm/kmalloc.c:998-1008 | the fresh free list: every block once, from the last down |
| `KHeapSteps.AddInv` | kern/vm/kmalloc.c:989-1014 | putting a fresh page on both lists keeps the invariant |
| `KHeapPages.NoneLive` | kern/vm/kmalloc.c:1137-1143 | no live block is left on a page whose blocks are all free |
| `KHeapPages.UnlistInv` | kern/vm/kmalloc.c:1137-1140 | taking a wholly free page off both lists keeps the invariant |
| `KHeapPages.FlipBitOk` | kern/vm/kmalloc.c:281-282 | numinuse stays the number of set bits |
| `KHeapPages.ReserveInv` | kern/vm/kmalloc.c:280-286 | marking a bit keeps the invariant, also while the lock is dropped for a pageref page |
| `KHeapPages.UnreserveInv` | kern/vm/kmalloc.c:323-332 | clearing it keeps the invariant; the bit is set and numinuse is positive, as the assertions demand |
| `KHeapPages.InstallInv` | kern/vm/kmalloc.c:237-249 | giving a root its page keeps the invariant |
| `KHeapPages.BigAddInv` | kern/vm/kmalloc.c:1183-1195 | a block of whole pages keeps the invariant |
| `KHeapPages.BigRemoveInv` | kern/vm/kmalloc.c:1216-1218 | freeing whole pages keeps it |
| `KHeapPages.WriteInv` | kern/vm/kmalloc.c:142-144 | a write by the owner of a live block touches no free list |
| `KHeapSteps.PageAccount` | kern/vm/kmalloc.c:988-1008 | on every listed page nfree and the live blocks add up to the blocks of the page, and no block is both |
| `KHeapPages.ValidMeans` | kern/vm/kmalloc.c:256-1147 | whenever the lock is free: allbase is the union of the size lists, each pageref in the list of its own type only, pages distinct, none wholly free, numinuse the number of set bits, every listed pageref's bit set |
| `KHeap.BlockType` | kern/vm/kmalloc.c:853-866 | the smallest block size that holds the request; it panics exactly above the largest size |
| `KHeap.NPagesEnough` | kern/vm/kmalloc.c:1186-1187 | the 32-bit round-up gives enough pages if and only if the size is at most 2^32 - 4096, and no page at all above that |
| `KHeap.PopHead` | kern/vm/kmalloc.c:924-942 | following freelist_offset and the link in the block; all three assertions hold |
| `KHeap.ThreadFreeList` | kern/vm/kmalloc.c:998-1006 | the loop links every block of the page to the one before and touches nothing else |
| `KHeap.FindClear` | kern/vm/kmalloc.c:268-294 | finds the first clear bit of a root that is not full; the assertion after the inner loop is not reached |
| `KHeap.UnlinkSame` | kern/vm/kmalloc.c:830-836 | the list of one size loses exactly that pageref |
| `KHeap.UnlinkAll` | kern/vm/kmalloc.c:838-844 | the list of all pagerefs loses exactly that pageref |
| `KHeap.PushHead` | kern/vm/kmalloc.c:1105-1134 | overwrites the block and links it to the old head; it is not the head already |
| `KHeap.FindRoom` | kern/vm/kmalloc.c:914-920 | finds the first pageref of the list with a free block; without one, every page of the list is full |
| `KHeap.FindPage` | kern/vm/kmalloc.c:1070-1087 | finds the pageref whose page holds the pointer, or there is none |
| `KHeap.FillDeadbeef` | kern/vm/kmalloc.c:45-53 | every word of the block and nothing outside it |
| `KHeap.EmptyValid` | kern/vm/kmalloc.c:213 | no block is live, no page owned, and the invariant holds |
| `KHeap.UnlinkPageOk` | kern/vm/kmalloc.c:824-845 | the links that remove_lists writes take a wholly free page off both lists and keep the invariant |
| `KHeap.SetsUpDone` | kern/vm/kmalloc.c:989-1017 | the writes that set up a page keep the heap valid and hand out one block of its size |
| `KHeap.KHeap.constructor` | kern/vm/kmalloc.c:213 | a new heap is the heap at boot |
| `KHeap.KHeap.DoAlloc` | kern/vm/kmalloc.c:922-953 | the first free block becomes live and nothing else changes |
| `KHeap.KHeap.TryAlloc` | kern/vm/kmalloc.c:914-955 | a block from the first page of that size with room, or all pages of that size are full |
| `KHeap.KHeap.ReservePageref` | kern/vm/kmalloc.c:258-299 | marks the first clear bit of the first root with room, or every root is full |
| `KHeap.KHeap.InstallRootPage` | kern/vm/kmalloc.c:230-249 | the root gets the page unless somebody else gave it one meanwhile |
| `KHeap.KHeap.SetUpPage` | kern/vm/kmalloc.c:989-1017 | the page is listed with one block live, so it is never wholly free |
| `KHeap.KHeap.RemoveLists` | kern/vm/kmalloc.c:824-845 | both lists without the pageref, all links consistent |
| `KHeap.KHeap.FreePageref` | kern/vm/kmalloc.c:305-337 | clears the bit; the assertion fails exactly when an earlier root has bits set but no page |
| `KHeap.KHeap.PushBlock` | kern/vm/kmalloc.c:1105-1134 | the block is free again and nothing else changes |
| `KHeap.KHeap.SubpageKfree` | kern/vm/kmalloc.c:1026-1155 | frees exactly a live block and gives back a wholly free page; -1 exactly off the heap pages; panics on a misplaced pointer and on the block freed last, and on a live block exactly if it is the last of its page and an earlier root than its pageref's has bits but no page; slots and pages in other threads' hands are left alone |
| `KHeap.KHeap.GetRootPage` | kern/vm/kmalloc.c:220-250 | the root has the page that alloc_kpages gave, or none |
| `KHeap.KHeap.AllocPageref` | kern/vm/kmalloc.c:258-299 | one more bit in the first root with room, and a pageref exactly if that root has a page then |
| `KHeap.DoubleFreeBreaks` | kern/vm/kmalloc.c:1105-1134 | freeing a free block that is not the first of its list leaves links in a circle: no list of blocks is what they stand for |
| `KHeap.KHeap.AllocFresh` | kern/vm/kmalloc.c:956-1017 | a fresh page and a fresh pageref give one block alone on its page, exactly if a page can be had and the first root that is not full has a page or gets one; which root pays, with or without success |
| `KHeap.KHeap.Kmalloc` | kern/vm/kmalloc.c:1166-1202 | from 2048 bytes on the answer is that of alloc_kpages, with as many pages as the round-up gives; below, a block of the smallest size that holds the request, exactly if a page of that size has room, which then gives the block, or a fresh page and a pageref can be had; nothing is allocated otherwise; the invariant is kept, and a root lost for want of a page stays lost |
| `KHeap.KHeap.Kfree` | kern/vm/kmalloc.c:1208-1220 | a live block, and only that, ceases to be live; it panics if and only if the block is the last of its page and an earlier root than its pageref's has bits set but no page |
| `KHeap.FreeFails` | kern/vm/kmalloc.c:258-337 | from the empty heap: 256 requests that find no page for pagerefs, one that does, and its kfree panics |
| `KHeapRuns.RegionKeeps` | kern/vm/kmalloc.c:910-1155 | a step is only what a region does to the heap; from a valid heap and what the thread holds, the heap is valid afterwards and every slot and page that other threads hold is untouched |
| `KHeapRuns.AnyRun` | kern/vm/kmalloc.c:910-1155 | in every interleaving of any number of threads, from the heap at boot, the heap is valid whenever the lock is free, every thread still has what it left with, and no two share a slot or a page |
| `KHeapRuns.AlwaysCanGoOn` | kern/vm/kmalloc.c:230-299 | in every interleaving a thread that comes back under the lock finds its page and slot its own, a root that had a page still has it, and each of the three places that set up a page meets what that requires |
| `KHeapRuns.BlocksApart` | kern/vm/kmalloc.c:910-1155 | in every interleaving from boot live blocks never overlap |
| `KHeapRuns.FreesDone` | kern/vm/kmalloc.c:1026-1155 | the steps of subpage_kfree on a live block keep the heap valid and free exactly that block; a page is given back exactly if it was the last |
| `KHeapRuns.RegionAccount` | kern/vm/kmalloc.c:910-1220 | a region changes the live blocks only by the block it hands out, new and at least as large as requested, or by the block it frees |
| `KHeapRuns.HandsOut` | kern/vm/kmalloc.c:1166-1202 | in every interleaving a request that is answered gets a new block at least as large as requested, and no step changes the live blocks otherwise |
| `KHeapRuns.FailsExactly` | kern/vm/kmalloc.c:220-299 | in every interleaving subpage_kmalloc gives its page back exactly if every root is full, or if alloc_kpages gave no page for pagerefs and nobody else gave the root one meanwhile |
| `KHeapRuns.BlockStays` | kern/vm/kmalloc.c:1166-1220 | in every interleaving a block stays live with its size until it is freed |
| `KHeapRuns.RunTry` | kern/vm/kmalloc.c:914-955 | the method is the step, on any valid heap |
| `KHeapRuns.RunMark` | kern/vm/kmalloc.c:256-299 | the method is the step: marking a bit and, if the root has a page, setting up the page in the same region |
| `KHeapRuns.RunFill` | kern/vm/kmalloc.c:237-250 | the method is the step: giving the root its page or finding one there, and setting up the page unless there is a surplus page or none |
| `KHeapRuns.RunFinish` | kern/vm/kmalloc.c:982-1017 | the method is the step, after the surplus page has gone back |
| `KHeapRuns.RunFree` | kern/vm/kmalloc.c:1026-1155 | the method is the step unless it panics, and it panics exactly on a stuck block |
| `KHeapRuns.RunTake` | kern/vm/kmalloc.c:966-978 | alloc_kpages gives a fresh page to the thread that asked, and that is the step |
| `KHeapRuns.RunGive` | kern/vm/kmalloc.c:241-246 | free_kpages takes back a page the thread holds, and that is the step |
| `KHeapRuns.RunOther` | kern/vm/kmalloc.c:1183-1218 | the whole-page paths and writes by owners are the steps |
| `KHeap.KHeap.UserWrite` | kern/vm/kmalloc.c:142-144 | an aligned word written in a live block is wholly inside it and keeps the heap invariant |
| `Coremap.Coremap.Init` | kern/vm/coremap.c:10-71 | frames of the kernel and of the coremap are FIXED, all others CLEAN; panics exactly when they do not fit |
| `Coremap.EvictableSorted` | kern/vm/coremap.c:88-95 | the evictable frames are listed once each, in order |
| `Coremap.RoundTurns` | kern/vm/coremap.c:73-112 | the round from behind a victim is the same round turned by one |
| `Coremap.Coremap.Scan` | kern/vm/coremap.c:91-98 | the for loop for one victim |
| `Coremap.Coremap.SelectVictim` | kern/vm/coremap.c:73-112 | the first frame that is not FIXED, cyclically from the remembered position; fails exactly when all frames from firstFreeFrame up are FIXED |
| `Coremap.Coremap.SelectAll` | kern/vm/coremap.c:73-112 | over unchanged statuses, k calls visit the k evictable frames once each, in round order |
| `PageTable.LookupIsMap` | kern/vm/pt.c:16-28 | looking up the newest entry is looking up in a map |
| `PageTable.CoversPage` | kern/vm/pt.c:22 | the comparison recognises exactly the addresses of the entry's page, except on the last page of the address space |
| `PageTable.Table.constructor` | kern/vm/pt.c:5-14 | an empty circular list |
| `PageTable.Table.Search` | kern/vm/pt.c:18-28 | the entry that the map has for the page, and nothing exactly when it has none or the page is the last one |
| `PageTable.Table.Add` | kern/vm/pt.c:35-55 | the map with the page bound to the new entry, and the coremap told its address |
| `PageTable.Table.Destroy` | kern/vm/pt.c:57-75 | terminates and releases the frame or slot of every entry exactly once |
| `PageTable.AddAndDestroy` | kern/vm/pt.c:35-75 | the frames given to pt_add are the frames that pt_destroy gives back, each once, last one first |
| `Swap.WriteElsewhere` | kern/vm/swapfile.c:56-69 | writing one slot leaves every other slot alone |
| `Swap.SwapFile.constructor` | kern/vm/swapfile.c:26-46 | no slot is held |
| `Swap.SwapFile.SwapOut` | kern/vm/swapfile.c:86-109 | the first empty slot, held by no page, gets the bytes; panics exactly when there is none; a failed write leaves the slot marked |
| `Swap.SwapFile.SwapIn` | kern/vm/swapfile.c:115-122 | a held slot gives back the bytes its swap_out wrote and is free |
| `Swap.SwapFile.Unmark` | kern/vm/swapfile.c:124-128 | frees a slot in use; the assertion fails exactly for an empty one |
| `Swap.OutAndIn` | kern/vm/swapfile.c:56-128 | a page swapped out and in again is the same page after any requests in between, and it comes back if there were slots for all pages that went out |
| `Numbers.ValueOfText` | common/libc/printf/__printf.c:441-468 | the digits evaluate back to the number |
| `Numbers.PrintDigits` | common/libc/printf/__printf.c:415-478 | for bases 8, 10 and 16 the digits are the text of the number and always fit NUMBER_BUF_SIZE with the NUL |
| `Numbers.Room` | common/libc/printf/__printf.c:76-84 | a 64-bit number is used up by 22 digits |
| `Atoi.Atoi` | common/libc/stdlib/atoi.c:49-101 | blanks, sign, digits, in 32-bit arithmetic; the rest is ignored |
| `Atoi.ReadDigits` | common/libc/stdlib/atoi.c:70-92 | the digit loop computes the value of the leading digits modulo 2^32 |
| `Atoi.Reads` | common/libc/stdlib/atoi.c:52-101 | blanks and tabs, '+', '-' or no sign, digits, and anything behind them |
| `Atoi.ReadsExactly` | common/libc/stdlib/atoi.c:70-101 | the int is the number itself if and only if an int can hold it |
| `Atoi.ReadsNothing` | common/libc/stdlib/atoi.c:52-101 | without a digit the value is zero |
| `Printf.PF.Modifier` | common/libc/printf/__printf.c:182-233 | the field after a modifier |
| `Printf.PF.PrintFill` | common/libc/printf/__printf.c:350-357 | so many fill characters |
| `Printf.PF.PrintStuff` | common/libc/printf/__printf.c:367-404 | blanks before the prefixes, zeros behind them, right padding last |
| `Printf.PF.PrintNum` | common/libc/printf/__printf.c:415-491 | sign, base prefix and digits laid out in the field |
| `Printf.PF.Send` | common/libc/printf/__printf.c:498-562 | output and field after one format character, in every state |
| `Printf.FieldMeans` | common/libc/printf/__printf.c:182-233 | the modifiers in any order: '-' aligns left, '#' asks for the prefix, the digits are the width, a leading zero fills with zeros |
| `Printf.Vprintf` | common/libc/printf/__printf.c:571-593 | a whole format with its arguments: the text of its characters in order, and its length |
| `Printf.PlainFirst` | common/libc/printf/__printf.c:504-511 | characters outside every directive are printed as they are |
| `Printf.FormatsCompose` | common/libc/printf/__printf.c:571-593 | two formats one after the other print their texts one after the other and share the arguments in order |
| `Printf.DirectiveText` | common/libc/printf/__printf.c:498-562 | a directive in the middle of plain text prints its argument there and nothing else |
| `Printf.FormatInt` | common/libc/printf/__printf.c:571-593 | the text of a %d directive with any modifiers, and its count |
| `Printf.OddCancel` | common/libc/stdlib/atoi.c:88 | an odd factor can be cancelled modulo a power of two |
| `Printf.ZerosBehind` | common/libc/printf/__printf.c:350-404 | zeros behind the digits change the int unless it is zero |
| `Printf.PrintThenRead` | common/libc/printf/__printf.c:365-404 | atoi of the printed text is the int, if and only if it is zero or '-' and '0' did not put zeros behind it |
| `Printf.PrintAndRead` | common/libc/stdlib/atoi.c:49-101 | the same through the printing and reading code, the condition read off the modifier characters |
| `PrintfText.StringText` | common/libc/printf/__printf.c:533-543 | %s prints the string unbroken, or (null), with only fill characters on one side |
| `PrintfText.CharacterText` | common/libc/printf/__printf.c:544-561 | %c prints the character |
| `PrintfText.OtherText` | common/libc/printf/__printf.c:544-561 | %% prints a per cent sign, and a character that is no directive prints itself |
| `PrintfText.HexReads` | common/libc/printf/__printf.c:334-343 | for every field %x read back in base 16, with prefix 0x exactly with '#', is the argument, if and only if it is zero or no zeros are put behind it |
| `PrintfText.PointerReads` | common/libc/printf/__printf.c:334-343 | the same for %p, always with prefix 0x |
| `PrintfText.OctalReads` | common/libc/printf/__printf.c:337-343 | the same for %o in base 8, with prefix 0 exactly with '#' |
| `PrintfText.DecimalReads` | common/libc/printf/__printf.c:330-333 | the same for %u in base 10, without prefix |
| `PrintfText.BareHex` | common/libc/printf/__printf.c:334-343 | without a field width %x and %p are prefix and digits alone, without superfluous zeros |
| `PrintfText.BareOctal` | common/libc/printf/__printf.c:337-343 | the same for %o |
| `PrintfText.BareDecimal` | common/libc/printf/__printf.c:330-333 | the same for %u and %d, with the sign of a negative number |
| `Memory.Memcpy` | common/libc/string/memcpy.c:48-86 | forward by longs or chars; a simultaneous copy unless the destination overlaps from above |
| `Memory.Memmove` | common/libc/string/memmove.c:49-117 | a simultaneous copy whatever the overlap, by longs or chars |
| `Uio.Uio.MovePiece` | kern/lib/uio.c:81-113 | one copy, and resid in 32 bits, offset, buffers and n move together |
| `Uio.Uio.Uiomove` | kern/lib/uio.c:42-119 | for every n and resid: the bytes moved, one simultaneous copy per piece, in order over any buffers, with resid modulo 2^32, offset and total length changed by that; and whether it returns, wraps resid or panics |
| `Uio.UiomoveExact` | kern/lib/uio.c:60-113 | it returns without wrapping if and only if n is at most resid and the total, or resid is at most the total and some buffer ends exactly there; it wraps and panics exactly in the two other cases |
| `Uio.WrapsAt` | kern/lib/uio.c:60-113 | one buffer of 4 bytes, resid 2 and n 3: three bytes are moved and resid wraps |
| `Uio.ReadScatters` | kern/lib/uio.c:81-99 | byte j of the kernel buffer ends at the j-th byte of the buffers and nothing else changes |
| `Uio.WriteGathers` | kern/lib/uio.c:81-99 | the j-th byte of the buffers ends at byte j of the kernel buffer and nothing else changes |
| `Uio.CellsSplit` | kern/lib/uio.c:109-113 | moving a and then b bytes is moving a + b bytes |
| `Uio.Uio.Uiomovezeros` | kern/lib/uio.c:122-147 | for every n and resid and any overlap: the next bytes of the buffers become zero and nothing else changes; and whether it returns, wraps resid or panics |
| `Uio.UiomovezerosExact` | kern/lib/uio.c:132-144 | it returns without wrapping if and only if n is at most resid and the total, or resid is at most the total and is a multiple of 16 or the end of a buffer |
| `Uio.ZeroMove` | kern/lib/uio.c:132-144 | moving zeros zeroes the bytes even if buffers overlap each other or the zeros |

## Left out

- `coremap_victim_selection` for more than one victim: the run count is carried across the wrap, so the victims need not be adjacent.
- Divide by zero in `__qdivrem`: a deliberate hardware fault; a nonzero divisor is required.
- Memory barriers and the spin loop of `spinlock_acquire`: a lock is taken at the moment its test-and-set succeeds.
- Interrupt entry, `cpu_idle`, timer interrupts and the context switch in assembler: in the thread system an interrupt is an operation that may start on a running or idle CPU.
- ThreadRuns.RunInv: that a queued thread eventually runs is not stated, since it needs a fair choice of the CPUs that take steps; `ThreadOrder.TurnComes` and `ThreadProgress.LockIsReleased` say what does not depend on that.
- `lock_acquire`, `cv_wait` or `cv_signal` called from where the lock interface forbids it (by a thread that already holds the lock, or holds it not); `lock_release` by such a thread is modelled.
- Several locks and condition variables at once: `SleepLock` has one of each.
- The contents of a block that kmalloc hands out, and GUARDS, LABELS, SLOW and SLOWER: not compiled in.
- KHeap.KHeap.SubpageKfree: a block that is already free is accepted only if it is the first of its free list; for any other the code corrupts the list, as `KHeap.DoubleFreeBreaks` shows, and nothing is stated about what follows.
- Swap.SwapFile.SwapOut: after a failed write the contents of the slot are not modelled; no page holds it.
- Concurrent use of the swap table and the coremap: the code takes no lock there.
- The nil node of a page table: `pt_destroy` does not free it.
- Printf.PF.Send: the field width is unbounded; overflow of the C int that holds it is not modelled.
- Uio.Uio.Uiomove: an empty vector of buffers, for which the code reads past the end of the vector.
- Failing copyin and copyout in `uiomove`: copies succeed.
- Address spaces, vm_fault, processes, file tables, VFS, devices, the menu and boot.
- Shift, compare and bitwise millicode, bitmaps, arrays, string helpers: they would only add easy members.
