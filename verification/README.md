# Verified model of the kernel, its allocator and its small algorithms

This project models the parts of the repository whose correctness is hardest to see by reading one function, and proves what they promise.

* **The kernel** (`Kernel*.dfy`): processes, scheduling, waiting, death and reaping, message queues and semaphores, as one state machine. `KernelState` holds the state and the invariant; `KernelSteps.Faire` is one step (a system call, the end of a call that had blocked, or an interrupt); `KernelWrites`, `KernelReplies`, `KernelEffects` and `KernelOrder` say what each step does (the fields it writes, what it answers, whom it queues where); `KernelRuns` and `KernelLives` are about whole runs; `KernelMachine.Kernel` is the code itself, a class whose methods update the process table, the rings and the tables in place and are proved equal to the step functions. A system call is atomic up to `ordonnanceur`, so every interleaving of processes is a sequence of steps.
* **The rings** (`PriorityQueue.dfy`, `Ring.dfy`, `KernelRings.dfy`): the intrusive circular list of `shared/queue.h`, on heap objects, refines a stable priority queue; several rings over elements that share one link stay apart, and the three operations on them do to the links in memory what the kernel model does to its lists of pids.
* **The allocator** (`Powers.dfy`, `MallocBins.dfy`, `HeapBlocks.dfy`, `HeapLists.dfy`, `HeapWords.dfy`, `HeapFree.dfy`, `HeapFit.dfy`, `Malloc.dfy`, `MemAlloc.dfy`): the `malloc` of `shared/malloc.c.h` on its size words, feet and list links, with bins, fastbins, binmap, `top` and `sbrk`, and the guard-word wrapper around it.
* **Philosophers, Div64, GdbRle, PageCopy, PrintNum**: the dining philosophers over counting semaphores (`KernelRuns.CourseUnites` is why those of the kernel are such counters), 64-bit division by estimate and correction, the run-length encoder of the debugger stub and the decoder of the GDB Remote Serial Protocol, the copy loop over 32-bit page tables, and the number printer with the parsers that read it back.

## How the model stands to the source

* A process is a record in a table keyed by pid. Its one `chainage` link is the name of the ring it is in; the pointers of that link are the subject of `Ring` and `KernelRings`. A ring is listed in the order in which `queue_out` would empty it.
* A call that blocks ends a step; what it does after it is elected again (read `operationStatus`, `fileValue`, look at the children again) is a later step, `Reprise`. The context switch itself, stacks and canaries are not modelled: `ctx_sw` is "another process is now the running one".
* `Panique` stands for the three ways a call can stop the kernel or touch freed memory: the assertion of `queue_del`, the null process that `signal` dereferences, and returning into a process that has just been freed. Steps are proved to reach it exactly under `Fatal`, never otherwise.
* The tick of the clock is two steps: waking the sleepers, then giving up the processor.
* `chprio` reads its comparison word through the wrong link field (kernel/processus.c:235). The word it compares with is a parameter of the step, so everything is proved for whatever is read; `ChprioPreeminentLu` is the case in which it is the priority at the top of the ready queue, or a word above every priority, as a pointer into the kernel is.
* The comments of `pcount` promise the number of messages also for a null `count`; the code returns -1 (kernel/files.c:108-126), and so does the model. `scount` returns the sign-extended count.
* Bin headers have the addresses -1 to -95 and `top == 0` stands for `initial_top`, whose size word is zero. The two flag bits of `max_fast` are boolean fields, a word of the binmap is 32 booleans, and the tests of malloc are made on its value (`MallocBins.MotCarte`). `malloc_consolidate` clears its flag when the fastbins are empty instead of before, and takes the chunks off a fastbin one by one. The consolidation code that `fREe` and `malloc_consolidate` both contain is one method. `mem_heap_end` is page-aligned (the two linker scripts say so), which is why the second call of `sbrk` in `sYSMALLOc` never fails.
* In the allocator the fields `a`, `ls` and `base` are ghost: which chunk starts where, and which list it is in. The code never reads them.
* In `print_num` the flag '0' wins over '-'. In `strtol` the accumulation wraps in two's complement; C leaves signed overflow undefined, and among printed numbers only the last digit of -2^31 depends on it (`PrintNum.SansDebordement`).
* In `putfrags` the count byte after '*' can be '$' (a run of eight) and, for a run of seven in unencoded data, '#'; what is sent is proved as it is.

## Model

| member | source | states |
|---|---|---|
| PriorityQueue.RunStable | shared/queue.h:73-87 | after any history of additions, removals at the head and deletions anywhere, the queue is sorted by priority and first-in first-out among equals |
| PriorityQueue.StableUnique | shared/queue.h:73-87 | that order is the only one with those members, so the queue is determined by who is in it and when they came |
| PriorityQueue.PrefixIsFilter | kernel/processus.c:437-453 | in a sorted ring, stopping at the first sleeper that is not due separates exactly the due ones from the others |
| Ring.Queue.QueueAdd | shared/queue.h:73-87 | the pointer writes insert the element at the place the priority queue gives it, move no other element and keep the two link directions inverse |
| Ring.Queue.QueueOut | shared/queue.h:129-147 | returns the oldest element of highest priority and unlinks it with its links zeroed, or null when the ring is empty |
| Ring.Queue.QueueDel | shared/queue.h:155-163 | unlinks any member, moves no other, zeroes its links |
| Ring.Queue.QueueTop | shared/queue.h:209-220 | the element queue_out would return, without unlinking it |
| Ring.Queue.DrainUpTo | kernel/processus.c:437-453 | the loop that deletes the element under its cursor visits the ring once and removes exactly the far end up to the first element that is not due |
| Ring.AddTo | shared/queue.h:73-87 | among several rings whose elements share one link, the assertion that both links are null is enough: the element was in no ring, it enters this one, and no other ring changes |
| Ring.DelFrom | shared/queue.h:155-163 | taking any member out of one of them changes no other, and leaves the element free for another |
| Ring.OutOf | shared/queue.h:129-147 | the same for the element at the head |
| KernelRings.Memoire.Ajouter | shared/queue.h:73-87 | when the links in memory are those of a kernel state, queue_add of an unlinked process, by the field its ring is ordered by, makes them those of the state after QueueAdd |
| KernelRings.Memoire.Oter | shared/queue.h:155-163 | the same for queue_del and QueueDel |
| KernelRings.Memoire.Sortir | shared/queue.h:129-147 | queue_out returns the link of the first process of the ring, or null, and the links are then those of the state without it |
| KernelRings.Memoire.Ecrire | kernel/processus.c:219-240 | writing the other fields of a process, the priority fields included, keeps memory and state together |
| KernelRings.Memoire.Deplacer | shared/queue.h:73-163 | so does a move from one ring to another that is ordered by another field |
| KernelRings.Memoire.Inchange | kernel/processus.c:265-295 | and the changes of state that touch no ring, such as freeing a process that is in none, leave memory and state together |
| KernelReap.FreeMourantQueueExact | kernel/processus.c:265-295 | draining the dying queue while it grows ends, frees exactly the dying processes and, through any chain of dead parents, their zombie children, orphans the other children, and gives each freed pid back once |
| KernelSched.OrdonnanceurInv | kernel/processus.c:335-368 | every switch keeps the invariant and elects a process that no ready process outranks; it never fails to find one |
| KernelSched.CommutationElit | kernel/processus.c:335-368 | the elected process is the first of the ready queue once the outgoing one is put back behind its equals; nobody else moves |
| KernelSched.TourDeRole | kernel/processus.c:335-368 | processes tied at the top are elected in turn, each once in as many slices as there are of them, and the queue then is what it was |
| KernelClock.VerifieReveilleExact | kernel/processus.c:429-458 | the tick wakes exactly the sleepers whose time has come and leaves the others in order |
| KernelStart.StartInv | kernel/processus.c:95-196 | start keeps the invariant and the priority rule whether or not memory could be had |
| KernelStart.ChprioPreeminent | kernel/processus.c:219-262 | chprio leaves a ready process above the running one exactly when it lowers the caller below one while the compared word hides it |
| KernelStart.ChprioPreeminentLu | kernel/processus.c:230-240 | it never does when the word is the priority at the top of the ready queue, or is above every priority |
| KernelDeath.ExitInv | kernel/processus.c:483-502 | exit goes wrong exactly when the caller's father is itself about to be reaped; otherwise it does not return and the invariant holds |
| KernelDeath.KillPanique | kernel/processus.c:506-545 | kill goes wrong exactly on a process that waits for a child, or on oneself under a father about to be reaped |
| KernelDeath.WaitpidInv | kernel/processus.c:550-618 | waitpid keeps the invariant; it answers -1 at once exactly when the caller has no such child |
| KernelFiles.PcountJuste | kernel/files.c:108-126 | pcount gives minus the number of blocked receivers, or the messages plus the blocked senders |
| KernelFiles.PsendInv | kernel/files.c:239-285 | the invariant and the priority rule hold after psend; a message is handed over only to a receiver, and stored only in a buffer that is not full and that nobody waits for |
| KernelFiles.PreceiveInv | kernel/files.c:309-379 | the invariant and the priority rule hold after preceive; when it finds a message and somebody waits, the first is a sender and the buffer was full |
| KernelSem.SignalEffet | kernel/semaphore.c:142-163 | given never more waiters than the count says (true in every run), a signal that does not go wrong answers -2 at the largest count and changes nothing, or adds one and releases the oldest waiter, if there is one, and nobody else; true counts stay true |
| KernelSem.SignalnAtomique | kernel/semaphore.c:165-185 | under the same conditions signaln of n >= 0 changes nothing and answers -2, exactly when the count would overflow, or equals n signals and releases exactly the min(n, waiters) oldest |
| KernelSem.WaitEffet | kernel/semaphore.c:222-246 | wait takes one and, when the count becomes negative, puts the caller behind all other waiters; at the smallest count it answers -2 and changes nothing |
| KernelFrames.KillPerdSem | kernel/processus.c:526-542 | killing a semaphore waiter always breaks the accounting of that semaphore |
| KernelRank.SdeleteRang | kernel/semaphore.c:92-110 | sdelete leaves a ready process above the running one exactly when a waiter it releases outranks the caller |
| KernelRank.SignauxRang | kernel/semaphore.c:142-185 | the same for signal and signaln, truthful count or not: exactly when one of the released waiters outranks the caller, or somebody did before |
| KernelRank.KillRang | kernel/processus.c:506-545 | the same for kill: exactly when it wakes a father that outranks the caller |
| KernelSteps.FaireInv | kernel/processus.c:335-618 | from a state that satisfies the invariant, a legal step keeps it, and goes wrong exactly under Fatal |
| KernelSteps.ComptesGardes | kernel/semaphore.c:92-246 | "a negative count is minus the number of waiters" survives a step if and only if the step is not the kill of a waiter |
| KernelSteps.BornesGardees | kernel/semaphore.c:92-246 | "never more waiters than the count says" survives every step, kills included |
| KernelSteps.ReveilGarde | kernel/processus.c:483-618 | "no father sleeps over a dead child it waits for" survives a step if and only if the step is not a self-kill under a waiting father |
| KernelSteps.PrioriteGardee | kernel/processus.c:219-262 | "no ready process outranks the running one" survives a step that does not go wrong if and only if the step is not one of the listed wake-ups without a switch, whatever was killed before |
| KernelSteps.SignauxPanique | kernel/semaphore.c:165-185 | repeated signals go wrong exactly when the count claims more waiters than there are |
| KernelTraffic.MessagesConserves | kernel/files.c:61-77 | in every step, what a queue held followed by what it accepts is what it delivers followed by what it then holds |
| KernelTraffic.SemaphoreTenu | kernel/semaphore.c:92-246 | in every step that neither kills a waiter of that semaphore nor sets its count afresh, the count moves by what the calls answer, and the waiting list loses its oldest members and grows at its end |
| KernelTraffic.UnitesTenues | kernel/semaphore.c:142-246 | such a step, while that count tells the truth, lets a wait through only against a unit of the count, and leaves nobody waiting while a unit is left |
| KernelTraffic.ManqueTenu | kernel/semaphore.c:142-246 | a step that goes well and does not set the count afresh changes how many waiters the count promises in vain by exactly the waiter it kills |
| KernelAnswers.FaireSuivi | kernel/processus.c:95-618 | a step changes no process but those it runs, serves, throws out, wakes or strikes; anybody else can only be switched to or from, be reaped if dead, or lose its father |
| KernelAnswers.AppelEvolue | kernel/files.c:198-379 | a process blocked in psend or preceive is changed by nothing but the step that serves it or the reset that rejects it, and then by nothing more |
| KernelAnswers.RecueilExact | kernel/processus.c:550-618 | waitpid returns a dead child of the caller with the value it left, and the child leaves the table |
| KernelAnswers.Naissances | kernel/processus.c:64-82 | only start puts a pid in the table, and it is the pid it returns |
| KernelWrites.FaireEcrits | kernel/processus.c:95-618 | in any state with never more waiters than the counts say (true in every run): the fields of every process after a step are those of `Ecrits`, a table written call by call; only a switch, reaping and the loss of a father come on top |
| KernelReplies.FaireRepond | kernel/processus.c:95-618 | what every call answers, when it refuses and when it suspends its caller: start the first free pid, chprio the old priority, kill 0 for every living victim, waitpid a dead child and its value, try_wait 0 or -3, a resumed wait the status it was left |
| KernelReplies.FaireTables | kernel/files.c:129-379 | which queues and semaphores there are after a step, with their capacities, messages and counts |
| KernelReplies.FaireCede | kernel/processus.c:192-194 | a call that returns gives the processor up only to a process that outranks the caller (the end of a slice, the keyboard and a change of one's own priority apart) |
| KernelEffects.AttenteDerriere | kernel/files.c:86-91 | a process that blocks on a message queue waits behind those of its priority or above and ahead of the others |
| KernelEffects.WaitClockEffet | kernel/processus.c:417-426 | wait_clock leaves the caller asleep until the tick it named, behind those that wake then or later and ahead of those that wake before |
| KernelEffects.ReveilsEffet | kernel/processus.c:429-458 | after the tick the sleepers that are not due are as they were, and each of the others is ready or running |
| KernelEffects.ChprioEffet | kernel/processus.c:219-262 | chprio answers -1 and changes nothing exactly when an argument is out of range or the process is absent or a zombie; otherwise it answers the old priority, sets the new one and changes no other process; a ready process, or one that waits for a message, is put back behind those it does not outrank, and one that outranks the caller is elected |
| KernelEffects.KillEffet | kernel/processus.c:526-542 | kill of any living process but the caller, in any state but waiting for a child: the answer is 0, and the kernel is the old one with the victim out of its ring, a zombie or dying, and a waiting father ready, then reaped |
| KernelEffects.KillTue | kernel/processus.c:506-545 | the victim stays, as a zombie with its exit value, exactly when it has a father that is not about to be reaped; otherwise its pid is free again; a father that waited is ready; everybody else alive is untouched but for the loss of a father |
| KernelEffects.MortDuCourant | kernel/processus.c:483-525 | exit and kill of oneself: the caller is dead, and a zombie exactly when it has a father; exit leaves its argument and readies a father that waits, kill does neither |
| KernelEffects.PcreateEffet | kernel/files.c:129-149 | pcreate answers -1 and changes nothing exactly when the capacity is out of 1..MAXMSG or NBQUEUE queues exist; otherwise a new identifier, whose queue has that capacity, no message and nobody waiting, all else being unchanged |
| KernelEffects.ScreateEffet | kernel/semaphore.c:64-91 | the same for screate; scount then gives the value screate was given |
| KernelEffects.SresetEffet | kernel/semaphore.c:117-132 | after sreset nobody waits, and scount gives the value sreset was given |
| KernelEffects.TryWaitEffet | kernel/semaphore.c:195-212 | try_wait answers 0 and takes a unit if and only if there is one; otherwise it answers -3 (-2 at the smallest count) and changes nothing |
| KernelOrder.FaireOrdre | shared/queue.h:73-87 | no step, wake-ups of many, switches and deaths included, lets a ready process be overtaken: whoever is ahead of it afterwards outranks it or was ahead of it before (the target of a chprio apart) |
| KernelRuns.DemarrageInv | kernel/processus.c:370-413 | the state after initialisation satisfies the invariant and everything the runs start from |
| KernelRuns.CourseInv | kernel/processus.c:335-618 | the invariant holds in every state of every run: each process is in exactly the ring its state names, the running process is the only one, Idle is always there, children and fathers agree, pids are free or used and never both, waiting receivers mean an empty buffer and waiting senders a full one, queues are sorted |
| KernelRuns.CourseComptes | kernel/semaphore.c:92-246 | in every run in which no semaphore waiter is killed, counts tell the truth |
| KernelRuns.CourseBornes | kernel/semaphore.c:92-246 | in every run there are never more waiters than the counts say |
| KernelRuns.SansPanneSem | kernel/semaphore.c:142-185 | and then signal and signaln cannot go wrong |
| KernelRuns.CourseReveils | kernel/processus.c:483-618 | in every run without a self-kill under a waiting father, no father sleeps over a dead child it waits for |
| KernelRuns.CoursePriorite | kernel/processus.c:219-368 | in every run without those wake-ups, the running process is never outranked, whoever is killed |
| KernelRuns.CourseMessages | kernel/files.c:239-379 | between resets, a queue delivers exactly the messages it accepts, in that order, the rest being in its buffer |
| KernelRuns.CourseSemaphore | kernel/semaphore.c:117-246 | since the count was set, and as long as none of its own waiters is killed: count = that value plus signals minus waits, within 16 bits; minus a negative count is the number of waiters; they leave in the order in which they came |
| KernelRuns.CourseUnites | kernel/semaphore.c:142-246 | under the same conditions a semaphore is a plain counter: the units it had and those brought, less one for each wait that went through; a process waits only while there are none |
| KernelRuns.CourseManque | kernel/semaphore.c:142-246 | since the count was set, whoever is killed: the waiters promised in vain are exactly those killed; so the count tells the truth iff none was, stays below zero by that many otherwise, and signal goes wrong exactly when some was and nobody waits |
| KernelRuns.PsendBloque | kernel/files.c:239-285 | a psend that blocked answers 0 if and only if its message was accepted meanwhile, which happened exactly once; otherwise -1 after a reset or a deletion |
| KernelRuns.PreceiveBloque | kernel/files.c:309-379 | a preceive that blocked answers 0 with exactly the message of the one psend that served it, or -1 after a reset or a deletion |
| KernelRuns.RecueilUnique | kernel/processus.c:550-618 | two waitpids that return the same pid are separated by a start that reused it |
| KernelRuns.ValeurDExit | kernel/processus.c:483-618 | the value waitpid returns is the one that child passed to exit |
| KernelLives.AutruiReste | kernel/processus.c:95-618 | while others run, a living process that is not killed keeps its call, its children and its exit value; only chprio changes its priority |
| KernelLives.MortDefinitive | kernel/processus.c:483-545 | a process that exited, or was killed by a call that did not refuse, is never running or ready again until a start returns its pid |
| KernelLives.KillDefinitif | kernel/processus.c:506-545 | in particular after any kill that answered 0 |
| KernelLives.Sommeil | kernel/processus.c:417-458 | after wait_clock(t) the caller, unless killed, is asleep, neither ready nor running, in every state up to the first tick u >= t, and that tick readies it |
| KernelLives.WaitBloque | kernel/semaphore.c:222-246 | a wait that blocked and is resumed was ended by exactly one event; it answers 0 iff that was a signal or signaln that released it, -3 iff the semaphore was deleted, -4 iff its count was set afresh |
| KernelLives.WaitpidLong | kernel/processus.c:550-618 | a waitpid that slept returns the very child it was called for, or, called for any, the first dead one in the list, with its exit value, and that child is gone |
| KernelLives.Capacite | kernel/files.c:129-149 | from pcreate(c) on, as long as nobody reads or resets the queue, exactly the first c sends answer 0 at once and every later one blocks |
| KernelLives.JamaisDouble | kernel/processus.c:335-368 | over a run, a process that stays ready is never overtaken by one that stays ready and never outranks it |
| KernelFaults.TuerPuisSignaler | kernel/semaphore.c:153-154 | from any state with truthful counts: kill a semaphore waiter, which is legal and goes well, then signal as often as there were waiters, which is legal and goes wrong; when it was the only waiter, one signal does |
| KernelFaults.EnfantMoissonneEnMarche | kernel/processus.c:487-499 | a run from boot in which an exiting child of a dying father would be freed while it runs |
| KernelFaults.PereTueEnAttente | kernel/processus.c:526-536 | a run from boot after which killing a father that waits for its child goes wrong |
| KernelFaults.ReveilPerdu | kernel/processus.c:506-545 | a run from boot in which a child kills itself and its father goes on sleeping over it |
| KernelFaults.SignalSansCommuter | kernel/semaphore.c:142-163 | a run from boot in which signal readies a process of higher priority and the caller goes on |
| KernelFaults.AttenteTuee | kernel/semaphore.c:153-154 | a run from boot in which a semaphore waiter is killed, its count is false from then on, and the next signal goes wrong |
| KernelMachine.Kernel.Executer | kernel/processus.c:95-618 | the imperative code, entered by any legal step that is not fatal, does exactly what the step function says and keeps the invariant; so the fields it writes, its answer and the tables it leaves are those of KernelWrites.FaireEcrits, KernelReplies.FaireRepond and KernelReplies.FaireTables |
| KernelMachine.Kernel.FreeMourantQueue | kernel/processus.c:284-295 | the two nested loops compute the reaping function |
| KernelMachine.Kernel.Ordonnanceur | kernel/processus.c:335-368 | the code of the switch computes the switch function |
| KernelMachine.Kernel.Chprio | kernel/processus.c:219-262 | the code of chprio, with the ring it reinserts into: it answers the old priority and sets the new one, or answers -1 and changes nothing, exactly on the arguments the source refuses |
| KernelMachine.Kernel.Exit | kernel/processus.c:483-502 | the code of exit |
| KernelMachine.Kernel.Kill | kernel/processus.c:506-545 | the code of kill: every living victim is dead or gone, with its pid free; 0 to any caller but the victim; -1 and no change exactly when the pid is out of range, absent or dead |
| KernelMachine.Kernel.AttendreFils | kernel/processus.c:560-618 | the loop of waitpid: search, sleep, removal of the child from the list |
| KernelMachine.Kernel.VerifieReveille | kernel/processus.c:429-458 | the loop that wakes sleepers while deleting them |
| KernelMachine.Kernel.Psend | kernel/files.c:239-285 | the code of psend |
| KernelMachine.Kernel.Preceive | kernel/files.c:309-379 | the code of preceive |
| KernelMachine.Kernel.Pdelete | kernel/files.c:151-186 | the code of pdelete |
| KernelMachine.Kernel.Signaln | kernel/semaphore.c:165-185 | the loop of signaln |
| KernelMachine.Kernel.Wait | kernel/semaphore.c:222-246 | the code of wait up to the switch: the count goes down by one, and the caller is suspended at the end of the waiting list exactly when none was left |
| KernelMachine.Kernel.Reprendre | kernel/semaphore.c:237-244 | the code after the switch in the calls that block; a resumed wait answers the negative status it finds, or 0 |
| MallocBins.Request2Size | shared/malloc.c.h:1997-2009 | the padded size is the least legal one that holds the request and a size word, without wrap-around for any accepted request |
| MallocBins.RequestAgain | shared/malloc.c.h:2917-2921 | the size with which sysmalloc calls malloc again pads to the same size, for every size but the largest |
| MallocBins.BinIndexBorne | shared/malloc.c.h:2188-2227 | bin_index stays in the array and off bins 0 and 1 |
| MallocBins.BinIndexMonotone | shared/malloc.c.h:2188-2227 | bin_index is monotone, so larger chunks are never in lower bins |
| MallocBins.LargeQuart | shared/malloc.c.h:2188-2222 | the four bins of one power of two are its four quarters |
| MallocBins.SansBrancheBsr | shared/malloc.c.h:2195-2218 | the branch-free computation of the highest set bit gives what bsrl gives, on every value largebin_index passes to either |
| MallocBins.PlusDeBit | shared/malloc.c.h:3622-3643 | on the value of a binmap word, `bit > map || bit == 0` holds exactly when no bit is set from that one upwards, and `bit & map` is not 0 exactly when that bit is set, the bit dropping out of the word after 32 shifts |
| HeapBlocks.Disjoints | shared/malloc.c.h:2567-2612 | no chunk starts inside another |
| HeapBlocks.Pavage | shared/malloc.c.h:2567-2868 | every byte of the arena, from its base to the end of top, is in exactly one chunk, and no other byte is |
| HeapBlocks.ChargeAPart | shared/malloc.c.h:1857-1945 | a client that writes inside its own block touches no other block, no size word, no foot or link of a free chunk |
| HeapBlocks.CouperBacArene | shared/malloc.c.h:3593-3604 | splitting a free chunk keeps the arena well formed |
| HeapBlocks.FusionTopArene | shared/malloc.c.h:3832-3837 | merging into top keeps it well formed when what precedes is in use |
| HeapBlocks.FusionMilieuArene | shared/malloc.c.h:3790-3806 | merging two neighbours keeps it well formed |
| HeapBlocks.ToutEnTop | shared/malloc.c.h:2567-2868 | free chunks never touch, so an arena with nothing handed out and nothing in a fastbin is top alone |
| HeapWords.LireVoisins | shared/malloc.c.h:2014-2075 | what free reads of both neighbours, through the PREV_INUSE bits and the feet, is true |
| HeapWords.CouperBacMots | shared/malloc.c.h:3593-3604 | two set_head and one set_foot are all that a split has to write |
| HeapWords.LibrePinuse | shared/malloc.c.h:2640-2655 | a free chunk always has its PREV_INUSE bit set: two free chunks never touch |
| HeapLists.UnlinkBoucle | shared/malloc.c.h:2149-2154 | the macro unlink removes exactly that chunk from its circular list |
| HeapLists.InsererBoucle | shared/malloc.c.h:3560-3564 | the four writes link a chunk between any two neighbours |
| HeapLists.PlusPetit | shared/malloc.c.h:3607-3688 | the last chunk of the first non-empty bin above that of the request is a smallest one that fits |
| HeapLists.PlusPetitIci | shared/malloc.c.h:3566-3605 | the first chunk large enough from the small end of the request's own bin is a smallest one that fits |
| HeapFree.ArriereJuste | shared/malloc.c.h:3790-3795 | backward consolidation finds the free neighbour by its foot and absorbs the chunk |
| HeapFree.AvantJuste | shared/malloc.c.h:3797-3806 | forward consolidation absorbs the free chunk that follows; the next one is in use |
| HeapFit.AssezGrand | shared/malloc.c.h:1997-2009 | every byte the caller asked for is inside the block it is given |
| Malloc.Allocateur.constructor | shared/malloc.c.h:2450-2470 | all-zero malloc_state is a valid start, with no block handed out |
| Malloc.Allocateur.Sbrk | shared/malloc.c.h:10-18 | the break only moves up and never past the end of the heap |
| Malloc.Allocateur.Malloc | shared/malloc.c.h:3379-3725 | the heap stays well formed; on success the blocks handed out are the old ones, unchanged, and one new block, aligned and large enough; it is a smallest free chunk that fits, top serving only when none does, except for a fastbin hit of that size or the last remainder; on failure nothing fits, no fastbin chunk is left and sbrk cannot give enough |
| Malloc.Allocateur.Free | shared/malloc.c.h:3732-3883 | the heap stays well formed and exactly that block is no longer handed out |
| Malloc.Allocateur.Consolidate | shared/malloc.c.h:3900-3995 | all fastbins are emptied and merged, blocks handed out are untouched; when none is handed out the arena is then the one chunk top, up to the break |
| Malloc.Allocateur.SysMalloc | shared/malloc.c.h:2882-3302 | top grows by whole pages, or malloc is tried again after a consolidation; the second sbrk never fails |
| Malloc.Allocateur.Trim | shared/malloc.c.h:3316-3369 | trimming changes nothing, since sbrk refuses to shrink |
| Malloc.Allocateur.Balayer | shared/malloc.c.h:3478-3564 | sorting the unsorted chunks into their bins keeps every bin sorted and loses none; it stops at an exact fit or at the last remainder |
| Malloc.Allocateur.Scruter | shared/malloc.c.h:3566-3605 | the scan of a large bin finds a best fit or shows that the bin has none |
| Malloc.Allocateur.Parcourir | shared/malloc.c.h:3607-3688 | the walk over the binmap ends, finds a best fit, or shows that no free chunk fits |
| MemAlloc.LongueurJuste | shared/malloc.c.h:5601-5608 | the overflow test refuses exactly the lengths whose guarded size does not fit in 32 bits |
| MemAlloc.Memoire.Alloc | shared/malloc.c.h:5601-5618 | a zone is new, zeroed, aligned, and disjoint from the words of every other zone; other words are left alone; 0 only for a length of 0, one too large, or no memory |
| MemAlloc.Memoire.Ecrire | shared/malloc.c.h:5612-5616 | writing any word of one's own zone damages no guard of any zone |
| MemAlloc.Memoire.Free | shared/malloc.c.h:5621-5634 | mem_free reports a bug if and only if it is given a non-zero length other than mem_alloc's; at length 0 it does nothing; otherwise the block is released and nobody else's words change |
| Philosophers.PasInv | user/test_semaphore.c:80-130 | for any ring of at least three and any interleaving: a fork is marked used iff exactly one of its two neighbours holds it, each private semaphore holds at most one grant, a blocked philosopher has a used fork beside it |
| Philosophers.JamaisEnsemble | user/test_semaphore.c:68-78 | neighbours never hold the fork between them together, never eat together, and are never displayed as doing so |
| Philosophers.PasDInterblocage | user/test_semaphore.c:85-116 | as long as one has not finished, somebody can move |
| Philosophers.DeroulementBorne | user/test_semaphore.c:118-133 | every step brings the whole table one unit of work nearer its end |
| Philosophers.ToutLeMondeFinit | user/test_semaphore.c:118-133 | hence every run ends, after a known number of steps, with everybody finished |
| Philosophers.Repas | user/test_semaphore.c:118-160 | from the start, n philosophers with k turns: a run can go on exactly while it is shorter than n(14k + 2) steps, and then everybody has finished, no fork is used and no grant is pending |
| Philosophers.Couverts.PrendreFourchettes | user/test_semaphore.c:85-97 | the array code does what the step says |
| Philosophers.Couverts.PoserFourchettes | user/test_semaphore.c:99-116 | the array code does what the two steps say |
| Div64.DoDiv64 | shared/div64.c:28-64 | exact quotient and remainder for all x and y (0 and x for y = 0) except a y of at least 2^32 whose leading 32 bits are all ones, which divides by zero; the correction loop runs at most twice |
| Div64.UneFaute | shared/div64.c:44-58 | 2^33 - 1 is such a divisor |
| Div64.Estimation | shared/div64.c:44-58 | no divl overflows and the estimate is at most two short |
| Div64.DivParSoustraction | user/test.c:783-814 | the shift-and-subtract division of the tests is exact, y = 0 included |
| Div64.Comparer | user/test.c:783-814 | the two agree if and only if y is not one of those divisors |
| GdbRle.HexaAllerRetour | kernel/gdb_serial.c:47-66 | reading the two digits of every byte gives the bytes back, and only them |
| GdbRle.Ligne.EnvoyerPaquet | kernel/gdb_serial.c:134-215 | the bytes sent are '$', the encoded body, '#' and the body's sum modulo 256 in two digits |
| GdbRle.Ligne.Putfrags | kernel/gdb_serial.c:134-222 | the packet is repeated until it is acknowledged |
| GdbRle.DecodeEnvoi | kernel/gdb_serial.c:157-205 | expanding runs by the Overview section of the GDB Remote Serial Protocol, which allows '*' only before a count byte, undoes any sequence of runs the encoder may send |
| GdbRle.AllerRetour | kernel/gdb_serial.c:134-205 | decoding gives exactly the data, two digits per byte or the bytes themselves, if and only if no fragment sent unencoded contains '*' |
| GdbRle.Relire | kernel/gdb_serial.c:47-66 | what is sent of hexified fragments, decoded and given to hex2bin, is accepted and gives exactly their bytes |
| GdbRle.HexaSansDiese | kernel/gdb_serial.c:157-205 | an encoded body of digits never contains '#', and contains '$' iff the data has a maximal block of r equal bytes whose two digits are equal, r modulo 49 being 4 |
| GdbRle.UnDollar | kernel/gdb_serial.c:157-205 | it does for four zero bytes |
| GdbRle.ComptesImprimables | kernel/gdb_serial.c:180-200 | count bytes are the run length plus 28 and lie in 32..126 |
| PageCopy.PageEntiere | kernel/gdb_serial_support.c:90-121 | one lookup gives the translation of every address up to the end of its 4K or 4M page |
| PageCopy.TraduitGrande | kernel/gdb_serial_support.c:95-121 | for a directory whose bytes hold a given frame and flag bits: not present is not mapped, present and large gives the top ten bits of the frame and the low 22 of the address; without paging every address is its own |
| PageCopy.TraduitPetite | kernel/gdb_serial_support.c:107-116 | through a page table built in the same way: the frame of the entry and the low 12 bits of the address, or not mapped |
| PageCopy.Copyin | kernel/gdb_serial_support.c:142-162 | returns 0 or -1, -1 iff one byte of the range is not mapped; in any case each byte before the first unmapped one is taken from where the tables map its address, and the rest of the destination is left alone |
| PageCopy.MappageStable | kernel/gdb_serial_support.c:164-188 | writing through a mapping that avoids the page tables does not change the mapping |
| PageCopy.Copyout | kernel/gdb_serial_support.c:164-188 | the converse copy, also when it fails: each byte before the first unmapped address lands where its address is mapped, nothing else changes |
| PrintNum.LuChiffres | shared/doprnt.c:147-164 | the digits of u in a base, read in that base, give u |
| PrintNum.EcrireChiffres | shared/doprnt.c:547-555 | the digit buffer is filled backwards and never overruns |
| PrintNum.PrintNum | shared/doprnt.c:516-597 | print_num puts out the padding, sign, prefix, zeros and digits of the format |
| PrintNum.LongueurImprimee | shared/doprnt.c:516-597 | exactly max(width, sign + prefix + max(precision, digits)) characters |
| PrintNum.MiseEnPage | shared/doprnt.c:562-594 | character by character: which blanks, sign, prefix, zeros and digits stand where, for each of the flags |
| PrintNum.Strtoul | shared/strtoul.c:21-56 | the value modulo 2^32 and the end of the number, blanks and prefix skipped |
| PrintNum.Strtol | shared/strtol.c:21-62 | the same with a sign, in two's complement |
| PrintNum.AllerRetourNonSigne | shared/strtoul.c:21-56 | strtoul reads back every 32-bit value in any base, width, padding, precision and prefix, and consumes the number |
| PrintNum.AllerRetourSigne | shared/strtol.c:21-62 | strtol reads back every signed value printed, if and only if it is not a positive one printed with a '+', and consumes the number if and only if no '+' was printed |
| PrintNum.SansDebordement | shared/strtol.c:21-62 | reading a printed number back, every prefix of its zeros and digits accumulates to a value in range, except the whole of -2^31 |

## Left out

- Memory exhaustion inside the kernel calls other than start; the allocator is modelled by itself, and the kernel model does not call it.
- Context switch, stacks, canaries, descriptor tables and assembly: hardware.
- Console, keyboard, sound, serial line and their buffers: for cons_read only the ring of waiting processes is kept, as a set of members (chprio does not reorder it).
- Checks of user pointers at the system call gate: address filtering.
- realloc, memalign, calloc, independent_calloc, mallopt and mallinfo: not used by the kernel; statistics fields of malloc_state likewise.
- The mmap and non-contiguous branches of sYSMALLOc, with their fenceposts: compiled out, or proved unreachable since sbrk has no other caller.
- mem_free_nolength: reads the length from the guard word and calls mem_free.
- The debugger's command loop, its receiving side and the X packet: device conversation.
- The formats of _doprnt other than the integer conversions, and vsnprintf.
- string.c, UTF-8 and scancode translation, shell, games and the test programs other than the philosophers and the reference division.
- Malloc.Allocateur: calls are sequential, one at a time, as the kernel makes them; the contents of blocks are not part of it, only the words the allocator itself keeps (ChargeAPart is why that is sound).
- PageCopy.Copyout: the destination must not overlap the page tables that map it; without that the copy may change the mapping it walks.
- Philosophers.Repas: the semaphores are plain counters, which KernelRuns.CourseUnites shows those of the kernel to be; the order in which blocked processes are released plays no part in it, and the philosophers are not composed with the scheduler.
- KernelRings.Memoire.Ajouter: the class KernelMachine.Kernel keeps its rings as lists of pids; that the links in memory follow the state is proved here for each operation its methods are made of, not inside that class.
