# TinyaML, modelled and proved

TinyaML is a small virtual machine with green threads, an assembler and a binary program format. This project
models three linked parts of it, and the containers beneath them, and proves what they promise.

- **Threads.** `SchedModel` gives every scheduling operation as a function from snapshot to snapshot.
  `SchedInv` proves what each keeps, and `SchedRun` runs whole instructions and cycles. `SchedTheorems`, `SchedOwn`,
  `SchedRetry`, `SchedCritical`, `SchedLaws`, `SchedFair` and `SchedWake` prove the results over runs. `Threads` holds the linked
  lists as pointers, `VmHeap` the machine over them with its snapshot as a ghost field, and `VmOps` the C functions in
  place: each changes the heap so that the snapshot changes as the function of `SchedModel` says. `VmRun` puts them
  together to instructions, cycles and runs on the heap.
- **Programs.** `Assembler` is the two-pass assembler, in place. `Simulation` runs the emitted code beside the
  chain of labelled nodes; `ChainLaws` has what its calls, returns and throws mean, `AssemblerLaws` what the text means. `HashTab`, `TextSegs`, `LabelTables` and `OpcodeDicts` are the tables, `ByteIO` the byte stream,
  `ProgramFile` the printer and the parser, `FileLayout` the place of each field, `ProgramParse` which streams are accepted, `ProgramImage` the renumbering of opcodes, strings and symbols,
  `ProgramIO` and `ProgramLoad` the writing and the reading methods.
- **Execution.** `Unwinding` has calls, closures and catchers; `NestedRuns` the synchronous run inside a run;
  `SlotMemory` what instructions do to slots and objects, `RefCounts` the reference counts and the collector beneath that; `GenericStacks` and `DynArrays` the byte-level stack and
  the growing array; `MessageQueues` and `FreeLists` two extensions.

A machine word has 64 bits. Where the source changes state, the model is a class or a method that changes the
same fields in the same order. Its `ensures` equates the new state with a function of the old one, and lemmas
about that function state what the source promises.

## What the proofs found

Where the code does not do what one would expect of it, the model follows the code and a lemma says exactly when
it does.

- Killing a thread keeps every thread on the list its state names if and only if the victim is neither blocked nor
  already dead: a blocked one is chained on the zombie list while a waiting list still names it, a dead one is chained
  there twice (`SchedLaws.KillKeepsListsIff`).
- A label at address 0 cannot be jumped to, as an offset of 0 means "no jump": not by a jump, a call or the removal of
  a catcher (`Simulation.JumpAgreesIff`, `Simulation.LoopFromAddressZero`), nor by a throw or the call of a function
  that is there (`Simulation.ReachesIff`), nor by a computed jump or an offset that leads there
  (`Simulation.OffsetAgreesIff`). Storing such an address is no problem (`Simulation.StoredAgreesIff`). A jump to an
  undeclared label is emitted as `-ip`, that is as an absolute jump to address 0, and falls through
  (`Simulation.UndeclaredLabel`).
- The `__RQ__` and `__LL__` nodes move the label offset by two words and emit nothing. A jump lands on its label
  if and only if as many of them precede the label as precede the jump (`Simulation.LandsOnLabelIff`).
- The empty string takes a second index, because index 0 reads as absent (`TextSegs.EmptyTakesTwo`).
- A string of 65536 bytes or more does not come back from a file (`ByteIO.TextRoundTripIff`). A symbol that is
  missing where the program is loaded silently becomes the all-ones index (`ProgramImage.SymbolFoundIff`).
- Returning below the frame in which a catcher was installed and then calling again leaves a throw with frames
  other than those of the installation (`Unwinding.DropAndRegrow`).
- A function or handler at address 0 of another program is not entered, but the next jump of the thread goes into that
  program (`Unwinding.AlignedIff`, `Unwinding.FunctionAtZero`).
- A nested run is watched by the height of a call stack. While another thread's nested run is on top, the first
  thread can return and go on; afterwards its call stack need not be what it was (`NestedRuns.UnwatchedReturn`). It is
  what it was if and only if the frames above the lowest height of the run were called again as they were
  (`NestedRuns.RunRestoresIff`).
  A caught exception reaches its handler unless the innermost run is its thread's own and its catcher was installed at
  exactly the height at which that run started: then the run ends and sets the thread back to the instruction that
  started it (`NestedRuns.HandlerReachedIff`, `NestedRuns.OuterHandlerReachedIff`).
- A reader whose lag is a multiple of 4096 messages blocks although messages are waiting
  (`MessageQueues.FindsNothingIff`), and one further behind receives newer messages in place of the lost ones
  (`MessageQueues.RunExactIff`, `MessageQueues.OverrunLoses`). A reader blocks its owner. Unless that is the thread that
  reads, it is resumed one instruction short of where it was (`SchedTheorems.OwnerReturnsIff`).
- The bounds check of `_gpeek` never fails on an empty stack (`GenericStacks.GenericStack.Peek`, last clause).
- Collecting a cell does not raise the free counter, so conservation is stated on the list, not on the counter
  (`FreeLists.Allocator.RunAll`); and carving a block of a single cell would count down from zero
  (`FreeLists.Allocator.NewBuf` needs blocks of two cells).

Priorities and instruction counts are unbounded integers: the source subtracts priorities, and the model assumes
that this does not overflow.

## Model

| member | source | states |
|---|---|---|
| SchedModel.RemoveMembers | include/list.h:155-164 | taking a node off a chain without duplicates removes that node and no other |
| SchedModel.InsertKeepsSorted | include/list.h:318-344 | the sorted insert keeps priority order, with arrivals of equal priority in order of arrival |
| SchedModel.UnlinkPlaced | src/vm/thread.c:139-160 | leaving a state takes the thread off its list and leaves all others where they belong |
| SchedModel.AttachPlaced | src/vm/thread.c:161-187 | entering a state puts the thread on exactly the list that state names |
| SchedInv.LockGrantedCore | src/vm/thread.c:220-233 | taking a free or own mutex counts one lock more and keeps lists, owners and counts in order; for a managed mutex it keeps the whole invariant |
| SchedInv.LockBlockedCore | src/vm/thread.c:234-241 | being refused a mutex keeps the whole invariant, with the thread on the waiting list only |
| SchedInv.DrainWakesAll | src/vm/thread.c:256-274 | a full release empties the waiting list into the ready list; it ends the releaser's slice exactly if a woken thread has at least its priority |
| SchedInv.UnlockFacts | src/vm/thread.c:243-277 | an unlock either counts one lock less, or frees the mutex and wakes every waiter: no wakeup is lost, nothing else changes |
| SchedInv.KillCore | src/vm/vm.c:924-948 | killing a thread that is neither blocked nor dead keeps the invariant, wakes its joiners and touches no other mutex |
| SchedInv.AddCore | src/vm/vm.c:835-860 | a new thread enters with its join mutex held by itself, counted, on the ready list, and the invariant is kept |
| SchedInv.ScheduleChooses | src/vm/vm.c:1344-1393 | the choice is a running thread on the running list; it is none exactly when ready and running are both empty |
| SchedInv.ScheduleDominates | src/vm/vm.c:1374-1383 | no thread left ready has a higher priority than a fresh choice |
| SchedCritical.StepInSection | src/vm/vm.c:1348-1353 | the next cycle executes the thread in a critical section, which stays current, running and in it if and only if its instruction is steady: no end of the section, yield, exit, suspension, refused lock, failure or kill of itself |
| SchedCritical.NeverReplaced | src/vm/vm.c:1348-1353 | over any run, whatever arrives, every cycle executes the thread in the critical section until an instruction of its own takes it out |
| SchedRun.ResumeFacts | src/vm/thread.c:307-331 | resuming readies exactly the suspended threads, each two words back, and empties the blocker |
| SchedRun.ExecKept | src/ops/bml_vm.c:486-640 | every threading instruction keeps the invariant and leaves every other thread at rest |
| SchedRun.AdvanceExecuted | src/vm/vm.c:1278-1303 | jumping, hopping or reaching the end of a segment, with the test for a faulty address after each, keeps the invariant and the current thread |
| SchedRun.RunInv | src/vm/vm.c:1408-1472 | over every run of cycles, starts and arrivals: lists and states agree, queues are sorted, counts and the scheduler mode match the live threads |
| SchedRun.BootInv | src/vm/vm.c:493-598 | the machine starts in a state that satisfies the invariant |
| SchedTheorems.OnExactlyOneList | src/vm/thread.c:130-191 | in every reachable state each thread occurs once on the list its state names and on no other |
| SchedTheorems.WaitersWaitForAnother | src/vm/thread.c:220-241 | whoever waits for a mutex waits for a different current owner |
| SchedTheorems.JoinSafety | src/ops/bml_vm.c:597-616 | a thread gets past joining another exactly when that other is a zombie |
| SchedTheorems.StepBystander | src/vm/vm.c:1408-1472 | an event leaves every thread it does not execute alone, or wakes it at the same instruction, or resumes it two words back, or kills it off a list |
| SchedOwn.CycleOwn | src/ops/bml_vm.c:486-640 | what a cycle leaves of its own thread: killed, or with exactly this pending lock, critical flag, address and stack depth, and its slice unless a thread was woken |
| SchedRetry.RunRemembers | src/ops/bml_vm.c:552-616 | over every run of a fixed program, each thread that remembers a lock stands at the instruction of that lock |
| SchedRetry.RetriesTheSame | src/ops/bml_vm.c:552-616 | so what it executes next is that lock or join again, of the lock it remembers |
| SchedRetry.FirstTry | src/ops/bml_vm.c:525-616 | the first try of a lock or join pops its operand, if that is on the stack, and gets through or stays at the same instruction |
| SchedRetry.RetryRun | src/ops/bml_vm.c:525-616 | over any run in which it is refused, the thread stays at the instruction and pops nothing more |
| SchedRetry.LastTry | src/ops/bml_vm.c:525-616 | a retry that gets through hops to the next instruction and pops nothing |
| SchedTheorems.SuspendHops | src/vm/thread.c:299-305 | a suspension leaves the thread blocked, one instruction past the one that suspended it |
| SchedTheorems.OwnerReturnsIff | extension/MessageQueue/message.c:160-173 | a thread that is suspended by a reading thread, and later resumed, is where it was if and only if it is the reading thread itself; any other is one instruction short of it |
| SchedTheorems.SuspendedStep | src/vm/thread.c:299-331 | a suspended thread stays as it is until it is resumed at the instruction that suspended it |
| SchedTheorems.SuspendedRun | src/vm/thread.c:299-331 | over any run, a suspended thread stays as it is or becomes ready at the instruction that suspended it |
| SchedLaws.StepHold | src/vm/thread.c:220-277 | each event changes what a thread holds of a mutex by exactly the locks it got minus those it released |
| SchedLaws.LedgerBalances | src/vm/thread.c:220-277 | over any run from the start, a mutex's count is its owner's outstanding locks, and nobody else has any |
| SchedLaws.MutualExclusion | src/vm/thread.c:220-241 | over any run, at most one thread has outstanding locks of a mutex |
| SchedLaws.UnlockPreempts | src/vm/thread.c:264-272 | after a non-critical thread's release wakes a thread of at least its priority, the next chosen thread has at least the woken one's |
| SchedWake.ResumeSlice | src/vm/thread.c:307-331 | resuming ends the slice of the current thread if and only if a resumed thread has at least its priority, and touches no other slice |
| SchedWake.ResumePreempts | src/vm/thread.c:316-321 | after a non-critical thread resumes a thread of at least its priority, the next chosen thread has at least the resumed one's |
| SchedWake.ArrivalPreempts | src/vm/thread.c:307-331 | the same for what arrives from outside, with or without a current thread |
| SchedWake.ResumeOrder | src/vm/thread.c:307-331 | of the resumed threads, the ones suspended later are ready earlier |
| SchedWake.SuspendsLast | src/vm/thread.c:299-305 | a suspended thread is the last of its blocker |
| SchedWake.DrainOrder | src/vm/thread.c:256-274 | the waiters of a released mutex become ready in the order in which they wait |
| SchedWake.SliceAfterChoice | src/vm/vm.c:1344-1393 | a thread that keeps running has one cycle less, any other choice starts with a full slice |
| SchedWake.ReadyGoesFirst | src/vm/vm.c:1374-1383 | a fresh choice goes on with a running thread only if it is of a higher priority than every ready one; else the head of the ready list runs |
| SchedWake.MovesOn | src/vm/vm.c:1278-1297 | an instruction that asks nothing leaves its thread current at the next address, and changes nothing else |
| SchedWake.EndsDead | src/vm/vm.c:1286-1300 | who exits, reaches the end of the segment or a faulty address is dead at the end of the cycle |
| SchedWake.YieldGivesUp | src/ops/bml_vm.c:632-640 | a yield leaves the thread ready at the next instruction and nobody current |
| SchedWake.MisuseKillsIff | src/ops/bml_vm.c:568-595 | releasing a mutex of another thread, or entering or leaving a critical section twice, kills the thread; proper use does not |
| SchedWake.MakesFresh | src/ops/bml_vm.c:520-524 | a new mutex is free without waiters, a new blocker holds nobody, and the handle is pushed |
| SchedWake.CycleLength | src/ops/bml_vm.c:30-34 | only the instruction that sets the slice changes its length, and only to a positive one |
| SchedWake.SpawnStarts | src/ops/bml_vm.c:486-494 | a spawned thread is ready at the address that the instruction names |
| SchedWake.FirstCycleAtStart | src/vm/vm.c:835-878 | over any run, the first cycle of a started thread executes the instruction at the address it was started with |
| SchedLaws.KillKeepsListsIff | src/vm/vm.c:924-936 | of any thread at all: a kill keeps the lists in order if and only if the victim is neither blocked nor already dead |
| SchedFair.BoundedWaiting | src/vm/vm.c:1344-1424 | over cycles of any instructions that leave the ready and running lists as they are and no running thread in a critical section, each of `n` running threads is executed within `n` times the slice |
| SchedFair.QuietStep | src/vm/vm.c:1348-1366 | one such cycle executes the thread whose turn it is and moves the turn as a round robin does |
| Threads.DList.InsertTail | include/list.h:105-114 | chains a node at the end, with all links consistent |
| Threads.DList.InsertByPriority | include/list.h:318-344 | the pointer version of the sorted insert, search loop included, gives the sorted sequence |
| Threads.DList.UnchainAt | include/list.h:155-164 | unlinking head, tail or middle removes that node and keeps all links consistent |
| VmOps.SetThreadState | src/vm/thread.c:130-191 | the change of state on the linked lists refines `SetState` |
| VmOps.LockMutex | src/vm/thread.c:220-241 | the lock on pointers refines `MutexLock`, and says whether it was granted |
| VmOps.WakeOne | src/vm/thread.c:261-273 | one turn of the release loop refines `WakeHead` |
| VmOps.UnlockMutex | src/vm/thread.c:243-277 | the unlock with its loop refines `MutexUnlock` |
| VmOps.Suspend | src/vm/thread.c:299-305 | refines `BlockerSuspend` |
| VmOps.Resume | src/vm/thread.c:307-331 | the loop over the suspended threads refines `BlockerResume` |
| VmOps.ChooseThread | src/vm/vm.c:1344-1393 | the round-robin choice over pointers refines `Schedule` |
| VmOps.StartThread | src/vm/vm.c:835-878 | creating and chaining a thread refines `AddThread`; the new objects only join the old ones |
| VmOps.Kill | src/vm/vm.c:924-948 | refines `KillThread` |
| VmRun.Execute | src/ops/bml_vm.c:486-640 | every threading instruction on the heap refines `Exec`, failures included |
| VmRun.DispatchOp | src/vm/vm.c:1402-1424 | choosing by the scheduler of the mode, idle or round robin, and using up one unit of the slice, refines `Dispatch` |
| VmRun.CycleOp | src/vm/vm.c:1408-1472 | executing, moving on and burying a dying thread refines `CycleOf` |
| VmRun.RunAll | src/vm/vm.c:1408-1472 | over every run on the heap, all previous, next, head and tail links agree with the snapshot, which the run leads to and which satisfies the invariant |
| VmRun.RunFromBoot | src/vm/vm.c:493-598 | so from the start of the machine |
| Assembler.LabelToOfs | src/compiler/opcode_chain.c:170-183 | finds the offset of the first declaration of a label, or 0 |
| AssemblerLaws.AtoiReads | src/compiler/opcode_chain.c:219-236 | a decimal number, signed or not, reads as itself, whatever follows its digits |
| AssemblerLaws.AtoiSkips | src/compiler/opcode_chain.c:201-204 | blanks before a number do not count, and a text without a number reads as 0 |
| AssemblerLaws.SignIsOffset | src/compiler/opcode_chain.c:231-236 | a sign, and only that, makes a label argument an offset |
| AssemblerLaws.RepeatAt | src/compiler/opcode_chain.c:191-218 | a datum is emitted as often as its count says, its type before its value |
| AssemblerLaws.DatumEmitted | src/compiler/opcode_chain.c:322-344 | a data node emits its datum, typed, as often as its count says |
| AssemblerLaws.IntegerEmitted | src/compiler/opcode_chain.c:201-204 | an integer argument is emitted as its value, a negative one as its complement |
| AssemblerLaws.OthersEmit | src/compiler/opcode_chain.c:252-264 | every opcode emits two words, but for those that are only noted |
| AssemblerLaws.RequestsAreNotes | src/compiler/opcode_chain.c:237-264 | the libraries and requirements noted are the arguments of the two pseudo-opcodes, in order |
| AssemblerLaws.StringsAre | src/compiler/opcode_chain.c:191-264 | the interned strings are the strings of the nodes that have one, in order |
| Assembler.PlaceLabels | src/compiler/opcode_chain.c:286-315 | after the first pass every label resolves to its address, and the label table has each label once, with the offset of its first declaration |
| Assembler.TableAgrees | src/vm/program.c:414-434 | the label table leads a declared label that is new to the program to the address that jumps to it are computed for |
| LabelTables.TableKeepsFirst | src/vm/program.c:414-423 | of several entries of a new label the table keeps the first |
| Assembler.WriteNode | src/compiler/opcode_chain.c:191-264 | one node emits its code, data or request and interns its string, or fails exactly when it is not legal |
| Assembler.Write | src/compiler/opcode_chain.c:322-344 | the second pass appends the code and data of the whole chain and interns its strings, libraries and requires |
| Assembler.Assemble | src/compiler/opcode_chain.c:286-344 | both passes: the program and its label table grow by what the chain denotes |
| Simulation.AddressOfPlace | src/compiler/opcode_chain.c:170-183 | the first pass and the search by name find the same declaration |
| Simulation.FirstDeclarationWins | src/compiler/opcode_chain.c:170-183 | of several declarations of a label the first is the target, at the place where it splits the instructions |
| Simulation.LandsOnLabelIff | src/compiler/opcode_chain.c:219-236 | a label argument leads to its label if and only if as many pseudo-opcodes precede both |
| Simulation.UndeclaredLabel | src/compiler/opcode_chain.c:182-182 | an undeclared label leads to address 0, less the words that pseudo-opcodes reserved |
| Simulation.CycleSimulates | src/vm/vm.c:1278-1303 | one cycle of the emitted code does what one step of the chain by label name does, wrapped words included |
| Simulation.RunSimulates | src/compiler/opcode_chain.c:286-344 | any number of cycles of the emitted code simulates as many symbolic steps |
| Simulation.JumpAgreesIff | src/vm/vm.c:1278-1297 | exactly when a jump, a call or the removal of a catcher means the same in the emitted code and in the chain |
| Simulation.StoredAgreesIff | src/ops/bml_vm.c:436-439 | exactly when the installation of a catcher, a new function or a new thread does |
| Simulation.ReachesIff | src/vm/vm.c:174-196 | exactly when a throw to a handler, or the call of a function, goes on there |
| Simulation.OffsetAgreesIff | src/ops/bml_vm.c:289-299 | exactly when a computed jump, or any instruction with an offset, leads to the instruction that many words away |
| Simulation.StraysIff | src/vm/vm.c:1280-1297 | the simulation leaves out exactly the computed jumps and offsets that lead to address 0 |
| Simulation.SkipTakenIff | src/ops/bml_vm.c:264-281 | `SZ` passes over the next instruction exactly on zero, `SNZ` exactly on anything else; both pop one value |
| ChainLaws.RetValKeepsTop | src/ops/bml_vm.c:390-408 | a return with a value keeps the top over `n` dropped values, leaves those below alone, and goes one past the call |
| ChainLaws.RetDrops | src/ops/bml_vm.c:411-430 | a return drops `n` values, leaves those below alone, and goes one past the call |
| ChainLaws.LastReturnDies | src/ops/bml_vm.c:404-430 | a thread that returns without having been called dies |
| ChainLaws.CallReturns | src/ops/bml_vm.c:311-430 | a call, anything above its frame, and the return: one past the call, with the old call stack; a returned value is the callee's top |
| ChainLaws.ThrowCuts | src/vm/vm.c:174-196 | a throw takes the last catcher, cuts the calls to its height and goes to the handler; without a catcher it is a fault |
| ChainLaws.ThrowReachesHandler | src/vm/vm.c:174-196 | from an installation to the throw that takes it, over any run above: at the handler, with the calls and catchers of before the installation |
| ChainLaws.FunctionTarget | src/ops/bml_vm.c:315-328 | calling what is on top pops it and goes where it leads; anything but a function is a fault |
| ChainLaws.NamedTargets | src/ops/bml_vm.c:289-371 | a jump and a call go to what their argument names; a call leaves its own place on the call stack |
| ChainLaws.PopTarget | src/ops/bml_vm.c:294-299 | a computed jump pops a word and goes as many words on as it says |
| ChainLaws.NewFunctionLeads | src/ops/bml_vm.c:649-657 | a function that is made and called leads to the label it was made with |
| ChainLaws.RemovalJumps | src/ops/bml_vm.c:446-452 | removing a catcher forgets the last one only, and jumps |
| ChainLaws.OffsetCounts | src/compiler/opcode_chain.c:231-236 | a jump by a signed number of words goes half as many instructions on or back |
| ChainLaws.FaultsIff | src/ops/bml_vm.c:264-468 | an instruction is a fault exactly if it lacks something on the stacks |
| ChainLaws.EndsIff | src/vm/vm.c:1286-1296 | an instruction that does not steer ends the thread exactly if it is the last one |
| ChainLaws.PlainGoesOn | src/vm/vm.c:1278-1297 | any other instruction goes on to the next one and leaves calls, catchers and threads alone |
| Simulation.LoopFromAddressZero | src/vm/vm.c:1280-1297 | a program whose loop starts at address 0 ends instead of looping |
| HashTab.Table.AddElem | include/hashtab.h:139-154 | linking an entry in front of its bucket changes what its key maps to and nothing else, whatever the collisions |
| HashTab.Table.FindElem | include/hashtab.h:159-168 | the search of a bucket finds what the table holds |
| TextSegs.InternKeeps | src/vm/text_seg.c:52-64 | interning keeps the table proper and never moves an index; the text is present afterwards |
| TextSegs.InternAddsIff | src/vm/text_seg.c:52-64 | a text takes a new index if and only if no index but 0 has it |
| TextSegs.EmptyTakesTwo | src/vm/text_seg.c:54-55 | the empty text takes a second index, once |
| TextSegs.OneIndex | src/vm/text_seg.c:73-80 | a text at a non-zero index is found at that index and at no other |
| TextSegs.RebuildIff | src/vm/text_seg.c:88-130 | rebuilding a table in index order gives the same indices if and only if it is proper |
| TextSegs.TextSeg.FindByText | src/vm/text_seg.c:52-64 | the hash table and the index array agree after any insertion |
| TextSegs.TextSeg.TextToIndex | src/vm/text_seg.c:73-80 | looks up the index of a text, all ones if it has none |
| TextSegs.TextSeg.CopyFrom | src/vm/text_seg.c:88-93 | the copy loop interns the other table in index order |
| OpcodeDicts.Unpack | include/vm_types.h:307-322 | a wordcode unpacks to the type and index it was packed from |
| OpcodeDicts.BuiltConsistent | src/compiler/opcode_dict.c:84-131 | from the empty dictionary, every run of additions keeps names, stubs and wordcodes in agreement |
| OpcodeDicts.OptimizedExactly | src/compiler/opcode_dict.c:64-82 | the optimised dictionary holds each opcode of the program once and no other, and every wordcode unpacks to its stub |
| OpcodeDicts.ReloadSame | src/compiler/opcode_dict.c:178-264 | a dictionary written and loaded assigns the same wordcodes |
| ByteIO.WordRoundTrip | src/compiler/abstract_io.c:89-97 | a word comes back from its bytes, and what follows it is untouched |
| FileLayout.BytesLayout | src/compiler/abstract_io.c:132-137 | a word is stored with its lowest byte first |
| FileLayout.WordcodeLayout | include/vm_types.h:307-322 | the upper half of the fourth byte of a wordcode is the type of the argument |
| FileLayout.PairsLayout | src/vm/program.c:311-329 | cell `i` of code or data takes 16 bytes, its opcode word or type before its argument or value |
| FileLayout.HeaderLayout | src/vm/vm.c:745-750 | the bytes that a file starts with |
| FileLayout.FileInOrder | src/vm/program.c:272-330 | libraries, requirements, symbols and strings stand between header and tail, in this order |
| FileLayout.TailInOrder | src/vm/program.c:295-330 | opcodes, labels, code and data make up the tail, in this order |
| ByteIO.TextRoundTripIff | src/compiler/abstract_io.c:109-124 | a NUL-free text comes back if and only if it is shorter than the buffer |
| ByteIO.FileWriter.WriteString | src/compiler/abstract_io.c:147-150 | appends the text and its terminator |
| ByteIO.FileReader.ReadString | src/compiler/abstract_io.c:109-124 | the character loop reads what the parser of texts reads |
| ProgramFile.FileRoundTrip | src/vm/program.c:272-409 | parsing the bytes of a compact program gives the compact program back |
| ProgramParse.AcceptedIff | src/vm/program.c:333-409 | a stream is accepted if and only if it is the printed form of some file, with counts that round to its sizes |
| ProgramParse.Accepted | src/vm/program.c:333-409 | of the file that it is read as |
| ProgramParse.Readable | src/vm/program.c:333-409 | and every such form is read as that file |
| ProgramParse.WritingFatalIff | src/vm/program.c:208-227 | writing a symbol is fatal exactly if its name is empty and has no index but 0 |
| ProgramParse.ReadingFatalIff | src/vm/program.c:229-247 | so is reading one; no other argument is |
| ProgramImage.ArgRoundTrip | src/vm/program.c:208-247 | an argument packed and unpacked means the same: the string's text, the symbol's name |
| ProgramImage.LoadCompact | src/vm/program.c:250-409 | loading a compact program undoes the renumbering of opcodes, strings and symbols |
| ProgramImage.SaveThenLoad | src/vm/program.c:272-409 | from bytes to bytes: a saved program loads with the same stubs in order, the same arguments, labels, data, libraries and requires |
| ProgramImage.SameMachine | src/vm/program.c:229-247 | on the machine that saved it, the loaded program is the saved one |
| ProgramImage.SymbolFoundIff | src/vm/program.c:229-247 | a symbol argument is found again if and only if the loading machine has the symbol |
| ProgramImage.CompactStorable | src/vm/program.c:250-330 | a compact program fits the file format |
| ProgramIO.OpcodeDict.AddOpcode | src/compiler/opcode_dict.c:110-131 | the tables change as `Add` says, with nothing done for a taken name or a null stub |
| ProgramIO.OpcodeDict.Optimize | src/compiler/opcode_dict.c:64-82 | the loop over the code collects the opcodes the program uses |
| ProgramIO.PackArgument | src/vm/program.c:208-227 | packs one argument by its type |
| ProgramIO.Program.OptimizeEnv | src/vm/program.c:250-270 | the loop over the code collects the environment symbols it uses |
| ProgramIO.Program.Save | src/vm/program.c:272-330 | writes exactly the bytes of the compact program, or fails exactly when there is none |
| ProgramLoad.ReadSection | src/vm/text_seg.c:110-130 | the loop over records interns a table as its parser says |
| ProgramLoad.ReadDict | src/compiler/opcode_dict.c:236-264 | the loops over types and names rebuild the dictionary |
| ProgramLoad.ReadLabels | src/vm/program.c:370-381 | the loop over labels rebuilds the label table |
| ProgramLoad.ReadCode | src/vm/program.c:383-397 | the loop over cells unpacks opcodes and arguments |
| ProgramLoad.ReadData | src/vm/program.c:398-407 | the loop over cells rebuilds the data segment |
| ProgramLoad.LoadProgram | src/vm/program.c:333-409 | reading a stream returns the program it denotes, and none if it is malformed |
| Unwinding.StepMatched | src/ops/bml_vm.c:289-468 | every instruction keeps as many closures as there are frames with one |
| Unwinding.PopCuts | src/vm/vm.c:1099-1113 | popping callers leaves the frames below and exactly their closures |
| Unwinding.RestoresIff | src/vm/vm.c:174-196 | a throw restores given stacks if and only if they are still below the current ones |
| Unwinding.ThrowRestores | src/vm/vm.c:174-196 | if the call stack never drops below its height at the installation of a catcher, a throw restores both stacks and resumes at the handler |
| Unwinding.DropAndRegrow | src/ops/bml_vm.c:415-439 | the condition is needed: a return and a call give a throw other frames |
| Unwinding.CallReturns | src/ops/bml_vm.c:315-430 | a call, with a closure or without, any run above its frame, and the return: one instruction past the call in the caller's program, with the old calls and closures |
| Unwinding.FunctionTarget | src/ops/bml_vm.c:315-328 | a called function runs at its code in its program, with its closure on top |
| Unwinding.OffsetTargets | src/ops/bml_vm.c:289-452 | a jump, a call and the removal of a catcher go to their offset in the same program |
| Unwinding.EndsIff | src/vm/vm.c:174-196 | a thread ends exactly if it returns without a caller; a throw or a removal without a catcher is fatal |
| Unwinding.AlignedIff | src/vm/vm.c:1280-1285 | a jump stays in the thread's program if and only if no function or handler at address 0 of another program was entered |
| Unwinding.RunAligned | src/vm/vm.c:1280-1285 | so over any run |
| Unwinding.FunctionAtZero | src/ops/bml_vm.c:315-328 | a function at address 0 is not entered, and the next jump goes into its program |
| Unwinding.Thread.PopCaller | src/vm/vm.c:1099-1113 | the loop pops callers and their closures |
| Unwinding.Thread.RaiseException | src/vm/vm.c:174-196 | the unwinding loop does what `Raise` says |
| Unwinding.Thread.Perform | src/ops/bml_vm.c:289-468 | the instructions that steer change the thread as `Execute` says |
| NestedRuns.LowestAgrees | src/vm/vm_engine.c:196-209 | over any legal run, the frames below the lowest height that a call stack reaches are still there |
| NestedRuns.StartsAndEnds | src/vm/vm_engine.c:183-209 | a run starts at its own place with no jump pending, and its return brings everything back |
| NestedRuns.ThreadsComeAndGo | src/vm/vm.c:835-878 | a thread that starts during a run is there with its registers, one that dies is gone, and nothing else changes |
| NestedRuns.RunRestoresIff | src/vm/vm_engine.c:183-209 | a nested run gives its thread program, instruction pointer and pending jump back, and the call stack if and only if the frames above its lowest height are the old ones |
| NestedRuns.RunRestores | src/vm/vm_engine.c:183-209 | a nested run leaves its thread exactly as it was, whatever other threads do and however deep runs nest, if its call stack never drops below the height of its start |
| NestedRuns.UnwatchedReturn | src/vm/vm_engine.c:199-201 | out of order, a caller can end with other frames than it had |
| NestedRuns.HandlerReachedIff | src/vm/vm_engine.c:199-209 | for a throw by any thread: it ends the innermost run, and misses its handler, if and only if that run is the thread's own and its catcher was installed at the height at which the run started |
| NestedRuns.OuterHandlerReachedIff | src/vm/vm.c:174-196 | a handler from before a nested run is reached from within it if and only if its catcher was installed lower than the run started |
| NestedRuns.HandlerLost | src/vm/vm_engine.c:202-209 | an instance: the handler is in the instruction pointer when the run ends, and is overwritten |
| NestedRuns.Engine.RunSync | src/vm/vm_engine.c:183-209 | the scheduling loop, recursive runs included, uses up the script in order until its thread is back at its height, and no further; what happens inside is a legal run that keeps this one in progress; it restores the saved fields, and the call stack exactly under the condition of `RunRestoresIff` |
| RefCounts.Machine.Collect | src/vm/vm.c:1057-1069 | enters an object in the pending list, once |
| RefCounts.Machine.Uncollect | src/vm/vm.c:1071-1088 | the search loop takes an object off the pending list |
| RefCounts.Machine.RefSlot | include/object.h:114-123 | counts a reference and rescues a pending object |
| RefCounts.Machine.DerefSlot | include/object.h:128-143 | counts a reference off and enters a dead object in the pending list |
| RefCounts.Machine.Push | src/vm/vm.c:964-976 | pushes, with every count still equal to the number of slots that hold the object |
| RefCounts.Machine.Pop | src/vm/vm.c:1047-1055 | pops, counts still exact; the popped object is alive until the sweep |
| RefCounts.Machine.Poke | src/vm/vm.c:1011-1023 | overwrites the top, counts still exact, also for the same object |
| RefCounts.Machine.Dup | src/ops/bml_vm.c:99-106 | copies a slot from below, counts still exact |
| RefCounts.Machine.Swap | src/ops/bml_vm.c:108-121 | exchanges two slots, counts still exact |
| RefCounts.Machine.RetVal | src/ops/bml_vm.c:390-408 | keeps the top over `n` dropped slots, counts still exact |
| RefCounts.Machine.GetMem | src/ops/data.c:36-46 | reads a local or global slot, counts still exact |
| RefCounts.Machine.SetMem | src/ops/data.c:49-74 | writes a local or global slot, counts still exact |
| RefCounts.Machine.Enter | src/ops/bml_vm.c:123-126 | the new locals hold no object |
| RefCounts.Machine.Leave | src/ops/bml_vm.c:128-141 | the loop releases the dropped locals |
| RefCounts.Machine.ArraySet | src/ops/containers.c:109-127 | writes an array slot, growing the array, counts still exact |
| RefCounts.Machine.ArrayGet | src/ops/containers.c:77-97 | replaces an array on top of the stack by one of its slots, counts still exact |
| RefCounts.Machine.GetClosure | src/ops/data.c:98-104 | reads a closure slot, counts still exact |
| RefCounts.Machine.SetClosure | src/ops/data.c:114-127 | writes a closure slot, counts still exact |
| RefCounts.Machine.Sweep | src/vm/vm.c:1452-1469 | frees at most one object, that nothing holds, and releases what an array held |
| RefCounts.Machine.Step | src/vm/vm.c:1408-1472 | an instruction leaves the slots and objects exactly as `SlotMemory.Do` says, and fails exactly where that has no result; counts stay exact |
| RefCounts.Machine.RunAll | src/vm/vm.c:1047-1088 | over any run, up to the first failure and with one sweep after each instruction, the slots are as the instructions leave them, each sweep frees an object that no slot holds if there is one, and counts stay exact |
| SlotMemory.StoreThenFetch | src/ops/containers.c:77-127 | a value stored in an array is what the next fetch of that slot finds |
| SlotMemory.StoreChangesOne | src/ops/containers.c:109-127 | the store changes no other slot, object, local or global, and fills a gap with words |
| SlotMemory.ClosureStoreThenFetch | src/ops/data.c:98-127 | the same for a slot of a closure |
| SlotMemory.SetThenGet | src/ops/data.c:36-74 | a local or global that is set is what a get pushes; every other one is as it was |
| SlotMemory.PushThenPop | src/ops/bml_vm.c:66-97 | a pushed word is on top, popping undoes it, and pops add up |
| SlotMemory.DupThenPop | src/ops/bml_vm.c:78-106 | a copy is the value at its depth, and popping it leaves everything as it was |
| SlotMemory.SwapTwice | src/ops/bml_vm.c:108-121 | exchanging moves two values and no other; twice is nothing |
| SlotMemory.ReturnKeepsTop | src/ops/bml_vm.c:390-408 | a return value replaces itself and the dropped values |
| SlotMemory.NewIsNew | src/vm/objects.c:139-147 | a new object is none that existed, and changes nothing else |
| SlotMemory.EnterShifts | src/ops/bml_vm.c:123-126 | new locals hold no object, and the old ones are found behind them |
| SlotMemory.LeaveShifts | src/ops/bml_vm.c:128-141 | letting go of locals uncovers the ones behind them as they were |
| SlotMemory.LeaveThenEnter | src/ops/bml_vm.c:123-141 | locals entered again show their old words, and 0 where an object was |
| SlotMemory.YieldTwice | src/vm/vm.c:1344-1393 | switching to a thread and back leaves all slots as they were |
| SlotMemory.SlotKept | src/ops/containers.c:109-127 | over any run, a slot of a living object that is not written keeps its value |
| SlotMemory.RanFrees | src/vm/vm.c:1452-1469 | over any run, exactly the objects swept are gone, each swept once |
| GenericStacks.GenericStack.Push | src/containers/generic_stack.c:76-93 | appends a token; the write stays inside the buffer although the growth test compares tokens with bytes |
| GenericStacks.GenericStack.Pop | src/containers/generic_stack.c:95-103 | returns and removes the last token |
| GenericStacks.GenericStack.Peek | src/containers/generic_stack.c:105-115 | on a non-empty stack, finds the token or fails exactly when there is none |
| GenericStacks.GenericStack.Grow | src/containers/generic_stack.c:58-68 | keeps the tokens below; cleared tokens are zero and the clearing stays inside the buffer |
| GenericStacks.GenericStack.Shrink | src/containers/generic_stack.c:70-74 | drops the last tokens |
| DynArrays.ReadsLastWrite | src/containers/dynarray.c:78-107 | over any run of writes each entry reads as the last value written there, or zero, gaps included |
| DynArrays.PutReads | src/containers/dynarray.c:78-97 | a write changes one entry and nothing else that can be read |
| DynArrays.DynArray.Reserve | src/containers/dynarray.c:58-65 | growing keeps the contents and clears what is beyond |
| DynArrays.DynArray.Set | src/containers/dynarray.c:78-97 | writes an entry, growing in quanta as needed |
| DynArrays.DynArray.Get | src/containers/dynarray.c:99-107 | reads an entry, zero beyond the end |
| DynArrays.DynArray.SetAll | src/containers/dynarray.c:78-97 | a run of writes leaves what the run of `Put` leaves |
| MessageQueues.RingHolds | extension/MessageQueue/message.c:139-158 | the ring holds the last 4096 messages, each at its number modulo 4096 |
| MessageQueues.FoundIsLast | extension/MessageQueue/message.c:160-165 | which message a reader finds, and that it is the one it expects exactly up to a lag of 4096 |
| MessageQueues.FindsNothingIff | extension/MessageQueue/message.c:160-173 | a reader that had read all, and then lets others write and read, finds nothing if and only if a multiple of 4096 messages was written meanwhile |
| MessageQueues.Queue.Write | extension/MessageQueue/message.c:139-158 | appends to the log and resumes all blocked readers, last first |
| MessageQueues.Reader.Read | extension/MessageQueue/message.c:160-173 | returns the next message of the log and advances, or blocks |
| MessageQueues.BlockedIff | extension/MessageQueue/message.c:160-173 | a read blocks its owner exactly if its lag is a multiple of 4096 |
| MessageQueues.BlockedUntilWrite | extension/MessageQueue/message.c:139-158 | over any run, whoever is blocked stays so until a message is written, which wakes all |
| MessageQueues.RunAll | extension/MessageQueue/message.c:139-173 | any run of writers and readers on the ring leaves every reader, its messages and the blocked threads as the run on values does |
| MessageQueues.RunFromStart | extension/MessageQueue/message.c:139-173 | from an empty queue, each reader has received the messages since its creation, in order, if and only if it never read after it was overrun |
| MessageQueues.RunExactIff | extension/MessageQueue/message.c:139-173 | over any run of writers and readers, a reader receives exactly the messages since its creation, in order, if and only if it never reads after it was overrun |
| MessageQueues.ExactIsLog | extension/MessageQueue/message.c:139-173 | what such a reader got is the stretch of the log that it went through |
| MessageQueues.OverrunLoses | extension/MessageQueue/message.c:160-165 | a reader further behind receives a newer message first |
| FreeLists.BlockSplit | extension/RTC/rtc_alloc.c:80-102 | a carved block is one cell in use and the rest on the free list, none of them an old cell |
| FreeLists.Allocator.Carve | extension/RTC/rtc_alloc.c:91-98 | the loop threads the cells of a block in order |
| FreeLists.Allocator.Allocate | extension/RTC/rtc_alloc.c:104-126 | hands out a cell that is not in use, from the list or a new block; null exactly if there is neither |
| FreeLists.Allocator.Collect | extension/RTC/rtc_alloc.c:129-137 | chains the cell in front of the free list |
| FreeLists.Allocator.RunAll | extension/RTC/rtc_alloc.c:104-137 | over any run the live cells are distinct, with the free list they are all cells ever carved, they are the cells that the operations handed out and took back, and each has the word its owner last wrote |
| FreeLists.ReturnThenTake | extension/RTC/rtc_alloc.c:115-137 | a cell that is given back is the next to be handed out |
| FreeLists.WordStays | extension/RTC/rtc_alloc.c:104-137 | a word stays until its cell is written again or given back |
| FreeLists.BlockInOrder | extension/RTC/rtc_alloc.c:80-122 | a block is handed out cell by cell in order of address |

## Left out

- Compiling source text, walking syntax trees and the compile vectors (src/compiler/ape_compiler.c): they rest on a library that is not part of this model.
- Foreign code: `dlopen`, file search and the execution of `require` and `loadlib`. Finding an opcode by name is a parameter (`resolve`).
- The engine on OS threads and its locks, the IO extension, the timer and its queue.
- `setjmp` and `longjmp`: an assertion that fails kills the thread in `SchedRun`, and is a precondition elsewhere.
- Virtual objects, classes, overrides, sets, maps, floats, string opcodes and dynamic casts: they add easy members, or are stubs.
- Endian swapping and the in-memory reader and writer: the file reader and writer carry the round trip.
- Reference counts of thread objects, of the saved exception value and of queued messages: `RefCounts` counts stacks, locals, data segment and arrays. Killing a thread is not one of its steps.
- The single-thread scheduler `_sched_mono`: no entry of the scheduler table names it.
- Simulation.CycleSimulates: one program at a time, without closures; what is not control is a parameter (`Isa`). Arguments that are used as targets must be declared labels with no pseudo-opcode between, and not at address 0, which is where the code itself goes wrong (`JumpAgreesIff`, `StoredAgreesIff`, `ReachesIff`, `OffsetAgreesIff`).
- SchedRun.ExecKept: a program does not kill a blocked or dead thread and does not end a segment, or reach a faulty address, with a suspension; `SchedLaws.KillKeepsListsIff` says why the first matters.
- SchedFair.BoundedWaiting: every event is a cycle that leaves the two lists, the slice and the absence of critical sections among running threads as they are, as the bound fails otherwise; no more than one slice is left to the current thread.
- SchedRetry.RetryRun: an address is one number for a segment and an offset.
- VmRun.RunAll: a program's pointers to threads, mutexes and blockers are names that a table of live objects resolves. Arrival numbers, which order equal priorities, are ghost.
- Assembler.WriteNode: the address of an interned string is a function of its text; floats and characters are looked up.
- ProgramIO.OpcodeDict.AddOpcode: the four hash tables of a dictionary are maps; `HashTab` proves that such tables are.
- ProgramImage.SaveThenLoad: strings are NUL-free and shorter than 65536 bytes, symbols exist and are not empty, no data word is a managed object or a symbol, and opcode names resolve to their own stubs.
- OpcodeDicts.Unpack: shifts and masks are written as products and remainders.
- MessageQueues.Reader.Read: what the scheduler does with a blocked owner is in `SchedTheorems.SuspendedStep` and `SchedTheorems.OwnerReturnsIff`.
- NestedRuns.Engine.RunSync: each event names the thread that its cycle executes; which one the scheduler chooses is not part of the state. The loop does not create or kill threads; the runs of the lemmas do.
- FreeLists.Allocator.Collect: the locks, and the early return on null that leaves the lock held, are not modelled.
- RefCounts.Machine.ArraySet: array slots are values, not byte pairs of a growing array; `DynArrays` has the growth.
- GenericStacks.GenericStack.Push: below 2^32 tokens.
