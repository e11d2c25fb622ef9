# A five-stage MIPS pipeline with a write-back data cache

The repository is a cycle-accurate simulator of a MIPS core: five pipeline
stages with forwarding, a dynamic branch predictor, speculation and two kinds of
flush (`src/pipe.cpp`), over non-blocking write-back caches with miss registers
(`src/cache.cpp`) and a delayed main memory (`src/base_memory.cpp`). Its
documentation promises that whatever is done to make it faster, registers and
memory match the baseline (`readme.md:109`). This project models the core, the
L1 data cache and main memory, and proves that promise against a sequential
instruction set: the machine computes what the instruction set does, and it gets
to the end of every program that has one.

## How the model is built

- `Words`, `Isa`: machine words, and the sequential instruction set, after
  section 3.2 of "MIPS32 Architecture For Programmers Volume II" with the
  simulator's variations (no delay slots, link address pc + 4, the upper bits of
  a J or JAL target taken from pc and not from pc + 4, no overflow traps,
  HI = LO = 0 after a division by zero). `WordProofs` shows that the word
  operations mean what their names say, and `Encodings` that the fields of an
  instruction word make up the word.
- `PredictorSpec`, `PipeSpec`, `CacheSpec`, `Geometry`: the source's methods as
  transition functions on values, branch by branch.
- `BranchPredictor`, `Pipeline`, `MemoryHierarchy`, `SimulatorLoop`: the
  source's objects. Each is a class whose methods update fields, arrays and
  queues in place with the source's loops, and each method is proved to do what
  the transition function says. `SimulatorRuns.Simulate` builds the whole
  machine and runs it; its contract is the end-to-end result.
- `IsaAgreement`: one op, decoded and executed with program-order operands, has
  the effect of its instruction.
- `PipeSystem`, `PipeInvariant`, `PipeStages`, `PipeCycle`, `PipeRuns`: the
  pipeline between two memories that may refuse any request and answer an
  accepted one at any later time, in any order; an invariant against the run of
  the instruction set; and the results over all runs. `PipeProgress` shows that
  it keeps retiring. `PipeSchedules` shows which final values of HI and LO a
  program can have.
- `BranchTraining`, `BranchTargets`, `Hazards`: what those results do not see,
  because it changes only how fast the pipeline is: how fetch follows the
  predictor, what decode and execute teach it and when they flush, what it holds
  over a whole run; and forwarding, store bypass and stall counts in every state,
  the ones that no run reaches included.
- `CacheInvariant`, `CacheProofs`, `CacheSteps`, `CacheFrames`, `CacheRuns`: the
  cache over main memory services its packets as a flat memory would, with any
  number of them outstanding. `CacheOrder`: it services the packets of a block in
  the order in which it accepted them. `CacheTransparency`: so a read gets what
  the stores accepted before it left there. `CacheTraffic`: what it asks of main
  memory.
- `CacheL1D`: the regime of one request at a time, in which the source's entry
  lookup is right; `CacheTwoMisses`: how it fails outside; `CacheDeadlines`: how
  long a request can take inside. `LoadsAndStores`: what a program sees.
- `Simulation`: core, data cache with the lookup as written, and main memory
  together compute the instruction set. `MachineProgress`: they finish, within a
  number of cycles linear in the length of the program; `PromptFetches`: with an
  instruction memory that always hits, nothing at all is left open.
- `PredictorProofs`: the branch target buffer is a bounded map and the return
  stack a bounded stack. `Limits`, `ZeroTargets`: for the conditions that the
  results ask of a program, exactly when the simulator does without them, and an
  input on which it does not.

The two C++ expressions of execute that the language leaves undefined, a shift
by 32 or more and INT_MIN / -1, are parameters of the model (`PipeSpec.Machine`);
the results hold for every meaning of them because supported programs do not
evaluate them. A failed assertion, a dereference of null or an access outside an
array sets a `crashed` flag; `Assertions` says in which cases, and the results
about runs show that it is never set.

The results about runs assume that the instructions executed are supported
(`Isa.Supported`): jumps do not go to address 0, which marks a branch that decode
has resolved, and a conditional branch may name address 0 only if it is not taken
and its low six bits are not those of a JALR, which decode looks for in any branch
so marked; loads are aligned; variable shifts are below 32; there is no
INT_MIN / -1; and rd is 0 in the encodings of opcode SPECIAL that have no register
result. The results about the whole machine also assume that a load or store lies
in one block of a memory region, as every aligned access to a region does when
blocks are whole words (`Simulation.AccessIsGood`). Behind an exit syscall nothing
is assumed. The value 0xFFFFFFFF, which the predictor uses for a miss, needs no
assumption as a branch target: it only costs a flush. Results about the cache
assume a power-of-two block size and set count, as the address split does, an
access delay of at least 1, and a block size below 256: a block takes its size in
8 bits (`src/block.h:57-61`), so from 256 on it has too few bytes for a fill
(`Geometry.BlockHoldsItsBytesIff`).

Where comments and code disagree the model follows the code. The stall counts
that multiply and divide note, with the comments about their latency
(`src/pipe.cpp:366-367`, `src/pipe.cpp:398-399`), never delay anything
(`PipeStages.NoStall`); with an empty memory stage the only forwarding there is
comes from write back (`PipeStages.OperandExact`); and the store bypass from write
back is never taken (`PipeStages.BypassIsExact`).

## Model

| member | source | states |
|---|---|---|
| `WordProofs.WrapIsModular` | src/pipe.cpp:447-454 | 32-bit arithmetic keeps the exact result modulo 2^32 |
| `WordProofs.SignedIsTwosComplement` | src/pipe.cpp:467-470 | the value of a word as `int32_t` is the one in the signed range that equals it modulo 2^32 |
| `WordProofs.SignExtensionKeepsValue` | src/pipe.cpp:827-850 | sign extension of a byte or a half word keeps the low part and stays in its signed range |
| `WordProofs.BitwiseBit` | src/pipe.cpp:455-464 | every bit of AND, OR, XOR and NOR is that operation on the two operand bits |
| `WordProofs.BitwiseWordBits` | src/pipe.cpp:455-464 | so they are on words, in all 32 bits |
| `WordProofs.ShiftLeftIsProduct` | src/pipe.cpp:326-331 | a left shift is multiplication by a power of two modulo 2^32 |
| `WordProofs.HalvedIsQuotient` | src/pipe.cpp:332-344 | the right shifts are division by a power of two, rounded down, of signed or unsigned values |
| `WordProofs.RightShiftsDivide` | src/pipe.cpp:332-344 | SRL divides the unsigned value of a word by a power of two and SRA its signed value, rounded down |
| `WordProofs.TruncDivision` | src/pipe.cpp:381-392 | DIV: dividend = divisor * quotient + remainder, the remainder is smaller than the divisor and has the sign of the dividend |
| `Encodings.FieldsMakeWord` | src/pipe.cpp:593-603 | with each field in its range, opcode, rs, rt, rd, shift amount and function put together are the instruction word, and so are opcode, rs, rt and immediate, and opcode and jump index |
| `IsaAgreement.InstructionsAgree` | src/pipe.cpp:322-561 | every supported instruction, decoded and executed with program-order operands, gives the instruction set's HI, LO, branch target and, unless it accesses memory, register result |
| `IsaAgreement.ExtractAgrees` | src/pipe.cpp:813-853 | what an aligned load takes out of the aligned word is the little-endian value at its own address, zero-extended, or sign-extended as in SignExtensionKeepsValue |
| `IsaAgreement.WritesAgree` | src/pipe.cpp:204-225 | the bytes of a store packet written one by one are the instruction set's store |
| `IsaAgreement.LoadIsGood` | src/pipe.cpp:193-203 | the word packet of a load, served by a flat memory, holds the value that the instruction set loads |
| `IsaAgreement.StoreIsGood` | src/pipe.cpp:204-225 | the packet of a store, served by a flat memory, performs the instruction set's store |
| `IsaAgreement.LoadCompletes` | src/pipe.cpp:813-856 | a load that took its reply carries its complete result |
| `IsaAgreement.AccessKinds` | src/pipe.cpp:690-711 | exactly loads and stores have a data request, and they start out not tried |
| `IsaAgreement.BytesJoin` | src/pipe.cpp:809-810 | a word read from four little-endian bytes is the word they came from |
| `PipeStages.OperandExact` | src/pipe.cpp:277-303 | whenever execute may proceed, every register reads as its program-order value and none is ever not ready |
| `PipeStages.ExecuteReads` | src/pipe.cpp:305-320 | so the op in execute proceeds, with exactly its program-order operands |
| `PipeStages.NoStall` | src/pipe.cpp:250-253 | no op ever waits on its stall count |
| `PipeStages.BypassIsExact` | src/pipe.cpp:180-188 | store data read in the memory stage is the program-order value, because write back is empty there |
| `PipeStages.FirstTryIsGood` | src/pipe.cpp:190-232 | the request that the memory stage makes is the one of the instruction in program order |
| `PipeStages.AccessWaits` | src/pipe.cpp:190-240 | a load or store stays in the memory stage until its reply, its memory effect and its outstanding request in step with its phase |
| `PipeStages.AccessLeaves` | src/pipe.cpp:174-178 | an op leaves the memory stage complete, with its memory effect done and no request outstanding |
| `PipeStages.MemKeeps` | src/pipe.cpp:166-248 | the memory stage keeps the invariant |
| `PipeStages.WbKeeps` | src/pipe.cpp:139-164 | retiring an op moves the register file on by exactly one instruction |
| `PipeStages.NextOnPath` | src/pipe.cpp:563-577 | where the program goes next, as execute finds it: the target of an unresolved branch, straight on, or the target that decode has resolved |
| `PipeStages.ResolveStays` | src/pipe.cpp:563-573 | after a branch is resolved, fetch is on the program's path or is sent there |
| `PipeStages.ExecuteAdvances` | src/pipe.cpp:250-578 | execute moves the pipeline on by exactly one instruction of the program |
| `PipeStages.PredictionLinks` | src/pipe.cpp:786-794 | a buffer that holds only control transfers never redirects any other instruction: its successor is pc + 4 |
| `PipeStages.UpdateKeepsBtb` | src/pipe.cpp:572 | an update at a control transfer, whatever its outcome, leaves only control transfers in the buffer; `BranchTraining` says which outcomes are entered |
| `PipeStages.DecodePath` | src/pipe.cpp:714-752 | decode keeps the oldest unexecuted op on the path, and a decoded J or JAL is followed by its target |
| `PipeStages.FetchPath` | src/pipe.cpp:754-795 | fetch keeps the oldest unexecuted op on the path |
| `BranchTraining.FetchFollowsBuffer` | src/pipe.cpp:754-795 | when fetch turns to a new instruction, the next pc is what the buffer, as a map, holds for it, unless that is nothing or the mark of a miss: then pc + 4; in any other cycle pc stays |
| `BranchTraining.ExecuteTrains` | src/pipe.cpp:563-573 | a transfer that decode left open enters the next pc of the program in the buffer when the instruction set takes it, if it is there or there is room, and leaves the buffer when it does not; no other instruction changes the predictor in execute |
| `BranchTraining.ExecuteFlushesIff` | src/pipe.cpp:563-571 | execute flushes exactly when the op behind is not at the next pc of the program, and then fetch restarts there |
| `BranchTraining.DecodeTrains` | src/pipe.cpp:714-737 | decode enters J and JAL with the target that their word names, and changes the buffer for nothing else |
| `BranchTraining.DecodeFlushesIff` | src/pipe.cpp:714-749 | decode flushes exactly when the op behind a J or JAL is not at its target, or the return stack gives an address that is neither 0 nor that of the op behind; no conditional branch makes it flush |
| `BranchTraining.CallsPush` | src/pipe.cpp:646-651 | a JAL pushes the address of the instruction behind it on the stack that the buffer stands for |
| `BranchTraining.ReturnsPop` | src/pipe.cpp:738-748 | a JALR, or a branch that decode takes for one, takes the top off, and fetch goes there when it is still in the buffer, unless it is there already or the address is 0 |
| `BranchTraining.OthersKeepStack` | src/pipe.cpp:714-749 | no other instruction changes the stack |
| `BranchTargets.PredictionsAreTargets` | src/pipe.cpp:563-737 | in every state of every run, wrong paths included, no two buffer entries share a pc, the prediction for a J, JAL or conditional branch is the address that its word names, and there is none for an instruction that is no transfer |
| `Hazards.ForwardingIsRetirement` | src/pipe.cpp:277-303 | in any state, forwarding reads a register as it will be when write back and the memory stage have retired, and says not ready exactly when the younger of the two that writes it has no value yet |
| `Hazards.BypassIsRetirementIff` | src/pipe.cpp:180-188 | in any state, the store bypass reads the register as it will be when write back has retired, exactly unless the store is of register 0 and write back would give it another value |
| `Hazards.LatencyNoted` | src/pipe.cpp:347-420 | MULT and MULTU leave execute with a stall count of 4, DIV and DIVU with 32, every other instruction with none |
| `Hazards.StallIsCount` | src/pipe.cpp:250-261 | with a stall count of k and nothing else to wait for, MFHI, MTHI, MFLO or MTLO is in execute for exactly max(k, 1) turns |
| `Hazards.StallHolds` | src/pipe.cpp:407-450 | no other instruction waits for its count |
| `Hazards.MarkedAccess` | src/pipe.cpp:690-711 | decode marks exactly the loads and stores as memory ops, and the stores as writes |
| `Hazards.FetchWaits` | src/pipe.cpp:754-771 | while decode is full or the instruction has not come, fetch asks for nothing new, and a refused request is offered again unchanged |
| `PipeCycle.TailKeeps` | src/pipe.cpp:70-108 | decode, fetch and the flush keep the path and touch nothing older: no flush reaches an executed op |
| `PipeCycle.HaltKeeps` | src/pipe.cpp:65-67 | the cycle that retires an exit syscall stops with registers and memory just after that syscall, and with the pc of the syscall itself |
| `PipeCycle.ExecuteWhileDraining` | src/pipe.cpp:154-159 | behind an exit syscall at most one more op executes; memory and registers stay, HI and LO are those before it or those that it leaves, and if supported it is the next instruction of the program |
| `PipeCycle.CycleKeeps` | src/pipe.cpp:62-109 | one cycle, whatever the memories accept, keeps the invariant, executes no instruction or the next one, and retires the op in write back |
| `PipeCycle.CycleIssues` | src/pipe.cpp:190-238 | the data requests accepted in a cycle are the next ones of the program, each once |
| `PipeRuns.StartHolds` | src/pipe.cpp:34-46 | the initial state satisfies the invariant |
| `PipeRuns.FetchReplyKeeps` | src/pipe.cpp:805-812 | any fetch reply, stale or not, is harmless |
| `PipeRuns.AccessAnswered` | src/pipe.cpp:813-864 | the reply to the accepted request performs the access and completes its op |
| `PipeRuns.DataReplyKeeps` | src/pipe.cpp:813-864 | at most one data request is outstanding, it belongs to the op in the memory stage, and its reply keeps the invariant |
| `PipeRuns.EventKeeps` | src/pipe.cpp:62-109 | every event keeps the invariant and executes at most one instruction |
| `PipeRuns.RunKeeps` | src/pipe.cpp:62-109 | the invariant holds after every sequence of cycles, refusals and replies |
| `PipeRuns.WholeRun` | src/pipe.cpp:62-109 | whole-run equivalence: for every program, memory, predictor and timing, registers, HI/LO, retirement log and data requests are those of the instruction set; a stopped run shows the state just after the exit syscall |
| `PipeRuns.TimingIsInvisible` | readme.md:109 | two runs of one program with different timing or predictors retire the same instructions with the same register files on their common prefix |
| `PipeRuns.StopsAtFirstExit` | src/pipe.cpp:154-159 | a run stops at the first exit syscall of the program |
| `PipeRuns.FinalStateIsUnique` | readme.md:109 | any two stopped runs of a program agree on the pc, all registers, all of data memory, the retired instructions and the memory requests, and on HI and LO when the instruction behind the exit would leave them as they are |
| `PipeRuns.OthersSettle` | src/pipe.cpp:352-445 | only an instruction that writes HI or LO can make the two differ |
| `PipeSchedules.BothOutcomes` | src/pipe.cpp:154-159 | every program that exits can stop with HI and LO as the exit syscall leaves them, and can stop with HI and LO as the instruction behind it leaves them, depending on the memories alone |
| `PipeSchedules.HiLoAgreeIff` | run:39-54 | all stopped runs of a program agree on HI and LO, which the comparison with the baseline includes, exactly when the instruction behind the exit syscall leaves them as they are |
| `PipeSchedules.TimingShowsInHi` | src/pipe.cpp:424-429 | ADDIU of 10 to register 2, SYSCALL, MTHI of register 2: one run stops with HI = 0 and another with HI = 10 |
| `PipeRuns.CompletionIsStep` | src/pipe.cpp:166-248 | completing the op in the memory stage, from whatever phase its access is in, is its instruction's effect on registers and memory |
| `PipeRuns.AbsIsRun` | src/pipe.cpp:62-109 | the completion abstraction of a pipeline state is the state of the instruction set after the executed instructions |
| `PipeRuns.StepRefinement` | src/pipe.cpp:62-109 | every event, those behind the exit syscall included if the op that executes there is supported, maps the completion abstraction to itself or to exactly one instruction step of it; the event that stops the run changes nothing in it but the pc |
| `PipeProgress.ReplyHelps` | src/pipe.cpp:802-872 | a reply never takes the oldest op further from retirement |
| `PipeProgress.CycleOfExecute` | src/pipe.cpp:250-261 | with nothing older in the way the op in execute moves on |
| `PipeProgress.CycleOfDecode` | src/pipe.cpp:580-591 | with nothing older in the way the op in decode moves on and is not flushed |
| `PipeProgress.CycleOfFetch` | src/pipe.cpp:754-795 | with nothing older in the way fetch is neither stalled nor flushed |
| `PipeProgress.CycleAdvances` | src/pipe.cpp:62-109 | a cycle retires an op or brings the oldest one nearer to retirement |
| `PipeProgress.SomethingRetires` | src/pipe.cpp:62-109 | bounded progress: if no request is refused or left unanswered for more than L cycles, an instruction retires within 11 + 4 L cycles from every running state |
| `Limits.StrayDestinationIff` | src/pipe.cpp:616 | a SPECIAL encoding without a result keeps the registers right exactly when rd is 0 or already holds the value the op carries |
| `Limits.StrayDestinationFails` | src/pipe.cpp:616 | MULT with rd = 1 clears register 1 |
| `ZeroTargets.ZeroTargetIff` | src/pipe.cpp:563-573 | when a control transfer executes, the pipeline is on the path behind it exactly when the address it names is not 0, or what was fetched behind it happens to be the right successor |
| `ZeroTargets.ZeroTargetFails` | src/pipe.cpp:715-717 | from the start, J to address 0 followed by a zero word: the pipeline retires the word behind the jump, the instruction set goes to 0 |
| `Limits.AlignedLoadIff` | src/pipe.cpp:813-853 | the extracted value is right in every memory exactly when the load is aligned |
| `Limits.ZeroProgramIsGood` | src/pipe.cpp:322-345 | the conditions on programs can be met for ever |
| `PredictorSpec.FindPc` | src/dynamic_branch_predictor.cpp:36-37 | the first valid entry for the pc, if any |
| `PredictorProofs.TableSize` | src/dynamic_branch_predictor.cpp:60-63 | the buffer is full as a map exactly when no entry is free |
| `PredictorProofs.TargetIsLookup` | src/dynamic_branch_predictor.cpp:35-41 | a prediction is a lookup in the map |
| `PredictorProofs.UpdateIsTable` | src/dynamic_branch_predictor.cpp:52-86 | an update enters, renews or removes one key, and drops an insert when the map is full |
| `PredictorProofs.BufferIsTable` | src/dynamic_branch_predictor.cpp:52-86 | over every sequence of updates the buffer is that bounded map and no two valid entries share a pc |
| `PredictorProofs.PushTracks` | src/dynamic_branch_predictor.cpp:95-99 | a push onto the circular buffer is a push onto an unbounded stack whose youngest values the buffer still has |
| `PredictorProofs.PopTracks` | src/dynamic_branch_predictor.cpp:87-94 | a pop returns the top of that stack while it is intact, and 0 when it is empty |
| `PredictorProofs.CallsAreStack` | src/dynamic_branch_predictor.cpp:87-99 | over every sequence of calls and returns that finds its values intact the returns get what an unbounded stack gives |
| `PredictorProofs.ReturnsGet` | src/dynamic_branch_predictor.cpp:87-99 | after any number of calls the next returns get the youngest addresses while the 8-bit count lasts, and 0 from then on |
| `PredictorProofs.YoungestComeBackIff` | src/dynamic_branch_predictor.cpp:87-99 | after any number of calls the next returns, as many as there are slots, get the youngest addresses in reverse order exactly when there were fewer than 256 calls, or the returns do not exceed the count modulo 256, or the addresses beyond it are 0 |
| `PredictorProofs.PushThenPopIff` | src/dynamic_branch_predictor.cpp:90-98 | a pop reads the slot just pushed exactly when the size is at most 256 or a multiple of it, or the index does not wrap |
| `BranchPredictor.DynamicBranchPredictor.constructor` | src/dynamic_branch_predictor.cpp:11-26 | every entry starts not valid and the stack empty |
| `BranchPredictor.DynamicBranchPredictor.GetTarget` | src/dynamic_branch_predictor.cpp:35-41 | the search loop computes the predicted target |
| `BranchPredictor.DynamicBranchPredictor.Update` | src/dynamic_branch_predictor.cpp:52-86 | the in-place update is the update on values |
| `BranchPredictor.DynamicBranchPredictor.PopRAS` | src/dynamic_branch_predictor.cpp:87-94 | result and new state are those of the pop on values |
| `BranchPredictor.DynamicBranchPredictor.PushRAS` | src/dynamic_branch_predictor.cpp:95-99 | the new state is that of the push on values |
| `Pipeline.PipeState.constructor` | src/pipe.cpp:34-46 | the initial state |
| `Pipeline.PipeState.PipeRecover` | src/pipe.cpp:125-137 | a recovery is scheduled unless an older op has asked for one |
| `Pipeline.PipeState.PipeStageWb` | src/pipe.cpp:139-164 | in place, the write-back transition, over which WbKeeps is proved |
| `Pipeline.PipeState.PipeStageMem` | src/pipe.cpp:166-248 | in place, the memory transition and the request it offers |
| `Pipeline.PipeState.PipeStageExecute` | src/pipe.cpp:250-578 | in place, the execute transition, over which ExecuteAdvances, ExecuteTrains and ExecuteFlushesIff are proved |
| `Pipeline.PipeState.SpecialResult` | src/pipe.cpp:325-476 | the result of opcode SPECIAL by its subopcode: that of InstructionsAgree, in word operations that WordProofs characterises |
| `Pipeline.PipeState.WriteHiLo` | src/pipe.cpp:352-445 | what opcode SPECIAL does to HI and LO |
| `Pipeline.PipeState.ResolveCondition` | src/pipe.cpp:479-513 | whether a conditional branch is taken |
| `Pipeline.PipeState.ImmediateResult` | src/pipe.cpp:515-545 | the result of an immediate instruction |
| `Pipeline.PipeState.DecodeOp` | src/pipe.cpp:593-712 | the fields of an op from its instruction word, cut as in FieldsMakeWord and used as in InstructionsAgree |
| `Pipeline.PipeState.PredictBranch` | src/pipe.cpp:714-749 | jumps resolved, the return stack popped, redirects scheduled |
| `Pipeline.PipeState.PipeStageDecode` | src/pipe.cpp:580-752 | in place, the decode transition, over which DecodePath, DecodeTrains, DecodeFlushesIff, CallsPush and ReturnsPop are proved |
| `Pipeline.PipeState.PipeStageFetch` | src/pipe.cpp:754-795 | in place, the fetch transition and the request it offers, over which FetchPath, FetchFollowsBuffer and FetchWaits are proved |
| `Pipeline.PipeState.PipeCycle` | src/pipe.cpp:62-109 | in place, the cycle over which all run results are proved |
| `Pipeline.PipeState.RecvResp` | src/pipe.cpp:802-872 | in place, what a reply does to the op it concerns |
| `Geometry.MaskIsMod` | src/cache.cpp:80 | AND with a mask of k ones is the remainder modulo 2^k |
| `Geometry.LocationIsSplit` | src/cache.cpp:78-84 | the split of an address is quotient, remainder and remainder for power-of-two sizes |
| `Geometry.AddressIsSum` | src/cache.cpp:86-93 | no step of the 32-bit recombination wraps on a location in range |
| `Geometry.SplitThenJoin` | src/cache.cpp:78-93 | an address is rebuilt from its location |
| `Geometry.JoinThenSplit` | src/cache.cpp:78-93 | every location in range is the split of its address |
| `Geometry.SameBlock` | src/cache.cpp:78-84 | two addresses share tag and set exactly when they share a block |
| `Geometry.BlockHoldsItsBytesIff` | src/block.h:57-61 | a block has room for its bytes exactly when their number is below 256 |
| `CacheSpec.FindWay` | src/cache.cpp:95-104 | the first valid way with the tag, if any |
| `CacheSpec.VictimWay` | src/repl_policy.cpp:22-48 | the victim is the first way that holds nothing, and the one drawn when every way of the set is valid |
| `CacheProofs.ServeKeeps` | src/cache.cpp:206-235 | servicing a packet on its block is servicing it on the flat memory |
| `CacheProofs.WriteBackKeeps` | src/cache.cpp:237-259 | after a write-back, memory with its queue drained holds the evicted block, and every other block as before |
| `CacheProofs.PlacedKeeps` | src/cache.cpp:274-298 | eviction and fill change no byte of the flat memory and keep at most one valid way per tag |
| `CacheSteps.MissJoins` | src/cache.cpp:146-203 | a miss on a block that is on its way waits in that block's entry, or is refused |
| `CacheSteps.MissTakes` | src/cache.cpp:146-203 | a miss on any other block takes a free entry with exactly one block read, or is refused |
| `CacheSteps.WriteBackAccepted` | src/cache.cpp:253-255 | main memory always takes the write-back, because the read being answered has just left its queue |
| `CacheSteps.FillKeeps` | src/cache.cpp:267-342 | an answered block is placed, exactly the packets waiting for it are serviced, in the order in which they joined, its entry is freed, and no assertion fails |
| `CacheSteps.MemServeKeeps` | src/base_memory.cpp:94-152 | main memory serving its front packet keeps the invariant and loses no packet |
| `CacheRuns.HitKeeps` | src/cache.cpp:384-394 | a hit services its packet once |
| `CacheRuns.ReadyIsPrefix` | src/cache.cpp:360-365 | in the sorted queue the ready packets are exactly a prefix, so the partition moves nothing |
| `CacheRuns.CacheTickKeeps` | src/cache.cpp:359-401 | a tick keeps invariant and order, loses no packet and leaves none ready |
| `CacheRuns.EventKeepsHier` | src/cache.cpp:132-144 | every event keeps the invariant of cache and memory |
| `CacheRuns.ServicesAreFlat` | src/cache.cpp:132-401 | over every run, with any number of requests outstanding, every read got what a flat memory holds at its turn among the services, cache and memory hold that flat memory, every accepted packet is pending, in one sub-entry or serviced once, and no assertion fails |
| `Assertions.ReplyFailsIff` | src/pipe.cpp:802-872 | a reply to the core fails exactly for a load that finds no op, a store that does not find its own op, and a packet type that nobody sends |
| `Assertions.DecodeFailsIff` | src/pipe.cpp:719-747 | decode dereferences null exactly when it has an address for the op behind and nothing is in fetch |
| `Assertions.MissFailsIff` | src/cache.cpp:146-204 | a miss fails exactly when it has a block read to make and main memory knows no region for it |
| `Assertions.ReadyFailsIff` | src/cache.cpp:369-394 | a ready packet fails exactly when it hits and leaves its block, or misses and its miss fails |
| `Assertions.FillFailsIff` | src/cache.cpp:267-342 | the reply to a block read fails exactly when main memory does not take the victim, the lookup finds no valid entry, or a waiting packet leaves the block |
| `Assertions.ServiceFailsIff` | src/base_memory.cpp:94-152 | a service of main memory fails exactly on an access that leaves the regions or uses a last byte, a write that is no write-back, a read that is not of one block, or where the reply fails |
| `CacheTraffic.MissAsksForBlock` | src/cache.cpp:178-193 | what a miss asks of main memory is a read of the whole block of its packet, of the packet's type unless that is a write |
| `CacheTraffic.WriteBacksArePaid` | src/cache.cpp:206-259 | over every run from an empty cache, the blocks written back so far, those on their way to memory and those that are dirty are together no more than the writes serviced |
| `CacheOrder.MissOrder` | src/cache.cpp:146-204 | a miss is refused exactly when its block is blocked, else it waits behind every packet of its block; no miss unblocks a block |
| `CacheOrder.ReadyOrder` | src/cache.cpp:369-394 | one ready packet of a tick is serviced, waits or is kept, behind every packet of its block accepted before it, and every kept packet is of a blocked block |
| `CacheOrder.TickOrder` | src/cache.cpp:359-401 | a whole tick keeps the order of the packets of every block |
| `CacheOrder.AnswerOrder` | src/cache.cpp:302-330 | the answer to a block read keeps the order of the packets of every block |
| `CacheOrder.FirstComeFirstServed` | src/cache.cpp:132-401 | over every run and for every block, the packets accepted for it are those serviced, then those waiting in the miss registers, then those in the queue, in the order of acceptance |
| `CacheTransparency.NoOvertaking` | src/cache.cpp:132-401 | along that line the numbers given at acceptance strictly increase |
| `CacheTransparency.ServedInOrder` | src/cache.cpp:132-401 | each serviced packet is one that was accepted, and the packets of its block serviced before it are exactly those accepted before it |
| `CacheTransparency.ReplayIsLastStored` | src/base_memory.cpp:103-105 | the flat memory holds at each address the byte of the last store to it |
| `CacheTransparency.ReadsSeeLastStores` | src/cache.cpp:132-401 | cache transparency: over every run, with any number of requests outstanding, each byte of a serviced read is the byte of the last store to it that the cache accepted before the read |
| `CacheTransparency.SettledBlocks` | src/cache.cpp:132-401 | a block with nothing outstanding holds, in the cache or in memory behind it, exactly what all stores accepted so far left there, in their order |
| `LoadsAndStores.StoredBytes` | src/pipe.cpp:204-225 | a store changes its own bytes to those of its value and no other byte |
| `LoadsAndStores.SameWidthRoundTrip` | src/pipe.cpp:193-225 | SB, SH or SW, then a load of that width, gives the value modulo the number of values of the width, in the signed range for LB, LH and LW and in the unsigned one for LBU and LHU |
| `LoadsAndStores.ByteOfWord` | src/pipe.cpp:832-853 | SW then LBU gets the little-endian byte, and LB the value equal to it modulo 2^8 in the signed range |
| `LoadsAndStores.HalfOfWord` | src/pipe.cpp:821-831 | SW then LHU gets the half word, and LH the value equal to it modulo 2^16 in the signed range |
| `LoadsAndStores.NarrowStore` | src/pipe.cpp:204-217 | SB and SH change their part of a word and keep the rest |
| `CacheL1D.LookupAgreesIff` | src/cache.cpp:302-308 | the entry lookup as written services an answered block as a comparing lookup does exactly when the block's entry is the first one |
| `CacheL1D.SecondMissFails` | src/cache.cpp:302-338 | with two misses outstanding the lookup as written runs into the assertion |
| `CacheTwoMisses.BothOutstanding` | src/cache.cpp:146-204 | on every geometry with two miss registers, two requests to different blocks, the delay and a tick bring the empty cache into that state |
| `CacheTwoMisses.TwoMissesFail` | src/cache.cpp:302-338 | so from the start these two requests stop the simulator, when main memory answers the second |
| `CacheL1D.SingleMiss` | src/cache.cpp:146-204 | with no miss outstanding a miss takes the first entry |
| `CacheL1D.SingleStep` | src/cache.cpp:267-401 | with one request at a time the lookup as written is right, the memory queue holds at most one write-back and then one read, and the request is serviced once |
| `CacheDeadlines.MemTickTimes` | src/base_memory.cpp:94-152 | a tick of main memory leaves nothing ready in its queue, and moves the time a request is due at for no request that it does not answer |
| `CacheDeadlines.CacheTickTimes` | src/cache.cpp:359-401 | nor does a tick of the cache, after which no request is ready and a new miss is not yet due |
| `MemoryHierarchy.FoundContainsIff` | src/base_memory.cpp:83-92 | the region found contains the access exactly when its end does not wrap at 32 bits |
| `MemoryHierarchy.LastByteIsRefusedIff` | src/base_memory.cpp:85-87 | an access inside a region is found unless it uses the region's last byte |
| `MemoryHierarchy.WorkDecreases` | src/base_memory.cpp:94-152 | each service leaves main memory less to do, even when it brings a write-back, so its tick ends |
| `MemoryHierarchy.BaseMemory.constructor` | src/base_memory.cpp:15-28 | every byte starts as 0 |
| `MemoryHierarchy.BaseMemory.GetMemRegion` | src/base_memory.cpp:82-92 | the loop finds the first region that passes the bounds comparison |
| `MemoryHierarchy.BaseMemory.RecvReq` | src/base_memory.cpp:35-75 | a request is queued with its delay unless the queue is full; a request for which no region is found is a fault |
| `MemoryHierarchy.BaseMemory.ReadData` | src/base_memory.cpp:128-135 | the byte loop copies out of the region what the flat memory holds |
| `MemoryHierarchy.BaseMemory.WriteData` | src/base_memory.cpp:103-109 | the byte loop changes the flat memory by exactly the packet's bytes |
| `MemoryHierarchy.BaseMemory.ServeFront` | src/base_memory.cpp:98-142 | the front packet is serviced and answered; an access whose end wraps, which leaves its region, is a fault |
| `MemoryHierarchy.BaseMemory.Tick` | src/base_memory.cpp:94-152 | the loop services packets in order while the front one is ready |
| `MemoryHierarchy.OverwriteData` | src/cache.cpp:121-126 | the copy loop replaces a stretch of bytes and nothing else |
| `MemoryHierarchy.Cache.constructor` | src/cache.cpp:15-52 | an empty cache with free miss registers |
| `MemoryHierarchy.Cache.GetWay` | src/cache.cpp:95-104 | the loop finds the way that holds the block |
| `MemoryHierarchy.Cache.GetVictim` | src/repl_policy.cpp:22-48 | the loop finds a way that holds nothing if there is one |
| `MemoryHierarchy.Cache.RecvReq` | src/cache.cpp:132-144 | a request is queued with its delay unless the queue is full |
| `MemoryHierarchy.Cache.ProcessCacheMiss` | src/cache.cpp:146-204 | in place, the miss transition on which MissJoins and MissTakes are proved |
| `MemoryHierarchy.Cache.ApplyPacketToCacheBlock` | src/cache.cpp:206-235 | in place, the service of a packet on a block |
| `MemoryHierarchy.Cache.WriteBackBlock` | src/cache.cpp:237-259 | in place, the write-back of a dirty block |
| `MemoryHierarchy.Cache.PlaceBlock` | src/cache.cpp:274-298 | in place, eviction and fill |
| `MemoryHierarchy.Cache.ServeSubEntries` | src/cache.cpp:309-328 | the loop services the waiting packets in order |
| `MemoryHierarchy.Cache.RecvResp` | src/cache.cpp:267-342 | in place, the answer to a block read, with the lookup as written |
| `MemoryHierarchy.Cache.ProcessMissing` | src/cache.cpp:372-383 | a ready packet that misses goes to the miss registers or gets a new ready time |
| `MemoryHierarchy.Cache.ProcessPacket` | src/cache.cpp:369-394 | a ready packet is serviced, moved to the miss registers, or given a new ready time |
| `MemoryHierarchy.Cache.EraseReady` | src/cache.cpp:400 | the erase keeps exactly the packets that are not ready |
| `MemoryHierarchy.Cache.Tick` | src/cache.cpp:359-401 | the whole tick on a sorted queue: what is erased is exactly what was serviced or moved to the miss registers |
| `Simulation.CycleOffers` | src/pipe.cpp:190-238 | a cycle offers a data request only when none is outstanding, and then the next one of the program |
| `Simulation.AccessIsGood` | src/pipe.cpp:193-225 | an aligned access to a region, with blocks of whole words, is a request inside one cache block |
| `Simulation.StepSimulates` | src/simulator.cpp:90-105 | every event of core, cache and memory together is an event of the core over a flat memory, or invisible to it |
| `Simulation.RunSimulates` | src/simulator.cpp:90-105 | so is every run |
| `Simulation.SimulatorComputesIsa` | src/simulator.cpp:90-105 | the whole machine computes the instruction set: no assertion fails, the registers are those after exactly the retired instructions, and after the exit the pc is that of the syscall, cache and memory hold the instruction set's memory byte for byte, and HI and LO are those of the syscall or of the instruction behind it |
| `SimulatorLoop.MemoryIsRun` | src/simulator.cpp:94 | a tick of main memory is its services one by one, and the core gets the replies |
| `SimulatorLoop.Simulator.constructor` | src/simulator.cpp:14-78 | the machine starts empty over a zeroed memory |
| `SimulatorLoop.Simulator.Deliver` | src/cache.cpp:392 | replies reach the core in order |
| `SimulatorLoop.Simulator.Cycle` | src/simulator.cpp:90-105 | one clock cycle is the run of its events in the source's order: main memory, cache, core, clock |
| `SimulatorLoop.Simulator.Run` | src/simulator.cpp:109-124 | the loop runs cycles until the count is reached or the program has exited, and its state is the one after that many cycles |
| `MachineProgress.CycleSim` | src/simulator.cpp:90-105 | a cycle of the whole machine is a round of the pipeline between two memories: replies, then one clock cycle with every data request accepted |
| `MachineProgress.CycleTimes` | src/simulator.cpp:90-105 | no cycle leaves a data request unanswered beyond the sum of the two delays |
| `MachineProgress.MachineRetires` | src/simulator.cpp:90-105 | if no fetch waits for more than L cycles, L at least the two delays, an instruction retires within 11 + 4 L cycles of the whole machine |
| `MachineProgress.MachineFinishes` | src/simulator.cpp:109-124 | then a program that exits after n instructions has stopped after n (11 + 4 L) cycles, in the instruction set's final state |
| `PromptFetches.PromptMachineFinishes` | src/simulator.cpp:109-124 | with fetches answered at once it always has, with the two delays as L |
| `SimulatorRuns.Simulate` | src/simulator.cpp:14-124 | built and run for any program, sizes, number of cycles and outside behaviour, the objects end in the instruction set's registers and memory, and they have ended when each instruction was given 11 + 4 L cycles |

## Left out

- PipeState: an op is a value in its slot rather than a heap object that the slots hand on; each stage clears the slot it takes an op from, so no two slots share one, but aliasing as such is not captured.
- PipeCycle: whether the memories accept the requests of a cycle is an argument, and the requests are results, because the source calls its memories through an abstract class; the order within the cycle is the same.
- Cache: blocks and miss-register entries are values in arrays and packets are values in queues; replies to the core are returned and handed over by the simulator after the tick, which nothing in the cache depends on.
- ServeSubEntries: takes the valid sub-entries in their order; the source's partition leaves that order alone because a packet takes the first free slot and all slots are freed together.
- SimulatorLoop.Simulator.constructor: the L2 cache and the L1 instruction cache of the cited lines are not built.
- SimulatorLoop.Simulator.Cycle: the ticks of the L2 cache and of the L1 instruction cache in the cited lines are not modelled; the instruction side answers fetches in their place.
- Simulate: the L2 cache and the L1 instruction cache are replaced by main memory below the data cache and by an instruction memory that answers from the program text; two misses in L2 would reach the lookup of `src/cache.cpp:303`, inclusion is not enforced, and a write-back that misses in L2 is answered into an assertion (`src/cache.cpp:340`).
- Run: `Simulator::go` is `run` without a cycle count; `MachineProgress.MachineFinishes` says when it ends.
- WholeRun: stores do not change the program text, as fetches and data go through different memories; coherence between the two caches and self-modifying code are not modelled.
- FinalStateIsUnique: agreement on HI and LO is false of the code without its condition; `PipeSchedules.HiLoAgreeIff` has the exact condition and `PipeSchedules.TimingShowsInHi` a program.
- CallsAreStack: a return stack of no slots, into which the source writes out of bounds, is not modelled.
- LoadIsGood: unaligned accesses, and accesses that cross a cache block, are outside the results; `Limits.AlignedLoadIff` says what goes wrong first.
- ServeFront: an access whose end wraps at 32 bits leaves the array of its region when it is serviced; the model does not follow the source there but counts it as a failure.
- VictimWay: the random draw is an argument; the LRU and PLRU policies change only local copies of their records (`src/repl_policy.cpp:66-135`), so only the common contract of a victim is modelled.
- Cycle counters, ready times and the retirement count are unbounded, where the source has 32 bits.
- C++ object lifetime: freed ops and packets, packets whose ready time is read after they were deleted, and growth of the queue vector during its iteration.
- Debug reads (`dumpRead`), printing, tracing, configuration files and statistics other than the retirement count.
- The empty next-line prefetcher, the static predictor and the direction predictor, which is constantly "not taken".
