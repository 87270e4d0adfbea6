# Verified models of the concurrency and parsing components

This project models ten independent components in Dafny and proves what each of them is for.
Each component is one module or a few, named after it. Run `dafny verify dfyconfig.toml` to check
everything.

Sequential code with loops and fields is modelled by methods and classes proved against
specification functions. Concurrent code is modelled as a step system: every atomic load, store,
compare-and-exchange, exchange, lock operation and system call is one step, any thread may take
the next one, and the results hold in every state that any sequence of steps reaches. Auxiliary
state variables (owners, tickets, logs) are only written by steps and never influence modelled code.

- `SubsetSum` - meet-in-the-middle search for two disjoint non-empty index sets of equal sum, with
  its eight worker threads.
- `LinearAlgebra`, `WordMatrix`, `LoopSyntax`, `LinearForm`, `LoopProgram`, `LoopInterpreter`,
  `LoopPrinter`, `LoopTokenizer`, `LoopText` - the loop language of `matrix-3.0`: text to tokens to expressions to linear forms
  to transition matrices, against a step-by-step interpreter, modulo 2^64.
- `HazardPtr`, `LockFreeStack`, `SyncMap` - hazard-pointer reclamation, and the lock-free stack and
  the snapshot map built on it. The allocator may hand out a freed address again.
- `Mpmc` - the generation-stamped ring buffer.
- `Executor` - tasks with dependencies, triggers, deadlines, cancellation and shutdown.
- `MatrixChain` - the matrix-chain optimiser of `matrix-2.0`.
- `HashTable`, `StripedLocks` - the chained hash map, first under its locks, then with them.
- `FutexMutex` - the three-state futex mutex.
- `TimerHeap`, `FiberMutex` - the fiber library's timer heap, and its mutex, condition variable
  and wait queue.
- `RespNumbers`, `Resp`, `RespConnection`, `RespWire` - the RESP reader, writer, and the client and server framing.

Where the code and a natural reading of its documentation differ, the model follows the code:

- A missing operand in an expression is accepted and counts as 0: an empty right-hand side
  (`LoopSyntax.EmptyExpressionParses`), a dangling operator (`LoopSyntax.DanglingOperatorParses`),
  an empty pair of parentheses (`LoopSyntax.EmptyParenthesesParse`). `LoopSyntax.MissingOnLine`
  gives the exact condition on the tokens of the line.
- Dequeue of the ring buffer may report "empty" although completed values are stored behind a slow
  writer (a run: `Mpmc.EmptyWithValues`), and Enqueue "full" although there is room behind a slow
  reader (a run: `Mpmc.FullWithoutValues`): `Mpmc.EmptyMeans` and `Mpmc.FullMeans` give the exact
  conditions. A ring of size 1 never accepts anything: `Mpmc.OneSlotRefuses`.
- `ReadInt` rejects a leading space only; other leading white space and a plus sign are accepted
  (`Resp.PlusAccepted`, `Resp.TabAccepted`). `Resp.ParseIntExact` says which bytes are accepted.
- A task whose Push passes the test for a closed queue just before Close can enter the queue after
  the workers have gone and stays Enqueued for ever (a run: `Executor.TaskLeftBehind`).
  `Executor.ShutdownLoss` gives the exact condition.

## Model

| member | source | states |
|---|---|---|
| SubsetSum.FindEqualSumSubsets | subset-sum/find_subsets.cpp:211-230 | success is reported exactly when two disjoint non-empty index sets with equal sums exist, and the lists returned are such a pair |
| SubsetSum.SearchComplete | subset-sum/find_subsets.cpp:89-152 | if any pair exists, the half-enumeration with one combination per sum still leaves a zero sum on the left or a match between the halves |
| SubsetSum.BothHalves | subset-sum/find_subsets.cpp:128-144 | a pair that uses both halves is met by a kept combination, directly or negated |
| SubsetSum.PartnerFound | subset-sum/find_subsets.cpp:130-143 | whatever combination the map kept for a sum, it passes the two-groups test where the discarded one would have |
| SubsetSum.NothingToFind | subset-sum/find_subsets.cpp:224-229 | when every choice of the right half was rejected there is no pair at all |
| SubsetSum.MergeSound | subset-sum/find_subsets.cpp:80-87 | two halves with opposite sums and two groups overall merge into an equal-sum pair |
| SubsetSum.MixedGroups | subset-sum/find_subsets.cpp:33-34 | the two-groups flag holds exactly when both groups are non-empty |
| SubsetSum.Complement | subset-sum/find_subsets.cpp:134 | complementing the variant negates the signed sum and keeps the two-groups flag |
| SubsetSum.RecordStep | subset-sum/find_subsets.cpp:93-101 | recording one more variant keeps every entry true and every earlier sum represented, preferring two groups |
| SubsetSum.PairToSigns | subset-sum/find_subsets.cpp:216-217 | an equal-sum pair is a sign vector over both halves of weight zero with both signs present |
| SubsetSum.ComputeSum | subset-sum/find_subsets.cpp:20-39 | the signed sum of the chosen entries under the variant's bits, and whether both bit values occur |
| SubsetSum.MakeIndicesFromChoice | subset-sum/find_subsets.cpp:41-55 | the positions of the set bits, shifted |
| SubsetSum.SplitIndicesIntoTwoGroups | subset-sum/find_subsets.cpp:57-72 | the indices whose variant bit is 1, and the others |
| SubsetSum.ComputeChoice | subset-sum/find_subsets.cpp:89-107 | adds sound entries only, replaces only to gain two groups, and records every variant unless a zero pair appeared |
| SubsetSum.ComputeSumMap | subset-sum/find_subsets.cpp:109-121 | the map is sound, and complete unless it already holds a zero pair |
| SubsetSum.CheckChoice | subset-sum/find_subsets.cpp:123-152 | a pair that merges soundly, or nothing only if no variant of the choice matches the map |
| SubsetSum.WorkerStep | subset-sum/find_subsets.cpp:159-171 | one step of a worker between flag tests: what it has swept stays rejected, the first to raise the flag publishes |
| SubsetSum.StartWorkers | subset-sum/find_subsets.cpp:178-199 | the eight ranges tile all choices |
| SubsetSum.FinishedSwept | subset-sum/find_subsets.cpp:201-203 | workers that all finish without raising the flag have rejected every choice |
| SubsetSum.RunWorkers | subset-sum/find_subsets.cpp:188-205 | under every schedule of the workers: a good pair, or every choice rejected |
| SubsetSum.FindSuitableCombination | subset-sum/find_subsets.cpp:174-209 | a good pair, or every choice rejected, on the sequential and the threaded path |
| LinearAlgebra.MulAssociative | matrix-2.0/matrix.h:147-160 | the product computed by the triple loop is associative |
| WordMatrix.Multiply | matrix-3.0/matrix.h:82-95 | the matrix product modulo 2^64 |
| WordMatrix.WMulAssociative | matrix-3.0/matrix.h:82-95 | products modulo 2^64 are associative |
| WordMatrix.Pow | matrix-3.0/matrix.h:117-129 | binary exponentiation equals the k-fold product for every exponent, 0 included |
| WordMatrix.PowRound | matrix-3.0/matrix.h:120-126 | one round of the loop keeps the accumulated product times the remaining power |
| LoopSyntax.BuildConstant | matrix-3.0/expression.h:59-81 | reads the same operand as the grammar and leaves the cursor after it, inside the line |
| LoopSyntax.BuildMul | matrix-3.0/expression.h:96-108 | products as the grammar has them, grouped to the left |
| LoopSyntax.BuildSum | matrix-3.0/expression.h:141-159 | sums as the grammar has them, grouped to the left, binding weaker than products |
| LoopSyntax.ParsePrinted | matrix-3.0/expression.h:59-159 | parsing the tokens of any printed expression tree gives that tree back: precedence and left associativity |
| LoopSyntax.EmptyExpressionParses | matrix-3.0/expression.h:59-81 | a line without operands parses as a missing operand |
| LoopSyntax.DanglingOperatorParses | matrix-3.0/expression.h:141-159 | an operator with nothing behind it parses, with a missing right operand |
| LoopSyntax.EmptyParenthesesParse | matrix-3.0/expression.h:59-81 | an empty pair of parentheses parses as a missing operand |
| LoopSyntax.SumMissing | matrix-3.0/expression.h:59-159 | a parsed tree has a missing operand exactly when, among the tokens it was read from, an operand position is followed by a token that starts no operand |
| LoopSyntax.MissingOnLine | matrix-3.0/expression.h:59-159 | the same for the expression at a position of a line: the exact condition for a missing operand |
| LinearForm.Evaluate | matrix-3.0/expression.h:83-185 | the coefficients of the expression, or failure, as the specification has them |
| LinearForm.CoeffsSound | matrix-3.0/expression.h:83-185 | the coefficients applied to any state give the expression's value modulo 2^64 |
| LinearForm.CoeffsDefined | matrix-3.0/expression.h:116-139 | evaluation fails exactly when some product has two operands that both depend on a variable |
| LinearForm.ConstantIffNoVariables | matrix-3.0/expression.h:121-132 | variable coefficients all vanish exactly when the expression has the same value in every state |
| LinearForm.MultiplyForms | matrix-3.0/expression.h:116-139 | the product of two forms, one of them constant; None when neither is |
| LoopProgram.AssignStep | matrix-3.0/interpreter.h:75-105 | multiplying a state by an assignment's matrix executes the assignment, for =, +=, -= and *= |
| LoopProgram.CompileSound | matrix-3.0/interpreter.h:44-147 | for every accepted program, nested loops included, start state times matrix equals running every statement and iteration |
| LoopProgram.RepeatSound | matrix-3.0/interpreter.h:136-138 | the k-th power of a body's matrix executes the body k times |
| LoopProgram.CompileDefined | matrix-3.0/interpreter.h:75-103 | a matrix is built exactly for the programs whose assignments are all linear |
| LoopInterpreter.ReadLine | matrix-3.0/interpreter.h:53-74 | the statement on the line, or None where the source throws; LoopPrinter.LineExact says which lines these are |
| LoopInterpreter.BuildTransform | matrix-3.0/interpreter.h:76-103 | the matrix of an assignment, or None where the source throws |
| LoopInterpreter.Interpreter.TakeBody | matrix-3.0/interpreter.h:120-130 | moves exactly the deeper lines that follow out of the program, in order |
| LoopInterpreter.Interpreter.LoopStep | matrix-3.0/interpreter.h:106-138 | the power of the body's matrix, None for an empty or rejected body |
| LoopInterpreter.Interpreter.CalculateTransformMatrix | matrix-3.0/interpreter.h:44-147 | the compiled matrix of the lines, None exactly where the source throws |
| LoopInterpreter.GatherVars | matrix-3.0/interpreter.h:14-25 | numbers the variables in order of first occurrence |
| LoopInterpreter.CompileMeaning | matrix-3.0/interpreter.h:155-165 | the zero vector times the matrix is the row of values that stepwise execution gives, and both are defined for the same programs |
| LoopPrinter.RunWritten | matrix-3.0/interpreter.h:44-173 | for every program over named variables with loop bodies: its lines run exactly if it is linear, and each variable then has the value of executing it on names |
| LoopPrinter.ParseWritten | matrix-3.0/interpreter.h:44-147 | every program, written with its operators and indentation, parses back to itself |
| LoopPrinter.LineExact | matrix-3.0/interpreter.h:53-118 | exactly which token lines are assignments with =, +=, -= and *=, loops, or blank; any other is rejected |
| LoopPrinter.ProgramExact | matrix-3.0/interpreter.h:44-147 | lines form a program exactly when each is a statement where it stands, loop heads are followed by a line one level deeper, and other lines by none deeper |
| LoopPrinter.AssignmentsMean | matrix-3.0/interpreter.h:75-105 | what the four assignments leave in the variable, modulo 2^64 |
| LoopPrinter.PlusLineRuns | matrix-3.0/interpreter.h:87-89 | the program `x += n` leaves n modulo 2^64 |
| LoopPrinter.MinusLineRuns | matrix-3.0/interpreter.h:90-93 | the program `x -= n` leaves -n modulo 2^64 |
| LoopPrinter.TimesLineRuns | matrix-3.0/interpreter.h:94-103 | the program `x = m`, `x *= n` leaves the product modulo 2^64 |
| LoopPrinter.LoopAdds | matrix-3.0/interpreter.h:106-138 | a loop of k rounds around `x += n` adds k times n modulo 2^64 |
| LoopInterpreter.Run | matrix-3.0/interpreter.h:160-173 | the values of all variables after stepwise execution, None exactly where the source throws |
| LoopTokenizer.Tokenizer.Consume | matrix-3.0/tokenizer.h:64-129 | fewer than four spaces, then a token spelled by the consumed text, as long as possible; four spaces are a tab |
| LoopTokenizer.Tokenizer.Tokenize | matrix-3.0/tokenizer.h:29-61 | the program is exactly the lines of the text's token stream: split at ends of line, tabs kept in front and dropped elsewhere, empty lines dropped, the last line closed |
| LoopTokenizer.LinesDetermined | matrix-3.0/tokenizer.h:29-129 | a text has one token stream and one sequence of lines: breaks, indentation and content |
| LoopTokenizer.LinesShaped | matrix-3.0/tokenizer.h:29-61 | every line has tabs only in front and an end of line only at the end, and the lines hold all other tokens in order |
| LoopTokenizer.RunProgram | matrix-3.0/interpreter.h:155-173 | from text to variable values, equal to stepwise execution of the lines that the text determines |
| LoopText.RunText | matrix-3.0/interpreter.h:155-173 | running the text of any program with identifiers, 64-bit numbers and loop bodies succeeds exactly if it is linear, and leaves in every variable the value of executing it on names |
| LoopText.TextLines | matrix-3.0/tokenizer.h:29-129 | lines written as characters, four spaces a tab, are what the tokenizer splits the text into |
| LoopText.SomeText | matrix-3.0/tokenizer.h:64-129 | the tokens of the text `x + = 3` |
| HazardPtr.ReclamationSafe | hazard-ptr/hazard_ptr.h:24-103 | in every run of any client that keeps the discipline an acquired, unreleased object is not deleted, and every Retire is in the free list, the scanner's list or deleted once |
| HazardPtr.ScanReclaims | hazard-ptr/hazard_ptr.h:55-88 | in every run a scan frees every pointer retired before it took the list, except exactly those it read from a hazard variable |
| HazardPtr.ScanCanFree | hazard-ptr/hazard_ptr.h:55-88 | from every reachable state without a scan, a scan can run to its end and free any retired pointer in no registered thread's hazard variable |
| HazardPtr.AcquireWorks | hazard-ptr/hazard_ptr.h:24-37 | Acquire of a published object by a registered thread returns and guards it |
| HazardPtr.ReleaseWorks | hazard-ptr/hazard_ptr.h:39-42 | Release gives up the guard and empties the hazard variable |
| HazardPtr.ValidateInv | hazard-ptr/hazard_ptr.h:24-37 | when the second load in Acquire sees the same pointer, the object is protected from any scan under way |
| HazardPtr.DeleteFirstInv | hazard-ptr/hazard_ptr.h:76-81 | what a scan deletes is retired, guarded by nobody, and leaves both lists |
| HazardPtr.KeepFirstInv | hazard-ptr/hazard_ptr.h:82-86 | a pointer found hazardous returns to the free list and stays counted once |
| HazardPtr.ScanInv | hazard-ptr/hazard_ptr.h:55-88 | every step of a scan keeps the protection of guards and the bookkeeping of retired pointers |
| HazardPtr.UnregisterInv | hazard-ptr/hazard_ptr.cpp:10-29 | a thread that has released may leave without exposing anyone's object |
| HazardPtr.RunInv | hazard-ptr/hazard_ptr.h:24-103 | the invariant holds after every run |
| LockFreeStack.StackSafe | lock-free-stack/stack.h:10-48 | in every interleaving no freed node is read, each successful CAS acts on the top of one abstract stack, and Pop reports what it took |
| LockFreeStack.NothingFreedIsUsed | lock-free-stack/stack.h:10-48 | in every run the node a thread is about to read and the one a scan is about to free are allocated |
| LockFreeStack.StackLinearizable | lock-free-stack/stack.h:10-48 | the effects of all operations, in order, are a legal history of a plain stack ending in the present contents |
| LockFreeStack.CallTakesEffectOnce | lock-free-stack/stack.h:10-48 | a Push, Pop or Clear that returns took effect exactly once since it was called, as the event its value tells |
| LockFreeStack.CallCompletes | lock-free-stack/stack.h:10-48 | in every reachable state, however stale what it has read, a thread that runs alone finishes its call |
| LockFreeStack.IdleProtectsNothing | lock-free-stack/stack.h:18-33 | in every run a thread outside Pop keeps no node from being freed |
| LockFreeStack.PushCasInv | lock-free-stack/stack.h:10-16 | a successful Push CAS puts the value on top |
| LockFreeStack.PopCasInv | lock-free-stack/stack.h:24-29 | a successful Pop CAS takes the top value off even if the address was freed and reused before |
| LockFreeStack.PopValueInv | lock-free-stack/stack.h:31 | the value read after the CAS is the one that was on top |
| LockFreeStack.ClearCasInv | lock-free-stack/stack.h:37-41 | a successful Clear CAS empties the stack at once |
| LockFreeStack.RetireInv | lock-free-stack/stack.h:33-46 | retiring a node that was taken off keeps every other thread's variables meaningful |
| LockFreeStack.StepInv | lock-free-stack/stack.h:10-48 | every step of every thread keeps the invariant and refines the abstract stack |
| SyncMap.MapLinearizable | sync-map/sync_map.h:43-125 | in every interleaving no freed snapshot is read, and the operations in order of effect are a legal history of one insert-only map equal to snapshot plus mutable map |
| SyncMap.NothingFreedIsUsed | sync-map/sync_map.h:43-125 | in every run the snapshot a thread is about to read and the one a scan is about to free are allocated |
| SyncMap.CallTakesEffectOnce | sync-map/sync_map.h:43-125 | a call that returns took effect exactly once since it was made, with the result it returns |
| SyncMap.CallCompletes | sync-map/sync_map.h:43-125 | in every reachable state with the mutex free a thread that runs alone finishes its call |
| SyncMap.PromotionExact | sync-map/sync_map.h:61-84 | in every run a lookup that searches the mutable map makes a clean snapshot of everything exactly when it is the 15th, and otherwise only counts |
| SyncMap.OperationsCounted | sync-map/sync_map.h:76-119 | in every run the counter is the number of searches of the mutable map since the last new key or promotion |
| SyncMap.IdleProtectsNothing | sync-map/sync_map.h:47-56 | in every run a thread that is not reading the snapshot keeps none from being freed |
| SyncMap.QuickSound | sync-map/sync_map.h:47-59 | an answer given from the snapshot alone is right for the abstract map at the moment of Acquire |
| SyncMap.LockedAnswer | sync-map/sync_map.h:61-123 | what the critical section decides is the right answer |
| SyncMap.PromoteInv | sync-map/sync_map.h:77-79 | merging the maps for the 15th locked lookup leaves the abstract map as it was |
| SyncMap.PublishInv | sync-map/sync_map.h:80-113 | storing a promoted snapshot changes nothing, storing the first dirty snapshot adds just the new key |
| SyncMap.InsertMutableInv | sync-map/sync_map.h:103-123 | an insertion under the lock adds its key once, or nothing if present |
| SyncMap.RetireOldInv | sync-map/sync_map.h:81 | the replaced snapshot is retired once and is no longer current |
| SyncMap.StepInv | sync-map/sync_map.h:43-125 | every step keeps the invariant and either decides one operation rightly or leaves the abstract map alone |
| SyncMap.OneEvent | sync-map/sync_map.h:43-125 | within one call the operation takes effect at most once, with a result it then keeps |
| Mpmc.QueueSafe | fast-queue/mpmc.h:24-66 | in every interleaving 0 <= tail - head <= N, claims act on one first-in first-out queue, the Dequeue of a position returns the value of its Enqueue, and slots are accessed exclusively |
| Mpmc.CallTakesEffectOnce | fast-queue/mpmc.h:24-66 | in every interleaving an Enqueue that returned true appended its value exactly once since its call, one that returned false nothing; a Dequeue removed from the front just the value it returned, or nothing |
| Mpmc.QueueLinearizable | fast-queue/mpmc.h:24-66 | the claims, in order, are a legal history of one first-in first-out queue of N places |
| Mpmc.MaskIsRemainder | fast-queue/mpmc.h:26 | masking with size - 1 is the remainder for a power of two |
| Mpmc.FullTest | fast-queue/mpmc.h:28-37 | Enqueue's test on a stale tail fails exactly when that tail is current and the slot still serves the previous round |
| Mpmc.EmptyTest | fast-queue/mpmc.h:50-59 | Dequeue's test on a stale head fails exactly when that head is current and nothing is published there |
| Mpmc.EnqSlotFree | fast-queue/mpmc.h:32-40 | when the CAS on the tail succeeds the slot is free for that very position and owned by nobody |
| Mpmc.DeqSlotStored | fast-queue/mpmc.h:54-62 | when the CAS on the head succeeds the slot holds the value sent to that very position |
| Mpmc.Exclusive | fast-queue/mpmc.h:40-64 | two threads never access the value of one slot at once |
| Mpmc.EmptyMeans | fast-queue/mpmc.h:50-52 | nothing is found exactly when the queue is empty or its front is still being written |
| Mpmc.FullMeans | fast-queue/mpmc.h:28-30 | no room is found exactly when the queue is full or the slot's last reader is not done |
| Mpmc.QuiescentTests | fast-queue/mpmc.h:28-59 | with no thread between claim and release the two tests mean full and empty |
| Mpmc.EmptyWithValues | fast-queue/mpmc.h:50-52 | a run in which an Enqueue has returned, two values are in the queue, and a Dequeue finds nothing |
| Mpmc.FullWithoutValues | fast-queue/mpmc.h:28-30 | a run in which the queue holds nothing and an Enqueue finds no room behind a slow Dequeue |
| Mpmc.OneSlotRefuses | fast-queue/mpmc.h:28-30 | in every run of a queue constructed with a single slot no Enqueue succeeds and no Dequeue returns a value |
| Mpmc.StepInv | fast-queue/mpmc.h:24-66 | every step keeps the invariant, refines the queue and reports exactly |
| Executor.NoTaskStuck | executor/executor/executor.cpp:76-103 | with no thread midway through Submit, Complete, Fail or Cancel no task is Submitted although its dependencies have all finished, a trigger has finished, or it has no condition |
| Executor.CounterNeverUnderflows | executor/executor/executor.cpp:166-187 | the dependency counter is positive whenever it is decremented, however often a dependency finishes |
| Executor.BodyRunsRightly | executor/executor/executor.cpp:16-30 | a body about to run has not run, was submitted, and has its condition met |
| Executor.OutcomesRight | executor/executor/executor.cpp:18-30 | in every run a task is Completed only if its body ran and returned, Failed only if it ran and threw, Canceled only if somebody cancelled it or a closed queue turned it away |
| Executor.BodyDecides | executor/executor/executor.cpp:219-232 | unless cancelled, a task whose body returned is Completed and one whose body threw is Failed, once its state has been set |
| Executor.ReadyTasksRun | executor/executor/executor.cpp:51-232 | with all work done and no timer due, every submitted, uncancelled task whose dependencies have finished, one of whose triggers has finished, whose deadline has passed or that had no condition has run once and ended as its body did |
| Executor.AtMostOnce | executor/executor/executor.cpp:18-30 | no body runs twice |
| Executor.CanceledNeverRuns | executor/executor/executor.cpp:19-21 | in every run a task cancelled before the worker's check never runs |
| Executor.FinishedForever | executor/executor/executor.cpp:219-232 | in every run a finished state never returns to an unfinished one |
| Executor.ShutdownLoss | executor/executor/executor.cpp:242-277 | once the queue is closed, its tasks cancelled, the workers gone and all else at its end, an enqueued task that nothing else is about to finish is left so exactly when its Push had passed the closed test and not yet entered the queue |
| Executor.TaskLeftBehind | executor/executor/executor.cpp:242-277 | a run in which this happens |
| Executor.ShutdownRecorded | executor/executor/executor.cpp:58-61 | in every run the queues are closed exactly since they were closed, and the time is that of the last tick |
| Executor.ZeroMeansDone | executor/executor/executor.cpp:135-137 | a counter at zero means every dependency has finished |
| Executor.EnqueCasInv | executor/executor/executor.cpp:199-209 | the CAS that enqueues a task happens once and only with its condition met |
| Executor.SetStateInv | executor/executor/executor.cpp:219-232 | finishing a task keeps every submitted and ready task attended to |
| Executor.NotifyStepInv | executor/executor/executor.cpp:166-184 | telling one dependent or triggered task keeps all bookkeeping exact |
| Executor.NotifyAdvances | executor/executor/executor.cpp:166-187 | OnFinished tells one dependent or triggered task at each step and ends when all are told |
| Executor.AddDependencyInv | executor/executor/executor.cpp:76-88 | attaching a dependency counts it exactly when it is unfinished |
| Executor.AddTriggerInv | executor/executor/executor.cpp:90-103 | attaching a trigger raises the flag at once exactly when it has finished |
| Executor.TimerWakeInv | executor/executor/executor.cpp:33-42 | the timer thread enqueues only tasks whose deadline has passed |
| Executor.PushCheckInv | executor/executor/executor.cpp:242-250 | pushing to a closed queue cancels instead and keeps all bookkeeping exact |
| Executor.StepInv | executor/executor/executor.cpp:51-318 | every step keeps all invariants |
| MatrixChain.FromGlue | matrix-2.0/matrix.h:175-190 | fails exactly on a size clash, otherwise gives the left-to-right product with as few scalar multiplications as the best parenthesisation |
| MatrixChain.ComputeOptMultNum | matrix-2.0/matrix.h:122-145 | fills the entry and the parts it needs with least costs and best splits, although zero-cost entries look uncomputed |
| MatrixChain.MultiplicateMatrices | matrix-2.0/matrix.h:162-172 | the left-to-right product of the range, at exactly the least cost |
| MatrixChain.DotProduct | matrix-2.0/matrix.h:147-160 | the matrix product, and the number of scalar multiplications it took |
| MatrixChain.ProductSplit | matrix-2.0/matrix.h:162-172 | every split of a compatible chain gives the same product |
| MatrixChain.MinCostLower | matrix-2.0/matrix.h:122-145 | no parenthesisation is cheaper than the recorded minimum |
| MatrixChain.MinAttained | matrix-2.0/matrix.h:122-145 | some parenthesisation costs exactly the recorded minimum |
| MatrixChain.BestOfAll | matrix-2.0/matrix.h:139-144 | the cheapest of the outermost splits is the least cost over all parenthesisations |
| MatrixChain.ValueIsProduct | matrix-2.0/matrix.h:27-36 | an expression has a value exactly when neighbours fit, and it is the product of the flattened operands |
| MatrixChain.DFS | matrix-2.0/matrix.h:27-36 | the operands from left to right |
| MatrixChain.SizesFit | matrix-2.0/matrix.h:180-184 | true exactly when all neighbours fit |
| HashTable.HashMap.constructor | hash-table/concurrent_hash_map.h:21-37 | an empty table whose mutex count is its initial size |
| HashTable.ListsCountOk | hash-table/concurrent_hash_map.h:23-32 | the initial table is not empty and holds the expected size at the load factor |
| HashTable.HashMap.Insert | hash-table/concurrent_hash_map.h:39-63 | adds the pair exactly when the key is absent, reports so, and doubles the table exactly when the load exceeds the factor |
| HashTable.HashMap.Erase | hash-table/concurrent_hash_map.h:65-77 | removes the key and reports whether it was present |
| HashTable.HashMap.Find | hash-table/concurrent_hash_map.h:95-108 | the stored value exactly when the key is present |
| HashTable.HashMap.Clear | hash-table/concurrent_hash_map.h:79-93 | empties the map and keeps the table size |
| HashTable.HashMap.Rehash | hash-table/concurrent_hash_map.h:170-203 | doubles the table, changes no pair and no size, and leaves every bucket strictly sorted and holding exactly the keys of its index |
| HashTable.HashMap.FindPosInList | hash-table/concurrent_hash_map.h:126-146 | the place where the key is or belongs |
| HashTable.HashMap.InsertIntoList | hash-table/concurrent_hash_map.h:148-157 | inserts at the place that keeps the order unless the key is present |
| HashTable.HashMap.EraseFromList | hash-table/concurrent_hash_map.h:159-168 | removes the entry of the key if there is one |
| HashTable.StoresMove | hash-table/concurrent_hash_map.h:182-193 | moving an entry between buckets changes no pair and no count |
| HashTable.SplittingMove | hash-table/concurrent_hash_map.h:179-197 | an entry that moves while a bucket is split goes to the new half, and the others stay where they belong |
| HashTable.SplitDone | hash-table/concurrent_hash_map.h:177-198 | after the pass every key is in the bucket of its hash modulo the doubled size |
| StripedLocks.TableLinearizable | hash-table/concurrent_hash_map.h:39-203 | in every interleaving the calls in order of effect are a legal history of one plain map; outside a rehash or clear the bucket lists store exactly that map, sorted and by hash; with no mutex held the counter is the number of entries in the buckets |
| StripedLocks.CallTakesEffectOnce | hash-table/concurrent_hash_map.h:39-108 | an Insert, Erase, Find or Clear that returns took effect exactly once since it was called, with the answer it returns |
| StripedLocks.CallCompletes | hash-table/concurrent_hash_map.h:39-203 | in every reachable state with all mutexes free a thread that runs alone finishes its call |
| StripedLocks.AloneReturns | hash-table/concurrent_hash_map.h:48-63 | behind its update, a thread that runs alone doubles the table exactly when size over table size exceeds 2 and no rehash is flagged |
| StripedLocks.GrowsByDoubling | hash-table/concurrent_hash_map.h:170-203 | in every run the table changes its size only in a Rehash, which doubles it |
| StripedLocks.FoundRight | hash-table/concurrent_hash_map.h:126-168 | what a thread reads where its scan of the bucket stopped is the answer the plain map gives |
| StripedLocks.ApplyTable | hash-table/concurrent_hash_map.h:148-168 | updating the list at that position does to the buckets what the operation does to the plain map |
| StripedLocks.SplitMoves | hash-table/concurrent_hash_map.h:177-198 | each entry that Rehash moves leaves the stored pairs and their number as they were |
| StripedLocks.QuietSize | hash-table/concurrent_hash_map.h:48-50 | with no mutex held the counter equals the number of entries in the buckets |
| StripedLocks.SameBucketSameMutex | hash-table/concurrent_hash_map.h:40-46 | after any number of rehashes keys of one bucket share one mutex |
| StripedLocks.BucketAccessExclusive | hash-table/concurrent_hash_map.h:39-108 | two threads never work on one bucket at once, nor on any while another rehashes or clears |
| StripedLocks.NoDeadlock | hash-table/concurrent_hash_map.h:79-93 | whenever an operation is under way some thread can take its next step |
| StripedLocks.StepInv | hash-table/concurrent_hash_map.h:39-203 | every step keeps lock ownership, the agreement of buckets and plain map, the size bookkeeping and the divisibility of the table size |
| FutexMutex.MutualExclusion | futex/mutex.h:28-47 | at most one thread is between Lock and Unlock |
| FutexMutex.LockEndsHolding | futex/mutex.h:28-47 | in every run exactly the threads that have called Lock and not Unlock are in Lock or hold the lock: a Lock ends only with the lock |
| FutexMutex.FreeLockAtOnce | futex/mutex.h:28-40 | a Lock on a free mutex has it after one step of its thread |
| FutexMutex.FreeMeansUnheld | futex/mutex.h:28-47 | in every run the word is 0 exactly while no thread is between acquisition and release |
| FutexMutex.ContendedLock | futex/mutex.h:30-39 | on a locked mutex Lock marks the word 2 and sleeps on 2 |
| FutexMutex.ContendedUnlock | futex/mutex.h:42-47 | unlocking a contended mutex takes the word from 2 over 1 to 0 and then wakes a sleeper, who tries again |
| FutexMutex.SleepersAreSeen | futex/mutex.h:28-47 | while a thread sleeps the state is 2 or another thread is about to wake a sleeper or to exchange in 2, and not everyone sleeps |
| FutexMutex.FreeLockIsTaken | futex/mutex.h:35-46 | with a sleeper and a free lock, at most two further steps of awake threads hand the lock over |
| FutexMutex.UnlockInv | futex/mutex.h:42-47 | fetch_sub keeps exclusion and leaves a helper for the sleepers |
| FutexMutex.ExchangeInv | futex/mutex.h:32-38 | the exchange keeps exclusion and every sleeper seen |
| FutexMutex.StepInv | futex/mutex.h:28-47 | every step keeps both invariants |
| TimerHeap.TimerHeap.GetMin | tools/cactus/core/timer.cpp:12-18 | a timer with a least deadline, null exactly when none is active |
| TimerHeap.TimerHeap.SiftUp | tools/cactus/core/timer.cpp:61-74 | the sifted array, with every back-pointer right and the same timers active |
| TimerHeap.TimerHeap.SiftDown | tools/cactus/core/timer.cpp:76-95 | the sifted array, with every back-pointer right and the same timers active |
| TimerHeap.Timer.Activate | tools/cactus/core/timer.cpp:31-35 | adds exactly this timer's entry and keeps heap order and back-pointers |
| TimerHeap.Timer.Deactivate | tools/cactus/core/timer.cpp:37-55 | removes exactly this timer's entry, if any, and keeps heap order and back-pointers |
| TimerHeap.SiftedUpOrdered | tools/cactus/core/timer.cpp:61-74 | sifting up repairs an array whose only wrong edge is above the start |
| TimerHeap.HoleFilled | tools/cactus/core/timer.cpp:45-51 | after sifting a replacement down only the edge above it may be wrong |
| TimerHeap.DeactivatedOk | tools/cactus/core/timer.cpp:45-54 | removal leaves a heap with every other entry |
| TimerHeap.RootIsLeast | tools/cactus/core/timer.cpp:12-18 | the root of a heap has a least deadline |
| FiberMutex.WakeupNeverLost | tools/cactus/internal/wait_queue.cpp:11-39 | in every run a free mutex with waiting fibers has a woken locker in the run queue, and every linked waiter's fiber is still parked there |
| FiberMutex.WokenLockerActs | tools/cactus/sync/mutex.cpp:30-43 | the woken locker takes the free mutex, or if it throws another locker is woken |
| FiberMutex.MutualExclusion | tools/cactus/sync/mutex.cpp:30-43 | in every run where only the holder unlocks or waits, at most one fiber is between its return from Lock or Wait and its Unlock, and the mutex is locked exactly while there is one |
| FiberMutex.CallOutcome | tools/cactus/sync/mutex.cpp:30-63 | in every run a Lock, Wait or resumption waits only for a taken mutex or a notification, throws only for an unguarded cancellation or timeout and never on a free mutex, and otherwise has the mutex |
| FiberMutex.LockUnlock | tools/cactus/sync/mutex.cpp:30-43 | a Lock on a free mutex makes its caller the fiber inside, its Unlock frees the mutex |
| FiberMutex.FlagsAndRunQueue | tools/cactus/core/scheduler.h:77-104 | cancellations, guards, timeouts and the run queue change exactly as the calls say; an exception for a timeout uses the timeout up |
| FiberMutex.PendingThrows | tools/cactus/core/scheduler.h:77-104 | a parked, unguarded fiber that is cancelled or timed out is runnable at once and leaves with an exception |
| FiberMutex.ResumeThrowsInv | tools/cactus/internal/wait_queue.cpp:19-28 | a cancelled or timed-out fiber that had been woken passes the wakeup on |
| FiberMutex.NotificationsConserved | tools/cactus/sync/mutex.cpp:45-63 | in every run each notification was delivered, was lost, or is carried by exactly one parked fiber, every woken waiter carries one, and the numbers add up |
| FiberMutex.NotificationsHandedOn | tools/cactus/sync/mutex.cpp:45-63 | in every run a step leaves a notification with its carrier, delivers it, or on an exception hands the same one to the first other waiter; a new one goes to the first waiter, of NotifyAll one to each |
| FiberMutex.LostOnlyWhenNobodyWaits | tools/cactus/sync/mutex.cpp:53-63 | a notification lost in a run was lost at a step at which nobody besides the running fiber waited, being new or carried by that fiber as it threw |
| FiberMutex.DeliveredToItsCarrier | tools/cactus/sync/mutex.cpp:53-63 | a delivered notification reached the fiber that carried it as that fiber took the free mutex |
| FiberMutex.SettledForever | tools/cactus/sync/mutex.cpp:45-63 | a notification is delivered or lost once and for all |
| FiberMutex.EnterInv | tools/cactus/core/scheduler.h:77-104 | parking, or throwing at the first check, keeps the queues exact and no wakeup lost |
| FiberMutex.UnlockInv | tools/cactus/sync/mutex.cpp:38-43 | unlocking wakes the first locker and keeps the invariant |
| FiberMutex.StepInv | tools/cactus/internal/wait_queue.cpp:11-45 | every step of every fiber, with cancellation and timeouts at any time, keeps the invariant |
| RespNumbers.StollOfToString | redis/resp-reader/resp_reader.cpp:67-80 | every 64-bit number is read back from its decimal text to the last character |
| Resp.TakeLineExact | redis/resp-reader/resp_reader.cpp:20-47 | the line reader accepts exactly the lines without CR and LF inside, ended by CR LF, of at most 65471 bytes |
| Resp.ReadsBulk | redis/resp-reader/resp_reader.cpp:82-106 | any bytes survive as a bulk string, and exactly their encoding is consumed |
| Resp.ReadsNullBulk | redis/resp-writer/resp_writer.cpp:40-44 | the null bulk string is read back as null |
| Resp.ReadsInt | redis/resp-writer/resp_writer.cpp:26-30 | every 64-bit integer reply is read back |
| Resp.ParseIntExact | redis/resp-reader/resp_reader.cpp:67-80 | ReadInt accepts exactly white space that does not begin with a space, an optional sign, digits and CR LF, of at most 65471 bytes, with a value in 64 bits |
| Resp.PlusAccepted | redis/resp-reader/resp_reader.cpp:67-80 | a plus sign is accepted |
| Resp.MinusAccepted | redis/resp-reader/resp_reader.cpp:67-80 | a minus sign makes a negative number |
| Resp.TabAccepted | redis/resp-reader/resp_reader.cpp:67-80 | a leading tab is accepted |
| Resp.SpaceRejected | redis/resp-reader/resp_reader.cpp:67-80 | a leading space is not |
| RespConnection.RespReader.ReadUntilCr | redis/resp-reader/resp_reader.cpp:20-40 | the doubling buffer holds the bytes before the first CR without overflow, and gives up exactly at the limit |
| RespConnection.RespReader.ReadBasicStringToBuf | redis/resp-reader/resp_reader.cpp:20-47 | succeeds exactly on acceptable lines, with the line in the buffer and the rest unread |
| RespConnection.RespReader.ReadInt | redis/resp-reader/resp_reader.cpp:67-80 | succeeds exactly where the format allows, with the number and the rest |
| RespConnection.RespReader.ReadArrayLength | redis/resp-reader/resp_reader.cpp:108-121 | succeeds exactly where the format allows, with the length and the rest |
| RespConnection.RespReader.ReadBulkString | redis/resp-reader/resp_reader.cpp:82-106 | succeeds exactly where the format allows, with the bytes or null and the rest |
| RespConnection.ReadCommand | redis/redis-server/server.cpp:65-131 | succeeds exactly on well-formed commands, with the command and the rest |
| RespConnection.CommandRoundTrip | redis/redis-client/client.cpp:20-87 | the server reads every request of the client back and consumes exactly its bytes, whatever follows |
| RespWire.ParseCommandExact | redis/redis-server/server.cpp:65-131 | the server reads a command exactly from a "*2" or "*3" header, the literal name GET, SET, INCR or DECR and its arguments as bulk strings |
| RespWire.RequestWritten | redis/redis-client/client.cpp:14-77 | the bytes of each request, with names, marks and lengths written out |
| RespWire.ReplyWritten | redis/redis-server/server.cpp:133-155 | the bytes of each reply, written out |
| RespWire.ParseReplyExact | redis/redis-client/client.cpp:24-87 | the client accepts exactly these bytes as the reply to each command |
| RespWire.ParseTypeExact | redis/resp-reader/resp_reader.cpp:10-18 | each type is announced by exactly its mark |
| RespConnection.WriteReply | redis/redis-server/server.cpp:133-155 | appends the reply to the outcome, also through the unsigned detour |
| RespConnection.SendRequest | redis/redis-client/client.cpp:20-77 | appends the encoding of the command |
| RespConnection.ReceiveReply | redis/redis-client/client.cpp:24-87 | succeeds exactly on a fitting reply, with its outcome and the rest |
| RespConnection.ReplyRoundTrip | redis/redis-client/client.cpp:24-87 | the client decodes every reply of the server to the same outcome and consumes exactly its bytes |

## Left out

- Weak memory orderings: every atomic access is sequentially consistent.
- Overflow of machine counters and sums, except the arithmetic modulo 2^64 of the loop language and the 64-bit range of RESP numbers; powers of two are exact instead of floating-point.
- SubsetSum: the sums are unbounded integers, and sign variants are integers whose complement `~i` is `-i - 1`.
- HazardPtr: the chain of RetiredPtr nodes is a sequence, a successful CAS on free_list is one push, a failed one changes nothing, and a scan may start at any time instead of when the approximate counter exceeds 15.
- HazardPtr.ReclamationSafe: assumes what the interface asks of users (registered threads, unpublish before Retire, one Retire per object, release before unregistering).
- LockFreeStack and SyncMap: values, keys and mapped values are integers; the destructors are not modelled.
- Mpmc: values are integers; the counters are unbounded.
- Executor: tasks never expire through their weak pointers and the executor's queue stays alive; Complete and Fail are called by the workers only, users call Cancel; dependencies and triggers are attached before Submit.
- Executor: pending pieces of work run as independent activities, so the order inside one thread and the per-task lock are dropped; this only adds interleavings. Close's cancellation of the queued tasks is a Cancel step for each of them. Which due timer is popped first, Wait, errors and futures are not modelled.
- Executor.AddDependencyInv: takes attaching a dependency, which the source does under the dependee's lock, as one step.
- MatrixChain: entries are integers; operators +, - and the running time of recomputed zero-cost entries are not modelled.
- HashTable: keys and values are integers and the hash is any function; mutexes appear in StripedLocks only.
- HashTable.HashMap.constructor: asks for a positive number of lists, which rules out sizes below -1 that make the source's formula zero or negative.
- StripedLocks: insertion into or removal from a list at the position found is one step, and so is the move of one entry by Rehash, which inserts it into its new list and erases it from the old one. At is Find with an exception.
- TimerHeap.Timer.Activate: asks that the timer is inactive, as the source silently does. Expiry in the scheduler loop is not modelled.
- FiberMutex: fiber death, the order of the run queue, Join, Yield and sleeping are not modelled; one mutex and one condition variable stand for many.
- LoopInterpreter: matrices other than products, identity and power (sums, transposition) are not modelled.
- RespConnection: the storage behind the server is an outcome handed to WriteReply; WriteArrayInts, WriteNullArray and the connection loop are not modelled. An allocation that fails for a huge bulk length counts as missing input.
- RespConnection.CommandRoundTrip: keys and values are shorter than 2^63 bytes.
- The other directories of the repository: thin condition-variable wrappers, network tools, type-level exercises and stubs, which would only add easy members.
