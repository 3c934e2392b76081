# Verified model of the Mintlayer core: scripts, ledgers, traversal and worker loop

A Dafny model of four parts of the Mintlayer node, with proofs over all inputs, all runs or all
interleavings.

**Scripts** (`ScriptNumbers`, `Opcodes`, `ScriptCodec`, `Builder`, `Multisig`, `Interpreter`,
`InterpreterLoop`, `OpcodeMeaning`, `StepMeaning`, `CodecMeaning`, `ScriptTree`, `ItemSizes`, `PushOnly`,
`PushVerify`, `FusionLimits`).
`Interpreter.dfy` gives the meaning of a flat list of instructions on a machine of two stacks and a stack of masks;
`InterpreterLoop.dfy` has the mutable stacks and the loop, each method proved against that meaning;
`OpcodeMeaning.dfy` and `StepMeaning.dfy` say what the meaning is for every opcode, in terms of the items and
numbers on the stack, and how opcodes relate to each other.
The main results: the wrapping number codec is signed-magnitude arithmetic and round-trips; minimal
encoding is a bijection; greedy multi-signature checking decides the existence of an increasing
matching, and its failures are characterised; the counter-and-mask treatment of conditionals is
evaluation of a tree; the interpreter is total; item sizes are bounded in every run; push-only runs
agree with full runs exactly when they should; when exactly fusing an opcode with OP_VERIFY keeps the
meaning of a script.

**Ledgers** (`Accounting`, `Layers`, `OrderPricing`, `Orders`, `OrdersSafety`, `OrdersCache`,
`OrdersOutcomes`, `OrdersLayers`, `Tokens`, `TokensSafety`, `TokensCache`, `TokensOutcomes`,
`TokensLayers`). Caches record signed changes of amounts and before/after pairs of data over a parent view.
Every operation is a plan on the view, an `Effect`, committed to the delta; every undo commits the inverse. The main results: whatever mix of V0 and V1 fills, an order can
always pay what it quotes; every run can be undone in reverse order, in its own cache or any other that
reads alike; conservation and rounding bounds; lock and freeze rules over whole runs; for every operation
and undo, exactly when it is accepted, what then reads differently, and which error is given otherwise; when exactly
flushing any number of layers keeps the view.
Three promises fail without an invariant, and their exact conditions are given:
`OrdersSafety.CreateUndoExactly`, `TokensSafety.MintUndoExactly` and
`TokensSafety.MintReadableExactly`.

**Traversal** (`Postorder`). The explicit-stack traversal over a finite acyclic graph is recursive
depth-first search, and yields a post order of the reachable nodes if and only if no root is reachable from an earlier one.

**Worker loop** (`Subsystem`, `SubsystemService`). The event loop, its lock, its spawned reads and its shutdown as a
transition system in which elementary writes and observations interleave freely. It is left only after
a signal, keeps its priorities, and serves every call it receives.

Conventions. Errors are values of `Result`. Bytes are integers below 256; 64-bit, 128-bit and 32-bit
limits are written out. Keys, signatures, time locks, hashes and the parent views of caches are
arbitrary functions; order and token ids, destinations and tokens are numbers.

Where code and comments of the repository disagree the model follows the code: OP_WITHIN pops the
upper bound, the lower bound and the number, in that order, and tests the half-open range, while the
comment at its opcode names the operands in another order. The comment on data changes says that
combining is not associative when it fails; with the code as it is both sides fail alike
(`Accounting.DeltaLaws`).

## Model

| member | source | states |
|---|---|---|
| `ScriptNumbers.BuildScriptint` | script/src/script.rs:102-128 | the encoding loop ends with the little-endian signed-magnitude bytes of the number, for every `i64` that can be negated |
| `ScriptNumbers.ScriptIntMeansItsNumber` | script/src/script.rs:102-128 | the bytes built for a number, of any size, mean that number |
| `ScriptNumbers.ScriptIntLength` | script/src/script.rs:102-128 | a number fits in `k` bytes exactly when it is below 2^(8k-1) in magnitude |
| `ScriptNumbers.ScriptIntIsShortest` | script/src/script.rs:102-128 | no byte string meaning the same number is shorter than the one built |
| `ScriptNumbers.ReadIsSignedMagnitude` | script/src/script.rs:148-166 | the wrapping 64-bit fold and mask return the signed-magnitude value of every string within the size limit, refuse every longer one, and no sum in the fold overflows |
| `ScriptNumbers.ScriptIntRoundTrip` | script/src/script.rs:102-166 | the 8-byte reader reads back every encoded number with magnitude below 2^63 |
| `ScriptNumbers.ScriptIntFourByteReader` | script/src/script.rs:130-146 | the default reader accepts an encoding exactly when the number is below 2^31 in magnitude, and then returns the number |
| `ScriptNumbers.ReadScriptintRange` | script/src/script.rs:130-146 | whatever the default reader accepts is below 2^31 in magnitude |
| `ScriptNumbers.ReadScriptboolIsNonzero` | script/src/script.rs:168-175 | a byte string of any length is true exactly when its signed-magnitude value is not zero |
| `Opcodes.ClassifyInverts` | script/src/opcodes.rs:664-731 | the class of a byte determines the byte, except among no-ops, returns and disabled opcodes |
| `Opcodes.CategoriesPartition` | script/src/opcodes.rs:667-724 | every byte passes exactly one of the tests, so the lookup that must succeed does; except that the two time locks also pass the test for no-ops, and are classed as time locks because that test comes first |
| `ScriptCodec.ReadUint` | script/src/script.rs:177-188 | reads a little-endian length of the given number of bytes, or fails when there are fewer |
| `ScriptCodec.Instructions.Next` | script/src/script.rs:479-528 | one call of the iterator yields what the first byte announces, keeps the remaining bytes, and drops them all on an error |
| `ScriptCodec.Instructions.Kill` | script/src/script.rs:464-469 | an error ends the iteration: nothing remains to be parsed |
| `ScriptCodec.NextOfEncode` | script/src/script.rs:574-623 | the first instruction of an encoded instruction followed by anything is that instruction, and what follows is left untouched |
| `ScriptCodec.EncodeOfNext` | script/src/script.rs:479-528 | in minimal mode the bytes taken for an instruction are exactly its encoding, and the instruction is minimal |
| `ScriptCodec.ParseOfEncode` | script/src/script.rs:479-623 | parsing an encoded instruction list gives the list back, in either mode that admits it, for pushes below 4 GiB |
| `ScriptCodec.EncodeOfParse` | script/src/script.rs:479-623 | re-encoding what minimal mode parsed gives the same bytes |
| `ScriptCodec.MinimalModeAccepts` | script/src/script.rs:479-623 | minimal mode accepts a byte string exactly when it encodes some list of minimal instructions |
| `ScriptCodec.ReencodingShrinks` | script/src/script.rs:479-623 | re-encoding any script that parses is never longer and parses to the same instructions |
| `ScriptBuilder.Builder.constructor` | script/src/script.rs:532-535 | an empty script with no last opcode |
| `ScriptBuilder.Builder.PushInt` | script/src/script.rs:547-565 | appends the short opcode for -1 and 1 to 16, the empty push for 0, and a data push otherwise; the script stays made of whole instructions |
| `ScriptBuilder.Builder.PushScriptint` | script/src/script.rs:567-572 | appends a data push of the encoded number, whatever its size |
| `ScriptBuilder.Builder.PushSlice` | script/src/script.rs:574-604 | appends the shortest length form and the data, and forgets the last opcode |
| `ScriptBuilder.Builder.PushSliceMinimal` | script/src/script.rs:606-615 | appends the minimal push of the data, using the short opcodes where they exist |
| `ScriptBuilder.Builder.PushOpcode` | script/src/script.rs:617-623 | appends the byte and records it; an opcode complete in itself keeps the script whole |
| `ScriptBuilder.Builder.PushVerify` | script/src/script.rs:625-649 | replaces the last opcode by its fused form where there is one, else appends OP_VERIFY, and records what it put last |
| `ScriptBuilder.DecodeAppend` | script/src/script.rs:479-528 | the instructions of a whole script followed by other bytes are the script's own, then those of the other bytes |
| `ScriptBuilder.IntInstructionPushes` | script/src/script.rs:547-565 | pushing a number leaves its encoding on the stack and is admitted in minimal mode |
| `ScriptBuilder.SliceInstructionPushes` | script/src/script.rs:606-615 | pushing data minimally leaves the data on the stack and is admitted in minimal mode |
| `ScriptBuilder.BuildPushes` | script/src/script.rs:606-615 | building one minimal push per byte string gives the concatenation of their encodings |
| `Multisig.CheckMultisig` | script/src/interpreter.rs:358-393 | the two-iterator loop returns what greedy matching over the remaining signatures and keys returns |
| `Multisig.GreedyDecidesMatching` | script/src/interpreter.rs:358-393 | when the check answers, it answers yes exactly when some strictly increasing map sends every signature to a key that accepts it |
| `Multisig.GreedyFailsExactly` | script/src/interpreter.rs:367-392 | the check fails exactly when a first malformed key is met while the keys before it neither match all signatures nor leave too many unmatched |
| `InterpreterStacks.Stack.Pop` | script/src/interpreter.rs:57-60 | takes the top item off, or fails on an empty stack |
| `InterpreterStacks.Stack.PopBool` | script/src/interpreter.rs:62-65 | pops the truth of the top item |
| `InterpreterStacks.Stack.PopInt` | script/src/interpreter.rs:67-70 | pops the top item as a number of at most four bytes |
| `InterpreterStacks.Stack.Push` | script/src/interpreter.rs:72-75 | puts an item on top |
| `InterpreterStacks.Stack.PushBool` | script/src/interpreter.rs:77-80 | puts the encoding of one or zero on top |
| `InterpreterStacks.Stack.PushInt` | script/src/interpreter.rs:82-85 | puts the encoding of a number on top |
| `InterpreterStacks.Stack.Top` | script/src/interpreter.rs:87-90 | the item a given number of places below the top, or not enough elements |
| `InterpreterStacks.Stack.TopSlice` | script/src/interpreter.rs:92-106 | the items in a range of places below the top, deepest first, or not enough elements |
| `InterpreterStacks.Stack.Drop` | script/src/interpreter.rs:108-113 | takes off a number of items, or fails leaving too few |
| `InterpreterStacks.Stack.Dup` | script/src/interpreter.rs:115-119 | copies a range of items to the top |
| `InterpreterStacks.Stack.Swap` | script/src/interpreter.rs:121-126 | exchanges the top `n` items with the next `n` |
| `InterpreterStacks.Stack.Remove` | script/src/interpreter.rs:128-132 | takes out the item a given number of places below the top |
| `InterpreterStacks.ExecStack.Push` | script/src/interpreter.rs:143-147 | adds a mask and keeps the idle count equal to the number of idle masks |
| `InterpreterStacks.ExecStack.Pop` | script/src/interpreter.rs:149-154 | removes the last mask; the count never goes below zero |
| `InterpreterStacks.ExecStack.IsExecuting` | script/src/interpreter.rs:156-159 | the count is zero exactly when no enclosing branch is masked out |
| `InterpreterLoop.Compute1` | script/src/interpreter.rs:469-474 | the unary closures compute the stated number and never overflow 64 bits on four-byte operands |
| `InterpreterLoop.Compute2` | script/src/interpreter.rs:475-486 | the binary closures compute the stated number, deeper item on the left, and never overflow 64 bits on four-byte operands |
| `InterpreterLoop.OpNum1` | script/src/interpreter.rs:506-511 | replaces the top number by the result, or reports a missing or oversized operand |
| `InterpreterLoop.OpNum2` | script/src/interpreter.rs:513-519 | replaces the top two numbers by the result, or reports the first operand that is missing or oversized |
| `InterpreterLoop.OpWithinRange` | script/src/interpreter.rs:487-492 | pops upper bound, lower bound and number, and pushes whether the number lies in the half-open range |
| `InterpreterLoop.OpHash` | script/src/interpreter.rs:494-526 | replaces the top item by its digest |
| `InterpreterLoop.ExecuteShuffle` | script/src/interpreter.rs:401-443 | the rearranging opcodes leave exactly the items their table entry lists, in that order |
| `InterpreterLoop.ExecuteIndexed` | script/src/interpreter.rs:424-434 | OP_PICK copies and OP_ROLL moves the indexed item to the top; negative and too large indices fail |
| `InterpreterLoop.ExecuteQuery` | script/src/interpreter.rs:444-461 | OP_IFDUP, OP_DEPTH and OP_SIZE push at most one item describing the stack |
| `InterpreterLoop.ExecuteEqual` | script/src/interpreter.rs:462-466 | replaces the top two items by whether they are equal |
| `InterpreterLoop.ExecuteOpcode` | script/src/interpreter.rs:395-504 | every ordinary opcode has the effect of its definition, and the `*VERIFY` forms pop a true item or fail |
| `InterpreterLoop.ExecuteCheckMultisig` | script/src/interpreter.rs:272-296 | reads the counts, keys and signatures from the stack, checks them, requires the empty dummy of BIP 147, and pushes the answer |
| `InterpreterLoop.ExecuteSignature` | script/src/interpreter.rs:257-302 | a plain check is a one-of-one multi-signature check; the verifying forms pop the answer or fail |
| `InterpreterLoop.PopCondition` | script/src/interpreter.rs:308-317 | the popped item decides the branch, with the minimal-condition rule when it is enforced |
| `InterpreterLoop.ExecuteNesting` | script/src/interpreter.rs:303-327 | OP_IF, OP_NOTIF, OP_ELSE and OP_ENDIF change the masks as one step of the flat program does |
| `InterpreterLoop.ExecuteFlat` | script/src/interpreter.rs:235-341 | every other instruction, executed or skipped, has the effect of its definition, and pushes never reach the opcode branch |
| `InterpreterLoop.ExecuteInstruction` | script/src/interpreter.rs:231-348 | one turn of the loop is one step of the flat program, size check and instruction count included |
| `InterpreterLoop.RunScript` | script/src/interpreter.rs:212-356 | the loop ends on every script, stack and context with the result of the flat program; no index, subtraction or 64-bit operation in it can fail |
| `Interpreter.RunBodyAppend` | script/src/interpreter.rs:231-348 | running two pieces of code in sequence is running the second from where the first ends, or the first's error |
| `ScriptTree.RunIsEval` | script/src/interpreter.rs:136-165 | inside any masks, a properly nested block runs to the evaluation of its tree and leaves the masks as they were |
| `ScriptTree.RunIsEvalArms` | script/src/interpreter.rs:303-327 | the arms of a conditional run alternately, any number of OP_ELSE included |
| `ScriptTree.SkippedLeavesStacks` | script/src/interpreter.rs:231-348 | skipped code touches neither stack, and fails only for disabled opcodes, oversized pushes or a full stack |
| `ScriptTree.RunCloses` | script/src/interpreter.rs:320-353 | code that runs to the outside of all conditionals is properly nested |
| `ScriptTree.ClosesIsFlatten` | script/src/interpreter.rs:303-327 | code is properly nested exactly when it is the code of some tree |
| `ScriptTree.ScriptRunIsTreeEval` | script/src/interpreter.rs:212-356 | a script whose instructions form a tree returns the evaluation of the tree, errors included |
| `ScriptTree.ScriptSuccessIsTree` | script/src/interpreter.rs:212-356 | a script that succeeds parses completely, is properly nested, and its result is the evaluation of its tree |
| `ItemSizes.StepWithin` | script/src/interpreter.rs:236-355 | a step keeps every item on both stacks within any bound that admits constants, digests and numbers, and the stacks within their limit |
| `ItemSizes.RunWithin` | script/src/interpreter.rs:231-355 | the bound on items holds after every prefix of every run |
| `ItemSizes.ResultWithin` | script/src/interpreter.rs:212-356 | items within the bound at the start leave items within the bound at the end |
| `PushOnlyScripts.RunPushdata` | script/src/interpreter.rs:184-210 | the push-only loop returns the pushed items or the first error in order |
| `PushOnlyScripts.PushdataAgreesWithRun` | script/src/interpreter.rs:184-356 | from the empty stack the push-only runner and the full interpreter agree exactly when the former does not object to a non-push |
| `PushOnlyScripts.ScriptSizeExactly` | script/src/interpreter.rs:218-224 | a script is refused for its size exactly when it is too long; no instruction gives that error |
| `PushOnlyScripts.BuiltPushesRun` | script/src/interpreter.rs:184-356 | a script built from minimal pushes within the limits runs to exactly the pushed list, under either runner |
| `PushOnlyScripts.VerifyWitnessLock` | script/src/interpreter.rs:173-182 | verification succeeds exactly when the witness only pushes, the lock runs on its items, and one nonzero number is left; otherwise the first failure is reported |
| `PushVerifyMeaning.VerifyingForms` | script/src/opcodes.rs:888-904 | an opcode is fused exactly when the next byte is a verifying opcode other than OP_VERIFY, and then becomes that one |
| `PushVerifyMeaning.FusedAct` | script/src/interpreter.rs:257-302 | a fused opcode does what the plain opcode followed by verification does to the machine |
| `FusionLimits.FusedRunsAlike` | script/src/script.rs:625-649 | fusing the last opcode and appending OP_VERIFY give the same result on every stack, errors included: for every script without signature checks, and for every script where the check ignores the subscript |
| `FusionLimits.FusedAloneExactly` | script/src/script.rs:625-649 | that condition for a script that is one opcode, in every context |
| `FusionLimits.FusedRunsExactly` | script/src/script.rs:625-649 | whatever the last opcode, if no signature check before it sees the script's bytes, fusing keeps the result on a stack exactly when both forms are too long, or neither is and the opcode is not reached, is skipped, or has effects under the two subscripts that agree and leave the stacks within their limit, or both fail for their size |
| `FusionLimits.FusedDiffersBeyondLimit` | script/src/interpreter.rs:343-346 | two equal items on a stack two over the limit: the fused script accepts, the plain script fails with its stack size |
| `FusionLimits.FusedDiffersBySubscript` | script/src/interpreter.rs:257-302 | a signature good for the fused script and not for the plain one: the fused script accepts, the plain script fails verification |
| `FusionLimits.PushVerifyKeepsMeaning` | script/src/script.rs:625-649 | on every valid builder `push_verify` means the same as appending OP_VERIFY, under exactly that condition if it fuses and always if it does not |
| `Accounting.DeltaLaws` | accounting/src/delta/delta_data_collection/mod.rs:25-59 | combining data changes is associative, errors included, and a change, its inverse and itself again is the change |
| `Accounting.MergeAmountUndone` | accounting/src/delta/delta_amount_collection.rs:56-98 | adding a change and then its negation restores the collection itself, with no zero entries |
| `Accounting.BalanceAfterMerge` | accounting/src/delta/combine.rs:50-62 | a readable balance that stays in the signed range can be changed and is read back changed by that amount |
| `Layers.FlushedBalance` | accounting/src/delta/combine.rs:50-62 | after a merge a balance reads as it did through two layers, errors included, exactly when the lower layer could be read or the base could not |
| `Layers.FlushedData` | accounting/src/delta/delta_data_collection/mod.rs:91-131 | after a merge data always reads as it did through two layers |
| `Layers.CollapsedBalance` | accounting/src/delta/combine.rs:50-62 | after any number of merges, top into next, a balance reads as it did at the top exactly when the layers below the top could be read at its key or the base could not |
| `Layers.CollapsedData` | accounting/src/delta/delta_data_collection/mod.rs:91-131 | after any number of merges data reads as it did at the top |
| `Layers.AmountsCollapse` | accounting/src/delta/delta_amount_collection.rs:36-42 | layers that can be read at the top at every key can all be merged down: no sum overflows |
| `Layers.DatasCollapse` | accounting/src/delta/delta_data_collection/mod.rs:101-131 | layers whose changes start from what is shown below them can all be merged down: no mismatch |
| `Accounting.MergeAmounts` | accounting/src/delta/delta_amount_collection.rs:36-42 | merging two collections adds their changes key by key, in any order; it fails exactly when some sum overflows, and then every key has its old change or the sum |
| `Accounting.MergeDatas` | accounting/src/delta/delta_data_collection/mod.rs:101-131 | merging two collections composes their changes and returns every inverse; it fails exactly when some change does not continue the one recorded, and then every key is as it was, merged, or dropped by the mismatch |
| `Accounting.UndoMergeAmounts` | accounting/src/delta/delta_amount_collection.rs:44-54 | taking back a collection subtracts its changes key by key, and fails exactly when one cannot be negated or a difference overflows |
| `Accounting.MergeAmountsUndone` | accounting/src/delta/delta_amount_collection.rs:44-54 | a merge can be taken back exactly when no merged change is the least signed amount, and what is then left is exactly the original collection |
| `Accounting.MergeDatasUndone` | accounting/src/delta/delta_data_collection/mod.rs:133-149 | the undo collection of a merge always merges back and leaves the original changes, with a change to nothing where there was none |
| `OrderPricing.ProductFits` | orders-accounting/src/price_calculation.rs:96-105 | the 256-bit product of two amounts cannot overflow |
| `OrderPricing.FillKeepsCovered` | orders-accounting/src/price_calculation.rs:45-109 | a fill of either version keeps the remaining give times the original ask at least the original give times the remaining ask, and never exceeds the give |
| `OrderPricing.QuoteExists` | orders-accounting/src/price_calculation.rs:45-109 | on such an order the division never overflows: only an empty ask has no price, and only under V0 |
| `OrderPricing.FillsConserve` | orders-accounting/src/price_calculation.rs:45-109 | over any run of fills, payouts and remaining give add up to the give, fills and remaining ask to the ask |
| `OrderPricing.OriginalPriceSplit` | orders-accounting/src/price_calculation.rs:63-94 | a run of `n` V1 fills is paid at most what one fill of their total would be, and less than `n` atoms short of it |
| `OrderPricing.RemainingPriceEmpties` | orders-accounting/src/price_calculation.rs:45-61 | a run of V0 fills that uses up the ask uses up the give |
| `OrdersCache.OrdersAccountingCache.constructor` | orders-accounting/src/cache.rs:42-47 | a new layer records nothing |
| `OrdersCache.OrdersAccountingCache.GetOrderData` | orders-accounting/src/cache.rs:122-130 | recorded data, deleted data or the parent's data |
| `OrdersCache.OrdersAccountingCache.GetAskBalance` | orders-accounting/src/cache.rs:132-136 | the parent's ask balance with the recorded change |
| `OrdersCache.OrdersAccountingCache.GetGiveBalance` | orders-accounting/src/cache.rs:138-142 | the parent's give balance with the recorded change |
| `OrdersCache.OrdersAccountingCache.CalculateFill` | orders-accounting/src/price_calculation.rs:25-94 | the price of a fill by version, with the overbid, underbid, overflow and missing-data errors |
| `OrdersCache.OrdersAccountingCache.CreateOrder` | orders-accounting/src/cache.rs:146-181 | a refused creation reports its reason and changes nothing; a successful one records data and both balances and returns the inverse |
| `OrdersCache.OrdersAccountingCache.ConcludeOrder` | orders-accounting/src/cache.rs:183-206 | conclusion removes the data and both whole balances and returns the inverse |
| `OrdersCache.OrdersAccountingCache.Fill` | orders-accounting/src/cache.rs:208-234 | a fill takes the amount off the ask and the price off the give and returns the inverse |
| `OrdersCache.OrdersAccountingCache.FreezeOrder` | orders-accounting/src/cache.rs:246-267 | freezing changes the data only and returns the inverse |
| `OrdersCache.OrdersAccountingCache.UndoCreateOrder` | orders-accounting/src/cache.rs:57-77 | accepted exactly when ask, give and data are as creation left them, else the first check or change to fail is reported |
| `OrdersCache.OrdersAccountingCache.UndoConcludeOrder` | orders-accounting/src/cache.rs:79-99 | accepted exactly when there is neither data nor balance, else the first check or change to fail is reported |
| `OrdersCache.OrdersAccountingCache.UndoFreezeOrder` | orders-accounting/src/cache.rs:101-109 | accepted exactly when there is data that the inverse continues |
| `OrdersCache.OrdersAccountingCache.UndoFillOrder` | orders-accounting/src/cache.rs:111-116 | adds both amounts back, unless that overflows |
| `OrdersCache.OrdersAccountingCache.Revert` | orders-accounting/src/cache.rs:236-244 | an undo record is applied by its kind, with the exact error when it is refused |
| `OrdersCache.OrdersAccountingCache.BatchWrite` | orders-accounting/src/cache.rs:270-278 | a flush succeeds exactly when the deltas can be merged, and leaves the merged delta and its undo data; a failed one reports the first kind of failure and leaves data, asks and gives merged up to it |
| `OrdersSafety.DoSucceedsExactly` | orders-accounting/src/cache.rs:146-267 | on a sound ledger an operation that passes its own checks is never refused by the accounting, except for a new order beyond the signed range |
| `OrdersSafety.FillSucceedsExactly` | orders-accounting/src/cache.rs:208-234 | a fill goes through exactly when the order exists, is not frozen, the ask covers it, and the price exists (V0) or is at least one atom (V1) |
| `OrdersSafety.DoKeepsSound` | orders-accounting/src/cache.rs:146-267 | every successful operation keeps all orders covered at their original price, and no balance without an order |
| `OrdersSafety.RunKeepsSound` | orders-accounting/src/cache.rs:146-267 | so does every run of creations, fills of both versions, freezes and conclusions in any mix |
| `OrdersSafety.StartsSound` | orders-accounting/src/cache.rs:41-55 | a ledger without orders is sound |
| `OrdersSafety.FreshLayerSound` | orders-accounting/src/cache.rs:41-55 | a fresh layer is sound exactly when what it is put on is |
| `Orders.UndoIsCheckThenCommit` | orders-accounting/src/cache.rs:57-116 | however checks and changes are interleaved, an undo succeeds exactly when its checks pass on the state before it and its effect can be recorded, and then records it |
| `OrdersSafety.FrozenAdmitsConclusionOnly` | orders-accounting/src/cache.rs:208-267 | a frozen order admits nothing but its conclusion, and freezing marks the order and nothing else |
| `OrdersSafety.FrozenStays` | orders-accounting/src/cache.rs:208-267 | until it is concluded a frozen order does not change in any run |
| `OrdersSafety.FillsAreBookFills` | orders-accounting/src/cache.rs:208-234 | runs of fills on the ledger succeed exactly when they do on the order's amounts, and end in the same amounts |
| `OrdersSafety.RunConserves` | orders-accounting/src/cache.rs:146-234 | over any run every balance changes by exactly what the undo records account for |
| `OrdersSafety.UndoOne` | orders-accounting/src/cache.rs:57-116 | the record of a successful operation on a sound ledger is accepted and undoing it restores the view |
| `OrdersSafety.UndoRestores` | orders-accounting/src/cache.rs:57-268 | undoing any run in reverse order never fails and restores data and both balances of every order |
| `OrdersSafety.UndoRestoresAnywhere` | chainstate/tx-verifier/src/transaction_verifier/mod.rs:926-948 | the records of a run, undone in reverse order in any cache over any view that reads as the run left the ledger, are all accepted, and every order then reads as before the run |
| `OrdersSafety.CreateUndoExactly` | orders-accounting/src/cache.rs:57-77 | without the invariant the undo of a creation is accepted exactly when the give balance was zero before |
| `OrdersSafety.CreateUndoCanFail` | orders-accounting/src/cache.rs:57-77 | a leftover give balance of one, and a creation whose undo is refused |
| `OrdersLayers.FlushSucceeds` | orders-accounting/src/cache.rs:270-278 | flushing a consistent, readable layer into the layer below succeeds |
| `OrdersLayers.RunIsGoodLayer` | orders-accounting/src/cache.rs:146-267 | a run on a sound and consistent layer leaves a layer that can be read everywhere and flushed |
| `OrdersLayers.FlushKeepsView` | orders-accounting/src/data.rs:104-123 | after any flush an order's data reads as at the top, and a balance does exactly when the lower layer could be read at that order or the base could not |
| `OrdersLayers.DoKeepsConsistent` | orders-accounting/src/cache.rs:146-267 | operations keep a layer consistent with its parent |
| `OrdersLayers.CollapseIsFlushing` | orders-accounting/src/cache.rs:270-278 | collapsing layers is flushing the top one into the next and collapsing the rest |
| `OrdersLayers.CollapseKeepsView` | orders-accounting/src/data.rs:104-123 | after flushing any number of layers down an order's data reads as at the top, and a balance does exactly when the layers below the top could be read at that order or the base could not |
| `OrdersLayers.GoodLayersCollapse` | orders-accounting/src/cache.rs:270-278 | good layers one upon the other can all be flushed down, and every order then reads as at the top |
| `OrdersLayers.RunsCollapse` | orders-accounting/src/cache.rs:146-278 | caches one upon the other, each after any run of its own over a sound ledger, can all be flushed down, and nothing reads differently |
| `Tokens.IssuedFresh` | tokens-accounting/src/data.rs:258-272 | a token made from an issuance is neither locked nor frozen, can be frozen as the issuance says, and locked only if lockable |
| `TokensCache.TokensAccountingCache.constructor` | tokens-accounting/src/cache.rs:44-49 | a new layer records nothing |
| `TokensCache.TokensAccountingCache.GetTokenData` | tokens-accounting/src/cache.rs:63-71 | recorded data, deleted data or the parent's data |
| `TokensCache.TokensAccountingCache.GetCirculatingSupply` | tokens-accounting/src/cache.rs:73-77 | the parent's supply with the recorded change |
| `TokensCache.TokensAccountingCache.IssueToken` | tokens-accounting/src/cache.rs:92-112 | refused for an existing token or a leftover supply; otherwise records the data |
| `TokensCache.TokensAccountingCache.MintTokens` | tokens-accounting/src/cache.rs:114-154 | refused for frozen tokens, over a fixed limit or for a locked lockable supply; otherwise adds to the supply |
| `TokensCache.TokensAccountingCache.UnmintTokens` | tokens-accounting/src/cache.rs:156-189 | refused for locked or frozen tokens or more than circulates; otherwise takes from the supply |
| `TokensCache.TokensAccountingCache.LockCirculatingSupply` | tokens-accounting/src/cache.rs:191-221 | locks an unlocked, unfrozen, lockable token |
| `TokensCache.TokensAccountingCache.FreezeToken` | tokens-accounting/src/cache.rs:223-253 | freezes a freezable token |
| `TokensCache.TokensAccountingCache.UnfreezeToken` | tokens-accounting/src/cache.rs:255-281 | unfreezes a token frozen as unfreezable |
| `TokensCache.TokensAccountingCache.SetAuthority` | tokens-accounting/src/cache.rs:283-310 | changes the authority of a token that is not frozen |
| `TokensCache.TokensAccountingCache.SetMetadataUri` | tokens-accounting/src/cache.rs:312-339 | changes the metadata of a token that is not frozen |
| `TokensCache.TokensAccountingCache.Revert` | tokens-accounting/src/cache.rs:341-456 | an undo is accepted exactly when the token exists, its lock or freeze guard passes, and the change can be recorded; else the exact error is reported, and a mismatch drops the recorded change |
| `TokensCache.TokensAccountingCache.BatchWrite` | tokens-accounting/src/cache.rs:80-89 | a flush succeeds exactly when the deltas can be merged, and leaves the merged delta and its undo data; a failed one reports the first kind of failure and leaves data and supplies merged up to it |
| `TokensSafety.UndoRestores` | tokens-accounting/src/cache.rs:92-456 | undoing any run in reverse order passes every guard and restores token data and supply changes |
| `TokensSafety.UndoRestoresAnywhere` | tokens-accounting/src/cache.rs:341-456 | while supplies can be read, the same holds of the records of a run in any cache over any view that reads as the run left the ledger |
| `TokensSafety.MintUndoExactly` | tokens-accounting/src/cache.rs:351-367 | without the lock invariant the undo of a mint is accepted exactly when the token is not locked |
| `TokensSafety.MintUndoCanFail` | tokens-accounting/src/cache.rs:351-367 | a locked token of unlimited supply, and a mint whose undo is refused |
| `TokensSafety.DoKeepsLocksSound` | tokens-accounting/src/data.rs:155-168 | operations keep it that only a lockable supply is ever locked |
| `TokensSafety.RunIsSafe` | tokens-accounting/src/cache.rs:92-339 | in every run fixed limits hold, a locked token keeps supply and lock, one frozen for good does not change, and one that is not freezable is never frozen |
| `TokensSafety.IssuedLedgerIsSafe` | tokens-accounting/src/data.rs:258-272 | in a ledger that starts empty and issues tokens from issuances, every run is safe in this sense and every continuation can be undone |
| `TokensSafety.FrozenForGoodRefusesAll` | tokens-accounting/src/cache.rs:92-339 | a token frozen for good accepts no operation |
| `TokensSafety.MintReadableExactly` | tokens-accounting/src/cache.rs:129-148 | after a successful mint the supply can be read exactly when nothing was minted or the sum fits a signed amount |
| `TokensSafety.MintCanHideSupply` | tokens-accounting/src/cache.rs:143-148 | a concrete mint that succeeds and leaves a supply that cannot be read |
| `TokensSafety.StartsSound` | tokens-accounting/src/cache.rs:43-58 | a ledger without tokens is sound |
| `TokensLayers.FlushSucceeds` | tokens-accounting/src/cache.rs:80-89 | flushing a consistent, readable layer into the layer below succeeds |
| `TokensLayers.RunIsGoodLayer` | tokens-accounting/src/cache.rs:92-339 | a run leaves a consistent layer, which can be flushed as soon as its supplies can be read |
| `TokensLayers.FlushKeepsView` | tokens-accounting/src/data.rs:62-76 | after any flush a token's data reads as at the top, and its supply does exactly when the lower layer could be read at that token or the base could not |
| `TokensLayers.DoKeepsConsistent` | tokens-accounting/src/cache.rs:92-339 | operations keep a layer consistent with its parent |
| `TokensLayers.CollapseIsFlushing` | tokens-accounting/src/cache.rs:80-89 | collapsing layers is flushing the top one into the next and collapsing the rest |
| `TokensLayers.CollapseKeepsView` | tokens-accounting/src/data.rs:62-76 | after flushing any number of layers down a token's data reads as at the top, and its supply does exactly when the layers below the top could be read at that token or the base could not |
| `TokensLayers.GoodLayersCollapse` | tokens-accounting/src/cache.rs:80-89 | good layers one upon the other can all be flushed down, and every token then reads as at the top |
| `Postorder.Traversal.constructor` | utils/src/graph_traversals.rs:38-43 | all roots are on the stack, first root on top, and marked as visited |
| `Postorder.Traversal.Descend` | utils/src/graph_traversals.rs:47-59 | going down pushes every child seen for the first time and ends at a node with no children left, keeping the stack invariant |
| `Postorder.Traversal.Next` | utils/src/graph_traversals.rs:45-62 | one step yields the next node, keeps the invariant, and visits more or leaves fewer entries |
| `Postorder.VisitedChildIsEmitted` | utils/src/graph_traversals.rs:49-51 | with roots apart, a child that has been visited has also been emitted, so passing over it is right |
| `Postorder.FinishedIsPostorder` | utils/src/graph_traversals.rs:26-65 | with roots apart the output is exactly the reachable nodes, each once, children first |
| `Postorder.PostorderNeedsApart` | utils/src/graph_traversals.rs:26-65 | if the output is a post order, no root is reachable from an earlier one |
| `Postorder.NotApart` | utils/src/graph_traversals.rs:38-43 | a repeated root, or a later root that is a child of an earlier one, breaks the condition |
| `Postorder.Traverse` | utils/src/graph_traversals.rs:26-65 | the traversal of every finite acyclic graph ends with the output of recursive depth-first search that counts all roots as seen, which is a post order of the reachable nodes exactly when no root is reachable from an earlier one |
| `Postorder.TraverseFrom` | utils/src/graph_traversals.rs:67-74 | from a single root the output is that of recursive depth-first search, and always a post order of the reachable nodes |
| `Subsystem.StepSound` | subsystem/src/task.rs:88-137 | every step of the main task or a worker keeps lock, reference count, written units and every read's view consistent |
| `Subsystem.EveryRunSound` | subsystem/src/task.rs:88-137 | so does every interleaving from the start |
| `Subsystem.WritesAreSerial` | subsystem/src/task.rs:102-124 | in every interleaving the subsystem holds the units in the order taken, none missing: all but the last whole, and the last whole unless the main task is at it |
| `Subsystem.ReadsSeeOnePrefix` | subsystem/src/task.rs:107-112 | all that one read observes is the result of one whole prefix of the units, which includes every mutating call received before it |
| `Subsystem.ReceivedInOrder` | subsystem/src/task.rs:101-114 | calls are received in the order sent, none lost and none made up |
| `Subsystem.UnwrapSucceeds` | subsystem/src/task.rs:128-136 | when all workers are joined the reference count is one and the lock is free, so taking the subsystem out cannot fail |
| `Subsystem.SomeoneCanMove` | subsystem/src/task.rs:88-137 | no interleaving deadlocks: unless waiting for input or terminated, the main task or a worker can move |
| `Subsystem.ShutdownTerminates` | subsystem/src/task.rs:93-99 | in every run after the shutdown signal no call is taken and the steps other than observations are bounded by a number fixed at the signal |
| `OpcodeMeaning.OrdinaryBytes` | script/src/opcodes.rs:847-866 | the byte of every ordinary opcode is classified as that opcode |
| `OpcodeMeaning.PairBytes` | script/src/opcodes.rs:253-273 | the bytes of the opcodes on pairs and triples, and of OP_VERIFY |
| `OpcodeMeaning.ItemBytes` | script/src/opcodes.rs:279-295 | the bytes of the opcodes on single items |
| `OpcodeMeaning.QueryBytes` | script/src/opcodes.rs:275-317 | the bytes of the opcodes that index or query the stack or compare items |
| `OpcodeMeaning.HashBytes` | script/src/opcodes.rs:379-387 | the bytes of the hashes |
| `OpcodeMeaning.UnaryBytes` | script/src/opcodes.rs:323-337 | the bytes of the opcodes on one number |
| `OpcodeMeaning.BinaryBytes` | script/src/opcodes.rs:339-377 | the bytes of the opcodes on two or three numbers |
| `OpcodeMeaning.ComparisonBytes` | script/src/opcodes.rs:357-362 | the bytes of the opcodes on equality of numbers |
| `OpcodeMeaning.OrderBytes` | script/src/opcodes.rs:364-370 | the bytes of the opcodes on the order of numbers |
| `OpcodeMeaning.OrdinaryAnywhere` | script/src/interpreter.rs:336-338 | wherever it stands, an ordinary opcode has its effect on the stack and no other |
| `OpcodeMeaning.Copies` | script/src/interpreter.rs:404-409 | OP_DROP, OP_DUP and OP_OVER: the items they leave, named one by one |
| `OpcodeMeaning.PairCopies` | script/src/interpreter.rs:405-407 | OP_2DROP and OP_2DUP, item by item |
| `OpcodeMeaning.LongCopies` | script/src/interpreter.rs:408-410 | OP_3DUP and OP_2OVER, item by item |
| `OpcodeMeaning.Moves` | script/src/interpreter.rs:411-443 | OP_SWAP, OP_NIP, OP_TUCK and OP_ROT, item by item |
| `OpcodeMeaning.PairMoves` | script/src/interpreter.rs:412-418 | OP_2SWAP and OP_2ROT, item by item |
| `OpcodeMeaning.TooFewItems` | script/src/interpreter.rs:401-443 | each of these opcodes fails when the stack has fewer items than it needs |
| `OpcodeMeaning.OneNumber` | script/src/interpreter.rs:469-474 | what the unary opcodes leave, for every operand that can be read |
| `OpcodeMeaning.TwoNumbers` | script/src/interpreter.rs:475-486 | what sums, differences, conjunctions and extremes leave, the deeper item on the left |
| `OpcodeMeaning.Comparisons` | script/src/interpreter.rs:479-484 | what the six comparisons leave |
| `OpcodeMeaning.LongOperands` | script/src/interpreter.rs:506-519 | an operand of more than four bytes is refused in every place |
| `OpcodeMeaning.WithinRange` | script/src/interpreter.rs:487-492 | whether a number is at least the lower and below the upper bound, the upper one on top |
| `OpcodeMeaning.VerifyingOpcodes` | script/src/interpreter.rs:502-503 | OP_VERIFY, OP_EQUALVERIFY and OP_NUMEQUALVERIFY take their items off if they hold and fail otherwise |
| `OpcodeMeaning.Queries` | script/src/interpreter.rs:444-466 | OP_EQUAL compares bytes; OP_IFDUP, OP_SIZE and OP_DEPTH leave the copy, the length, the depth |
| `OpcodeMeaning.Hashes` | script/src/interpreter.rs:494-499 | which digest, or which composition of digests, each hash opcode leaves |
| `OpcodeMeaning.Indexed` | script/src/interpreter.rs:424-434 | the item with as many items above it as the index says is copied, or moved, to the top |
| `OpcodeMeaning.BadIndex` | script/src/interpreter.rs:424-434 | a negative index and one beyond the stack fail with their errors |
| `OpcodeMeaning.MissingOperands` | script/src/interpreter.rs:506-519 | an arithmetic opcode fails when an operand is missing |
| `OpcodeMeaning.MissingItems` | script/src/interpreter.rs:444-526 | so do equality, hashes and queries when an item is missing |
| `OpcodeMeaning.SwapTwice` | script/src/interpreter.rs:411-411 | OP_SWAP twice is nothing |
| `OpcodeMeaning.RotThrice` | script/src/interpreter.rs:435-438 | OP_ROT three times is nothing |
| `OpcodeMeaning.TuckIsSwapOver` | script/src/interpreter.rs:439-443 | OP_TUCK is OP_SWAP OP_OVER |
| `OpcodeMeaning.NipIsSwapDrop` | script/src/interpreter.rs:419-423 | OP_NIP is OP_SWAP OP_DROP |
| `OpcodeMeaning.PairIsOverOver` | script/src/interpreter.rs:407-409 | OP_2DUP is OP_OVER OP_OVER |
| `OpcodeMeaning.SubThenAdd` | script/src/interpreter.rs:475-476 | OP_SUB then OP_ADD of the number taken away gives back the deeper number, while the difference can be read |
| `OpcodeMeaning.ComparisonLaws` | script/src/interpreter.rs:479-484 | each comparison is another with its operands exchanged, or another denied |
| `OpcodeMeaning.NegateIsSub` | script/src/interpreter.rs:471-476 | OP_NEGATE is OP_SUB from zero |
| `OpcodeMeaning.NegateTwice` | script/src/interpreter.rs:471-471 | OP_NEGATE twice leaves the number in its shortest form |
| `OpcodeMeaning.ExtremesShareTheSum` | script/src/interpreter.rs:485-486 | OP_MIN and OP_MAX leave the two numbers between them, in order, with the same sum |
| `StepMeaning.OpeningTakes` | script/src/interpreter.rs:308-319 | executing OP_IF takes the top item off and enters the first branch exactly when it means a number other than zero; OP_NOTIF exactly when zero |
| `StepMeaning.OpeningMinimal` | script/src/interpreter.rs:308-319 | under the minimal-condition rule only the empty item and a single one are accepted, as false and true |
| `StepMeaning.OpeningOtherwise` | script/src/interpreter.rs:308-319 | opening fails without an item; in skipped code it takes none and skips all branches of its own |
| `StepMeaning.ClosingTurns` | script/src/interpreter.rs:320-326 | OP_ELSE turns the innermost mask round, OP_ENDIF drops it, and both fail without one |
| `StepMeaning.ConditionalChooses` | script/src/interpreter.rs:303-327 | of a whole two-branch conditional, exactly the branch that the number on top chooses is executed and the other only scanned |
| `StepMeaning.ScriptChooses` | script/src/interpreter.rs:212-356 | so a script that is such a conditional returns what the chosen branch leaves |
| `StepMeaning.SettleMeans` | script/src/interpreter.rs:343-347 | a step ends with an error when both stacks together exceed the limit, and otherwise counts the instruction, up to 32 bits |
| `StepMeaning.PushMeans` | script/src/interpreter.rs:236-241 | a push puts its data on the stack; one over the size limit fails, skipped or not |
| `StepMeaning.NumberOpcodes` | script/src/interpreter.rs:246-246 | the bytes 0x51 to 0x60 push one to sixteen, 0x4f minus one |
| `StepMeaning.NopMeans` | script/src/interpreter.rs:243-243 | the nine no-ops do nothing |
| `StepMeaning.FailingOpcodes` | script/src/interpreter.rs:244-245 | which bytes fail when executed, and which also when skipped |
| `StepMeaning.SkippedMeans` | script/src/interpreter.rs:242-340 | what every opcode outside the conditionals does in skipped code |
| `StepMeaning.AltStackMeans` | script/src/interpreter.rs:253-256 | the top item moves to the second stack and back |
| `StepMeaning.TimeLockMeans` | script/src/interpreter.rs:328-335 | which question each time lock asks, of a number of up to five bytes that stays on the stack |
| `StepMeaning.SeparatorMeans` | script/src/interpreter.rs:224-307 | signatures commit to the whole script until a separator, executed or not, makes it what follows and notes its place |
| `StepMeaning.CountIsPlace` | script/src/interpreter.rs:347-347 | the noted place is the number of instructions before it, up to 32 bits |
| `StepMeaning.LimitMeans` | script/src/interpreter.rs:343-346 | a step fails for the size of the stacks exactly when its instruction leaves too many items |
| `StepMeaning.KeyKinds` | script/src/interpreter.rs:367-392 | a malformed key fails, a reserved one accepts anything, any other asks the signature check |
| `StepMeaning.CheckSigMeans` | script/src/interpreter.rs:257-271 | OP_CHECKSIG checks the signature below the key; its verifying form fails on no |
| `StepMeaning.FrameMeans` | script/src/interpreter.rs:272-289 | where keys, signatures and their numbers stand on the stack |
| `StepMeaning.FrameRefused` | script/src/interpreter.rs:272-289 | counts out of range and stacks that are too short fail with their errors |
| `StepMeaning.CheckMultisigMeans` | script/src/interpreter.rs:272-302 | OP_CHECKMULTISIG leaves whether every signature has a key of its own that accepts it, in the same order, below an item that must be empty; its verifying form fails on no |
| `CodecMeaning.PushForms` | script/src/script.rs:574-604 | the bytes of a push of each length, header included |
| `CodecMeaning.FormsRead` | script/src/script.rs:479-522 | what each of the four forms is read as, minimal or not |
| `CodecMeaning.OpcodesRead` | script/src/script.rs:523-528 | every byte above 0x4e is an instruction of its own |
| `CodecMeaning.ShortFormExactly` | script/src/script.rs:606-615 | a push has a short form exactly when some opcode pushes the same item |
| `CodecMeaning.NonMinimalExactly` | script/src/script.rs:479-528 | minimal mode refuses a push exactly when it could be made with fewer bytes, and reads everything else as the other mode does |
| `Accounting.CombineExactly` | accounting/src/delta/combine.rs:50-62 | when exactly a balance with a change can be read, and as what |
| `Accounting.AdjustExactly` | accounting/src/delta/delta_amount_collection.rs:56-98 | when exactly an amount can be added to, or taken from, what is recorded, and what is then recorded |
| `OrdersOutcomes.QuoteInProportion` | orders-accounting/src/price_calculation.rs:45-94 | under V0 the price is the remaining give in the proportion of the fill to the remaining ask, under V1 the original give in proportion to the original ask, each rounded down by less than one atom |
| `OrdersOutcomes.FillPays` | orders-accounting/src/cache.rs:208-234 | a fill on a sound ledger takes its amount off the ask and that price off the give, and touches nothing else |
| `OrdersOutcomes.FillRefused` | orders-accounting/src/price_calculation.rs:25-94 | each reason for refusing a fill, and exactly when it is given |
| `OrdersOutcomes.CreateOutcome` | orders-accounting/src/cache.rs:146-181 | creation goes through exactly for a free id and two positive amounts that fit; the order then reads as given |
| `OrdersOutcomes.CreateRefused` | orders-accounting/src/cache.rs:146-163 | each reason for refusing a creation, and exactly when it is given |
| `OrdersOutcomes.ConcludeOutcome` | orders-accounting/src/cache.rs:183-206 | conclusion needs the order, frozen or not, leaves nothing of it, and its record holds what was there |
| `OrdersOutcomes.FreezeOutcome` | orders-accounting/src/cache.rs:246-267 | freezing needs an order that is not frozen, marks it and changes nothing else |
| `OrdersOutcomes.DoLeavesOthers` | orders-accounting/src/cache.rs:146-267 | no operation changes how another order reads |
| `OrdersOutcomes.UndoCreateOutcome` | orders-accounting/src/cache.rs:57-77 | exactly when the undo of a creation is accepted, what it leaves, and its errors in order |
| `OrdersOutcomes.UndoConcludeOutcome` | orders-accounting/src/cache.rs:79-99 | the same of the undo of a conclusion |
| `OrdersOutcomes.UndoFreezeOutcome` | orders-accounting/src/cache.rs:101-109 | the same of the undo of a freeze |
| `OrdersOutcomes.UndoFillOutcome` | orders-accounting/src/cache.rs:111-116 | the same of the undo of a fill |
| `OrdersOutcomes.UndoLeavesOthers` | orders-accounting/src/cache.rs:57-116 | no undo changes how another order reads |
| `TokensOutcomes.IssueOutcome` | tokens-accounting/src/cache.rs:92-112 | a token is issued exactly under a free id with nothing in circulation, and then reads as given |
| `TokensOutcomes.NoToken` | tokens-accounting/src/cache.rs:114-339 | every other operation is refused for a token that does not exist |
| `TokensOutcomes.MintOutcome` | tokens-accounting/src/cache.rs:114-154 | exactly when a mint goes through, the supply it leaves, and exactly when each error is given; any frozen token refuses |
| `TokensOutcomes.UnmintOutcome` | tokens-accounting/src/cache.rs:156-189 | the same of an unmint |
| `TokensOutcomes.LockOutcome` | tokens-accounting/src/cache.rs:191-221 | exactly when a supply is locked, and exactly when each error is given |
| `TokensOutcomes.FreezeOutcome` | tokens-accounting/src/cache.rs:223-281 | exactly when a token is frozen, as liftable or not, or unfrozen, and exactly when each error is given |
| `TokensOutcomes.ChangeOutcome` | tokens-accounting/src/cache.rs:283-339 | authority and metadata are the ones asked for, exactly when the token is not frozen |
| `TokensOutcomes.DataRecords` | tokens-accounting/src/cache.rs:191-339 | the record of each operation on the data leads back from the new data to the old |
| `TokensOutcomes.DoLeavesOthers` | tokens-accounting/src/cache.rs:92-339 | no operation changes another token |
| `TokensOutcomes.FrozenAdmitsUnfreezeOnly` | tokens-accounting/src/cache.rs:92-339 | a frozen token admits nothing but its unfreezing |
| `TokensOutcomes.FrozenTokenStays` | tokens-accounting/src/cache.rs:92-339 | in every run without its unfreezing a frozen token and its supply do not change |
| `TokensOutcomes.UndoSupplyOutcome` | tokens-accounting/src/cache.rs:351-384 | exactly when the undo of a mint or an unmint is accepted, and the supply it leaves |
| `TokensOutcomes.UndoDataOutcome` | tokens-accounting/src/cache.rs:341-456 | the guard of each undo of a data change, the data it leaves, and its errors |
| `TokensOutcomes.UndoNoToken` | tokens-accounting/src/cache.rs:341-456 | every undo is refused for a token that does not exist |
| `SubsystemService.ShutdownIsSignalled` | subsystem/src/task.rs:93-99 | in every run the loop is left only after a shutdown signal, and knows of one exactly when it was sent |
| `SubsystemService.ServesUntilShutdown` | subsystem/src/task.rs:93-114 | without a signal the loop never ends, and when idle can take the next call |
| `SubsystemService.PrioritiesKept` | subsystem/src/task.rs:88-126 | at every step of every run: shutdown before calls, calls before joining finished reads, and background work only when nothing else is to be done |
| `SubsystemService.EveryReadSpawned` | subsystem/src/task.rs:107-112 | each read-only call received has exactly one worker, in order |
| `SubsystemService.EndedServed` | subsystem/src/task.rs:93-136 | a run that has ended has finished and joined every read, and holds the work of all mutating calls received, in order |
| `Postorder.VisitNode` | utils/src/graph_traversals.rs:45-62 | recursive depth-first search of a node yields what is below it among the unseen, then the node |

## Left out

- `Builder::from` a byte vector, the script templates and their recognisers, the disassembler, and all
  display, hex and serialization code: formatting, or too simple to have a property worth stating.
- The cryptography behind keys, signatures and hashes, and the policy behind time locks: arbitrary
  functions here. That a parsed key or signature is represented by bytes is a choice of the model.
- The state an orders cache is left in when recording a change or undoing fails half way: updates made
  before the failure are not rolled back, and the model only says that the cache stays well formed.
  An operation refused by its own checks changes nothing.
- Storage behind the bottom view, and flushing into it.
- FusionLimits.FusedRunsExactly: does not cover scripts with a signature check before the last opcode
  that sees the script's bytes, since the two forms can come apart at each such check.
- TokensSafety.UndoRestoresAnywhere: is stated while supplies can be read, since an unreadable supply
  tells nothing about the change that another cache would have to hold.
- Accounting.MergeDatas: which keys are merged before a failure depends on the order of the keys,
  which is not modelled; the same holds for amounts.
- Subsystem initialisation, panics and cancellation of tasks, and the runtime's scheduling: a joined
  task is taken to have dropped its reference, and polling the loop's branches is one step.
- Whether there is background work is left to chance; what calls compute is a list of elementary
  writes.
- Proof-of-stake accounting, mempool, chainstate, networking, wallet, RPC and user interfaces.
