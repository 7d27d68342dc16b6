# Verified models of four vendored C components

This project models four self-contained pieces of C code in the repository and proves what
they are for. Nothing here runs the original programs: the models follow their code branch by
branch, and the Dafny verifier checks the proofs.

`dafny verify dfyconfig.toml` checks everything.

## 1. The Lua 5.2 code generator (`dep/lualib/lcode.c`)

Lua compiles expressions in one pass. Jumps whose destination is unknown are linked through
the offsets of the jump instructions themselves; jumps to the next instruction wait on one more
such list, `jpc`. Registers are taken and released like a stack, constants are shared through an
index table, and peepholes rewrite the last instruction (LOADNIL, OP_NOT, OP_CONCAT).

- `LuaVm.dfy` - values, the instructions used, and a small interpreter for them. A forward run can end
  by falling off the end, by taking a jump that is still on a list, by jumping back, or by returning.
- `LuaEncoding.dfy` - the fields of instructions and their packing into 32-bit words.
- `LuaPatch.dfy`, `LuaRuns.dfy` - what appending and patching do to runs.
- `LuaConstants.dfy` - the constant table.
- `LuaCode.dfy` - what every operation does, with lists as plain sequences of code positions and
  errors as a flag. `LuaShape.dfy`, `LuaShapeOps.dfy` prove the invariants: lists acyclic, pairwise
  disjoint and made of emitted jumps; tests followed by their jumps; registers released last one
  first; nothing can land behind the last recorded jump target; every instruction fits its fields.
- `LuaSemantics.dfy`, `LuaSemanticsOps.dfy` - every operation keeps the relation between a
  descriptor and the value it stands for.
- `LuaCompiler.dfy` - the parser's calls for expressions, and compiler correctness for them.
  `LuaExprLists.dfy`, `LuaAssignment.dfy` - the same for lists of expressions and multiple assignment.
- `LuaStatements.dfy` - declarations, assignments, blocks, if/elseif/else, while, repeat, break and
  return: their meaning, the calls the parser makes, and the invariants. Loops make a meaning that may
  have no end, so it is given a number of times loops may start again, and says what is left of it.
  `LuaTurns.dfy` puts forward runs together to whole ones; `LuaStatementExits.dfy`,
  `LuaStatementRuns.dfy` and `LuaStatementEnds.dfy` prove that the code of a function ends exactly
  when its body does, and then with the same values.
- `LuaLimits.dfy`, `LuaSizes.dfy`, `LuaStatementLimits.dfy` - which functions compile: what an error can
  mean, how many instructions and constants a function adds, and the limits a caller can check before;
  and when the code generator saves an instruction.
- `LuaLinks.dfy` - jump lists threaded through the jump instructions. `LuaFuncState.dfy` - the code
  generator itself: classes updated in place. Every method is proved to do to the linked lists what the
  specification does to the sequences, leaving the links of all other lists alone, and to raise an
  error exactly when the specification does. `LuaParser.dfy` - the parser's driver of these methods.

Comparison, arithmetic, length and concatenation on arbitrary values, metamethods included, are
parameters (`Prims`), and so is what OP_CONCAT leaves in the registers it works on. Compile-time
arithmetic is a parameter too; it is assumed to agree with the runtime on numbers wherever the
meaning of compiled code is at stake.

## 2. The SFMT generator (`dep/SFMT`)

The little-endian portable variant, with state size, pick-up position, shifts, masks and parity
vector as parameters (at least five words, pick-up position inside the state). `SfmtWords.dfy` has
the 128-bit words, their shifts and the recursion; `SfmtStream.dfy` the sequence defined by one
recurrence; `SfmtGenerator.dfy` the array updated in place and filled in bulk; `SfmtParity.dfy` the
parity certificate; `SfmtIntegers.dfy` what 32-bit arithmetic is in integers; `SfmtMixing.dfy` the
seeding rounds and their inverses; `SfmtSeeding.dfy` the initialisers; `SfmtSteps.dfy` which words
seeding mixes, and with what values. The state is an array of 128-bit words of four 32-bit pieces; the
array a caller passes to be filled is seen the way the source casts it.

## 3. Precompiled chunks (`dep/lualib/ldump.c`, `dep/lualib/lundump.c`)

`LittleEndian.dfy` has numbers as bytes, `LuaDump.dfy` function prototypes and the blocks the dumper
writes for them, `LuaUndump.dfy` the loader and the round trip, `LuaDumper.dfy` the dumper itself with a
writer that may refuse a block, `LuaLayout.dfy` the bytes of a chunk and their positions. Sizes are
those of a 64-bit little-endian build: 4-byte ints and instructions, 8-byte sizes and numbers.

## 4. The auxiliary library (`dep/lualib/lauxlib.c`)

`AuxRefs.dfy` is the reference system whose free list lives in the table it recycles,
`AuxFindField.dfy` the bounded search for a name on the Lua stack, `AuxBuffer.dfy` the string buffer
with wrapping size arithmetic, `AuxGsub.dfy` substring replacement.

## Two results that are not what one might expect

- `luaL_prepbuffsize` can raise "buffer too large" for content that would fit: when doubling the
  size wraps around to less than the content there is. `AuxBuffer.GrowthIsSafe` gives the exact
  condition, `AuxBuffer.WrappedDoublingRejects` an input.
- `luaL_gsub` with an empty pattern finds it at the front for ever. `AuxGsub.ProgressIff` shows that
  the loop makes progress exactly when the pattern is not empty, and `AuxGsub.EmptyPatternTurns` that
  otherwise only the error for a buffer that is too large can end it.

## Model

| member | source | states |
|---|---|---|
| `LuaParser.CompileFunction` | dep/lualib/lparser.c:788-807 | end to end: if no error is raised, the instructions in the array, run on any arguments in any frame of at least `maxstack` registers, return a list of values if and only if the function body, loops included, comes to an end and returns that list; every instruction fits its fields. A function that needs fewer than 250 registers, at most 131071 instructions and 67108863 constants compiles exactly if it never has more than 200 locals in scope, never more than 32767 breaks waiting, and no break outside of a loop |
| `LuaStatementLimits.CompileSucceeds` | dep/lualib/lparser.c:788-807 | success from the syntax alone: a function within the limits of the instruction format compiles exactly if its locals, waiting breaks and stray breaks are permitted; beyond those three it never compiles |
| `LuaStatementLimits.BlockFaults` | dep/lualib/lparser.c:604-615 | the same for lists of statements, from any state: an error means that the code, the constants, the registers, the breaks or the locals exceed their limit, and without one the last two keep it |
| `LuaStatementLimits.StmtFaults` | dep/lualib/lparser.c:1529-1599 | the same for every statement |
| `LuaStatementLimits.BlockLeft` | dep/lualib/lparser.c:604-615 | the breaks pending after a list of statements are those from before and the ones that leave a loop around it |
| `LuaStatementLimits.StartFails` | dep/lualib/lparser.c:178-183 | a function may have 200 parameters, and no more |
| `LuaStatementLimits.NewGotoBlames` | dep/lualib/lparser.c:384-388 | 32767 breaks may wait, and no more |
| `LuaStatementLimits.NextRegsBlames` | dep/lualib/lparser.c:810-820 | a list of expressions fails only if one of them does, with those before it in registers |
| `LuaLimits.CompileBlames` | dep/lualib/lcode.c:261-268 | compiling an expression fails only when the code is beyond the reach of a jump, the constant table is full, or 250 registers are in use: the registers needed are computed from the expression |
| `LuaLimits.CloseListsBlames` | dep/lualib/lcode.c:468-489 | no jump of an expression is ever out of reach in code of at most 131071 instructions, jumps without a value and NO_JUMP as destination included |
| `LuaSizes.BlockAdds` | dep/lualib/lparser.c:604-615 | a bound on the instructions and constants of a list of statements, from the syntax |
| `LuaSizes.CompileSize` | dep/lualib/lcode.c:762-859 | ... of an expression: at most 6 instructions for a unary and 13 for a binary operator |
| `LuaSizes.LoadConstSize` | dep/lualib/lcode.c:250-258 | loading a constant takes one instruction if its index is at most 262143 |
| `LuaSizes.NilsMerge` | dep/lualib/lcode.c:37-56 | a LOADNIL is widened instead of emitted exactly if the ranges meet and no jump leads behind it |
| `LuaSizes.FoldsIff` | dep/lualib/lcode.c:713-721 | arithmetic on two numerals emits nothing, unless it divides by one of the two zeros |
| `LuaSizes.NotTakenBack` | dep/lualib/lcode.c:606-618 | a jump on a value just negated takes the NOT back and tests the value itself |
| `LuaSizes.KnownCondition` | dep/lualib/lcode.c:621-665 | a constant as a condition emits nothing |
| `LuaSizes.NotFolded` | dep/lualib/lcode.c:668-700 | the negation of a constant emits nothing |
| `LuaSizes.StoresElsewhere` | dep/lualib/lcode.c:131-141 | a patched TESTSET becomes a TEST exactly if there is no register to fill or the value is already there |
| `LuaSizes.NothingMoved` | dep/lualib/lcode.c:421-457 | a value already in its register is not moved, and a local is used where it is |
| `LuaSizes.LiteralOperand` | dep/lualib/lcode.c:534-546 | nil and the booleans are constant operands exactly as long as the constant table has at most 255 entries |
| `LuaSizes.ConcatMerges` | dep/lualib/lcode.c:830-838 | a concatenation that waits for its register is widened instead of a new one being emitted |
| `LuaStatementEnds.FunctionRun` | dep/lualib/lparser.c:788-807 | the code of a function, from `pc = lasttarget = 0` and an empty `jpc`, returns exactly what the body returns, for all start registers: it ends if the body does, and only then |
| `LuaStatementEnds.CodeEnds` | dep/lualib/lparser.c:788-807 | the code of a function, however many times it has jumped back, is still running or has returned what the body means; it is never stuck and never leaves through an unpatched jump |
| `LuaStatementEnds.BodyRun` | dep/lualib/lparser.c:555-562 | the same from any state between two statements: if the body ends, so does its code, with the same values |
| `LuaStatementEnds.BodyEnds` | dep/lualib/lparser.c:555-562 | ... and if the code ends, so does the body |
| `LuaStatementEnds.WhileEnds` | dep/lualib/lparser.c:1233-1249 | if the code of a while loop jumps back only a limited number of times, the loop ends after some number of iterations; an empty body whose pending jumps go straight to the head included |
| `LuaStatementEnds.RepeatEnds` | dep/lualib/lparser.c:1252-1269 | the same for repeat loops |
| `LuaStatementEnds.StmtEnds` | dep/lualib/lparser.c:1529-1599 | the same for every statement, by induction on the jumps back that are left |
| `LuaStatementRuns.BlockRun` | dep/lualib/lparser.c:604-615 | a list of statements does what it means to the locals outside it, breaks out of the innermost loop through its own pending jumps, or returns what it returns |
| `LuaStatementRuns.StmtRun` | dep/lualib/lparser.c:1529-1599 | declarations, assignments, blocks, conditional statements, loops and breaks each do what they mean to the locals, after some number of jumps back |
| `LuaStatementRuns.WhileRun` | dep/lualib/lparser.c:1233-1249 | while: the body is run as long as the condition holds, and breaks end the loop; whatever number of iterations the meaning takes |
| `LuaStatementRuns.RepeatRun` | dep/lualib/lparser.c:1252-1269 | repeat: the body is run until the condition, which sees the locals of the body, holds |
| `LuaStatementRuns.BranchRun` | dep/lualib/lparser.c:1409-1420 | if, elseif, else: exactly the first arm whose condition holds is run, or the else part; finished arms leave through the escape list |
| `LuaStatementRuns.ArmRun` | dep/lualib/lparser.c:1374-1406 | one arm: taken exactly when its condition holds, otherwise control arrives behind it with the locals unchanged; both when the arm starts with a break and when it does not |
| `LuaStatementRuns.LoneBreakRun` | dep/lualib/lparser.c:1382-1389 | an arm that is only a break leaves the loop on the condition's own jump, with nothing to skip |
| `LuaStatementRuns.IfRun` | dep/lualib/lparser.c:1419-1419 | patching the escape list makes every finished arm reach the end of the statement, and touches no break |
| `LuaStatementExits.StmtStays` | dep/lualib/lparser.c:1529-1599 | a run that had returned, jumped back or left through an outer list before a statement is not changed by its code |
| `LuaStatementExits.ConditionRun` | dep/lualib/lparser.c:1393-1397 | after a condition the run falls through exactly when it holds and leaves through the false list otherwise |
| `LuaStatementExits.LoopConditionRun` | dep/lualib/lparser.c:1169-1176 | the same for cond, where nil is turned into false first |
| `LuaStatementExits.OpenArmRun` | dep/lualib/lparser.c:1382-1397 | the condition of an arm leads to its block, over it, or out of the loop |
| `LuaStatementExits.EndArmRun` | dep/lualib/lparser.c:1401-1405 | the jump over the other arms joins the escape list, and the false list arrives behind it |
| `LuaTurns.PatchToRun` | dep/lualib/lcode.c:169-176 | luaK_patchlist to an earlier position or to here: exactly the runs that left through the list go on there, in the next forward run or, when the position is still ahead of them, at once |
| `LuaTurns.PatchEachRun` | dep/lualib/lparser.c:402-411 | findgotos at the end of a loop: exactly the runs that left through its breaks reach the end of the code |
| `LuaTurns.EndWhileRun` | dep/lualib/lparser.c:1244-1248 | the end of a while loop: a run that gets there starts it over, a break or a false condition gets behind it, every other run is as it was |
| `LuaPatch.ExecPatchBack` | dep/lualib/lcode.c:150-160 | patching jumps to an earlier place changes no other run |
| `LuaStatements.BodyOk` | dep/lualib/lparser.c:788-807 | every invariant holds when a whole function has been compiled, and its frame is below the limit |
| `LuaStatements.StmtOk` | dep/lualib/lparser.c:1529-1599 | every statement leaves exactly the locals in registers, no list of an enclosing statement changed, and its pending breaks as new lists apart from all others |
| `LuaStatements.BlockOk` | dep/lualib/lparser.c:604-615 | the same for lists of statements |
| `LuaStatements.WhileOk` | dep/lualib/lparser.c:1233-1249 | a while loop leaves no break pending and keeps every outer list; its jumps back go to a recorded label |
| `LuaStatements.RepeatOk` | dep/lualib/lparser.c:1252-1269 | the same for a repeat loop |
| `LuaStatements.BranchOk` | dep/lualib/lparser.c:1409-1420 | false lists, escape lists and pending breaks stay disjoint and intact across nested blocks; escapes come only from this statement |
| `LuaStatements.PatchToOk` | dep/lualib/lcode.c:169-176 | luaK_patchlist keeps the invariants and every other list |
| `LuaParser.IfStat` | dep/lualib/lparser.c:1409-1420 | ifstat on the linked lists: the escape list is threaded through arms compiled between its links, and lists of enclosing statements keep theirs |
| `LuaParser.TestThenBlock` | dep/lualib/lparser.c:1374-1406 | test_then_block on the linked lists, with its special case for break; the false list survives the compilation of the block between its links |
| `LuaParser.WhileStat` | dep/lualib/lparser.c:1233-1249 | whilestat on the state updated in place: after it the pending gotos are those from before |
| `LuaParser.RepeatStat` | dep/lualib/lparser.c:1252-1269 | repeatstat on the state updated in place |
| `LuaParser.FindGotos` | dep/lualib/lparser.c:402-411 | the loop of findgotos: each closegoto patches one list and takes it off the pending ones, until only those of outer loops are left |
| `LuaParser.BreakStat` | dep/lualib/lparser.c:1179-1191 | gotostat for break: the new list is pending, or there are too many |
| `LuaParser.StatList` | dep/lualib/lparser.c:604-615 | statlist on the state updated in place |
| `LuaExprLists.LocalsRun` | dep/lualib/lparser.c:1434-1451 | a declaration of any number of names and values: missing values are nil, extra ones dropped, all computed before any name is in scope |
| `LuaExprLists.AdjustAssignRun` | dep/lualib/lparser.c:310-327 | names without a value get nil in one range, and no other register changes |
| `LuaExprLists.NextRegsRun` | dep/lualib/lparser.c:810-820 | the expressions of a list are all evaluated on the registers the list was reached with, and end in consecutive registers |
| `LuaExprLists.NextRegsOk` | dep/lualib/lparser.c:810-820 | a list of expressions takes exactly one register for each |
| `LuaExprLists.ReturnValuesRun` | dep/lualib/lparser.c:1496-1524 | return delivers all values of its list in order, whatever number there are |
| `LuaExprLists.NextRegRun` | dep/lualib/lcode.c:492-497 | any expression compiled to the next register: every run that reaches the code goes on to its end with the value there and all lower registers unchanged |
| `LuaExprLists.NextRegTakesOne` | dep/lualib/lcode.c:261-288 | register discipline: compiling any expression to the next register raises `freereg` by exactly one, within `maxstacksize` |
| `LuaAssignment.AssignRun` | dep/lualib/lparser.c:1136-1166 | multiple assignment: all values are computed from the old locals before any local changes, then stored last to first, for any numbers of locals and values |
| `LuaAssignment.StoresFirst` | dep/lualib/lparser.c:1136-1166 | storing last to first is a simultaneous assignment in which the first of several values for one local wins |
| `LuaAssignment.StoreAllRun` | dep/lualib/lparser.c:1164-1165 | the stores of one assignment never overwrite a value that is still to be stored |
| `LuaAssignment.StoreLocalRun` | dep/lualib/lcode.c:558-565 | luaK_storevar on a local changes that register only, for any descriptor |
| `LuaAssignment.AssignOk` | dep/lualib/lparser.c:1136-1166 | an assignment gives back every register it took, also the ones of extra values; the freereg assertion holds at each store |
| `LuaCompiler.CompileRun` | dep/lualib/lparser.c:1037-1064 | compiler correctness: for every expression over locals, literals, strings, arithmetic, concatenation, comparisons, `not`, `and`, `or`, the code computes its value from the registers a run arrives with, and leaves every other run alone |
| `LuaCompiler.CompileOk` | dep/lualib/lparser.c:1037-1064 | compiling any expression keeps all invariants; its jump lists are new, acyclic and disjoint from all others, and it holds at most the first free register |
| `LuaCompiler.AndRun` | dep/lualib/lcode.c:815-823 | `and`: the right operand is run exactly when the left one is true, otherwise the left value is the result |
| `LuaCompiler.OrRun` | dep/lualib/lcode.c:823-829 | `or`: the right operand is run exactly when the left one is false, otherwise the left value is the result |
| `LuaCompiler.BinaryRun` | dep/lualib/lcode.c:842-858 | arithmetic, comparison and concatenation apply to the values of both operands |
| `LuaCompiler.UnaryRun` | dep/lualib/lcode.c:762-783 | `-`, `#` and `not` apply to the operand's value, numerals folded |
| `LuaCompiler.EvalAgree` | dep/lualib/lparser.c:1037-1064 | the value of an expression depends on the locals in scope only |
| `LuaParser.AssignStat` | dep/lualib/lparser.c:1136-1166 | assignment to locals on the state updated in place |
| `LuaParser.ExpList` | dep/lualib/lparser.c:810-820 | the loop of explist |
| `LuaParser.WholeRepresents` | dep/lualib/lcode.c:100-106 | the same over whole runs with jumps back |
| `LuaParser.ExecRepresents` | dep/lualib/lcode.c:100-106 | links threaded through jumps that are never taken do not change a run |
| `LuaSemantics.Exp2RegRun` | dep/lualib/lcode.c:468-489 | exp2reg puts the value of any descriptor into the register, whichever way control reaches the end |
| `LuaSemantics.CloseListsRun` | dep/lualib/lcode.c:468-489 | closing both lists makes every run that left through them arrive with the value its test carried or the boolean of its list |
| `LuaSemantics.LoadLabelsRun` | dep/lualib/lcode.c:474-482 | the LOADBOOL pair is jumped over by values already in place and entered at the false half by a comparison that falls through |
| `LuaSemantics.Discharge2RegRun` | dep/lualib/lcode.c:421-457 | discharge2reg stores what the descriptor denotes, for every kind |
| `LuaSemantics.PatchListRun` | dep/lualib/lcode.c:150-160 | patching a list redirects exactly the runs that left through it, storing the values of TESTSETs |
| `LuaSemanticsOps.GoIfTrueRun` | dep/lualib/lcode.c:621-642 | after goiftrue a run falls through exactly when the expression is true, and otherwise leaves through the `f` list with its value; inverted comparisons, constants and removed NOTs included |
| `LuaSemanticsOps.GoIfFalseRun` | dep/lualib/lcode.c:645-665 | after goiffalse a run falls through exactly when the expression is false, and otherwise leaves through the `t` list |
| `LuaSemanticsOps.JumpOnCondRun` | dep/lualib/lcode.c:606-618 | the jump of jumponcond is taken exactly when the value has the wanted truth, also when a NOT is removed again |
| `LuaSemanticsOps.InvertJumpRun` | dep/lualib/lcode.c:598-603 | inverting a comparison exchanges falling through and leaving |
| `LuaSemanticsOps.CodeNotRun` | dep/lualib/lcode.c:668-700 | codenot computes the negation: values are negated, lists exchanged and stripped of their values |
| `LuaSemanticsOps.RemoveValuesExec` | dep/lualib/lcode.c:144-147 | turning TESTSETs of a list into TESTs changes no run |
| `LuaSemanticsOps.CodeConcatRun` | dep/lualib/lcode.c:830-842 | a chain of concatenations merged into one instruction computes the right-associated value, although the instruction works on the registers of its operands |
| `LuaSemanticsOps.CodeArithRun` | dep/lualib/lcode.c:713-743 | codearith computes the operator on both values, folded or emitted |
| `LuaSemanticsOps.CodeCompRun` | dep/lualib/lcode.c:746-759 | codecomp jumps exactly when the comparison holds, operands exchanged for `>` and `>=` |
| `LuaSemanticsOps.CodeUnaryRun` | dep/lualib/lcode.c:762-783 | `-` and `#` compute their operator on the value |
| `LuaSemanticsOps.Exp2RKRun` | dep/lualib/lcode.c:528-555 | the operand exp2RK returns is a register below 250, or a constant whose index fits in eight bits, and holds the value of the expression |
| `LuaSemanticsOps.Exp2AnyRegRun` | dep/lualib/lcode.c:500-511 | exp2anyreg leaves the value in the register it returns |
| `LuaSemanticsOps.Exp2NextRegRun` | dep/lualib/lcode.c:492-497 | exp2nextreg leaves the value in the first free register |
| `LuaSemanticsOps.OperandsRun` | dep/lualib/lcode.c:724-730 | both operands are in place together: making the second an operand does not disturb the first |
| `LuaRuns.LoadNilsRun` | dep/lualib/lcode.c:37-56 | luaK_nil sets exactly the registers asked for, merged into the previous LOADNIL or not: merging happens only where nothing can land in between |
| `LuaRuns.MergedNils` | dep/lualib/lcode.c:46-52 | the merged range is the union of both ranges |
| `LuaRuns.JumpRun` | dep/lualib/lcode.c:59-66 | jump threading: what would have reached the new jump is on its list instead, with the same registers, and every other run is as before |
| `LuaRuns.PatchToHereRun` | dep/lualib/lcode.c:192-195 | patching to here makes exactly the runs on the list reach the end of the code |
| `LuaPatch.ExecPatch` | dep/lualib/lcode.c:150-160 | patching sends exactly the runs that left through the nodes on from their destination, with the value delivered |
| `LuaPatch.ExecAppend` | dep/lualib/lcode.c:212-224 | appending instructions does not change a run until it reaches the old end |
| `LuaShapeOps.Exp2RegResolves` | dep/lualib/lcode.c:468-489 | patching is total: exp2reg gives every node of both lists a destination, the end of the code with the register filled for a TESTSET, the matching LOADBOOL otherwise |
| `LuaShapeOps.Exp2RegOk` | dep/lualib/lcode.c:468-489 | exp2reg keeps the invariants and every list of other expressions |
| `LuaShapeOps.Exp2NextRegOk` | dep/lualib/lcode.c:492-497 | the descriptor ends in the first free register, and `freereg` is one more |
| `LuaShapeOps.Exp2AnyRegOk` | dep/lualib/lcode.c:500-511 | invariants and register discipline of exp2anyreg |
| `LuaShapeOps.Exp2RKOk` | dep/lualib/lcode.c:528-555 | invariants and register discipline of exp2RK; its operand is below 250, or a constant with an index of at most 255 |
| `LuaShapeOps.ConstantOperand` | dep/lualib/lcode.c:547-552 | a constant of the table is an operand itself exactly if its index is at most 255; otherwise it is loaded into a register |
| `LuaEncoding.PackedBack` | dep/lualib/lopcodes.h:116-126 | an instruction that fits its fields is one 32-bit word: packing it and reading the fields of the word gives it back |
| `LuaParser.FinishedFits` | dep/lualib/lopcodes.h:38-76 | every instruction of finished code fits: registers below 250, constant operands with eight bits of index, offsets within 131071; so no jump is left without a destination |
| `LuaShapeOps.FreeExpsOk` | dep/lualib/lcode.c:731-738 | codearith releases its operands last one first, whatever order they were put into registers, so the assertion of freereg holds |
| `LuaShapeOps.FreeExpOk` | dep/lualib/lcode.c:277-288 | the register released is the last one taken |
| `LuaShapeOps.JumpOnCondOk` | dep/lualib/lcode.c:606-618 | the new jump belongs to no list and everything else is kept |
| `LuaShapeOps.GoIfTrueOk` | dep/lualib/lcode.c:621-642 | one list ends here, the other is extended, all lists stay disjoint |
| `LuaShapeOps.GoIfFalseOk` | dep/lualib/lcode.c:645-665 | the mirror image |
| `LuaShapeOps.CodeNotOk` | dep/lualib/lcode.c:668-700 | codenot keeps the invariants |
| `LuaShapeOps.CodeArithOk` | dep/lualib/lcode.c:724-743 | codearith keeps the invariants and leaves one relocatable result |
| `LuaShapeOps.CodeCompOk` | dep/lualib/lcode.c:746-759 | codecomp keeps the invariants; its jump follows its test |
| `LuaShapeOps.ConcatFollows` | dep/lualib/lcode.c:830-835 | the assertion in luaK_posfix never fails: the operands of a waiting concatenation start right above the left operand |
| `LuaShapeOps.CodeConcatOk` | dep/lualib/lcode.c:830-842 | concatenation, merged or not, keeps the invariants and gives back all registers but the first |
| `LuaShapeOps.InfixOk` | dep/lualib/lcode.c:786-810 | infix leaves an operand that survives compiling the right one |
| `LuaShapeOps.PosfixOk` | dep/lualib/lcode.c:813-859 | posfix keeps the invariants and merges the lists of both operands |
| `LuaShape.EmitOk` | dep/lualib/lcode.c:212-224 | emitting an instruction discharges `jpc` and keeps every other list and the shape of the code |
| `LuaShape.CondJumpOk` | dep/lualib/lcode.c:74-77 | a test is immediately followed by its jump |
| `LuaShape.JumpOk` | dep/lualib/lcode.c:59-66 | the new jump takes over the jumps to here |
| `LuaShape.PatchToHereOk` | dep/lualib/lcode.c:192-195 | a list joins `jpc` at a recorded jump target |
| `LuaShape.LoadNilsOk` | dep/lualib/lcode.c:37-56 | merging keeps the shape of the code |
| `LuaShape.CloseListsOk` | dep/lualib/lcode.c:468-489 | closing the lists of one expression keeps all others |
| `LuaConstants.AddAllFaithful` | dep/lualib/lcode.c:291-356 | over any run of constant requests every index returned holds, at the end, the bit-exact constant requested; earlier entries never change |
| `LuaConstants.AddKFaithful` | dep/lualib/lcode.c:291-316 | one request: the index holds the constant, also when its key collides |
| `LuaConstants.SameKeySameBits` | dep/lualib/lcode.c:326-340 | equal keys and raw equality mean equal bits: 0.0 and -0.0 never share a slot |
| `LuaConstants.DoubleClasses` | dep/lualib/lcode.c:326-340 | zeros and NaNs by the exponent and fraction fields of a double |
| `LittleEndian.LEInjective` | dep/lualib/lcode.c:332-334 | the raw bytes of a number determine it |
| `LuaConstants.AddKReuses` | dep/lualib/lcode.c:291-303 | a constant requested again is found again, unless it is a NaN |
| `LuaFuncState.FuncState.constructor` | dep/lualib/lparser.c:525-551 | an empty function: `pc`, `lasttarget` 0, no jumps to here, two registers in its frame |
| `LuaFuncState.FuncState.FixJump` | dep/lualib/lcode.c:80-87 | sets the offset of one jump, or reports that it is out of reach |
| `LuaFuncState.FuncState.NeedValue` | dep/lualib/lcode.c:122-128 | walks the list: true exactly when some node carries no value |
| `LuaFuncState.FuncState.PatchTestReg` | dep/lualib/lcode.c:131-141 | a controlling TESTSET stores into the register or becomes a TEST; other controls are left |
| `LuaFuncState.FuncState.PatchNode` | dep/lualib/lcode.c:152-157 | one node of patchlistaux |
| `LuaFuncState.FuncState.PatchListAux` | dep/lualib/lcode.c:150-160 | in-place patching of a linked list equals patching its nodes at once; never asked to patch to NO_JUMP |
| `LuaFuncState.FuncState.LastOf` | dep/lualib/lcode.c:203-206 | finds the last node of a list |
| `LuaFuncState.FuncState.Concat` | dep/lualib/lcode.c:198-209 | threads one list through both, in order; nothing else changes |
| `LuaFuncState.FuncState.DischargeJpc` | dep/lualib/lcode.c:163-166 | all jumps to here get their destination |
| `LuaFuncState.FuncState.Code` | dep/lualib/lcode.c:212-224 | luaK_code on the real list representation |
| `LuaFuncState.FuncState.Jump` | dep/lualib/lcode.c:59-66 | luaK_jump on the real list representation |
| `LuaFuncState.FuncState.PatchToHere` | dep/lualib/lcode.c:192-195 | luaK_patchtohere on the real list representation |
| `LuaFuncState.FuncState.CondJump` | dep/lualib/lcode.c:74-77 | a test and its jump |
| `LuaFuncState.FuncState.CheckStack` | dep/lualib/lcode.c:261-268 | raises the frame size, or the "too complex" error, exactly when the frame has to grow to 250 registers or more |
| `LuaFuncState.FuncState.ReserveRegs` | dep/lualib/lcode.c:271-274 | registers are taken within the frame |
| `LuaFuncState.FuncState.FreeReg` | dep/lualib/lcode.c:277-282 | releases a register; the assertion of the source is the precondition |
| `LuaFuncState.FuncState.AddK` | dep/lualib/lcode.c:291-316 | the constant table and its index, updated together |
| `LuaFuncState.FuncState.NumberK` | dep/lualib/lcode.c:326-340 | zeros and NaNs are keyed by their bytes |
| `LuaFuncState.FuncState.LoadNils` | dep/lualib/lcode.c:37-56 | luaK_nil, merging in place |
| `LuaFuncState.FuncState.Discharge2Reg` | dep/lualib/lcode.c:421-457 | discharge2reg with the descriptor updated in place |
| `LuaFuncState.FuncState.CloseLists` | dep/lualib/lcode.c:473-485 | the LOADBOOL pair and both patchings, on linked lists |
| `LuaFuncState.FuncState.Exp2Reg` | dep/lualib/lcode.c:468-489 | exp2reg; jump lists of other expressions keep their links |
| `LuaFuncState.FuncState.Exp2NextReg` | dep/lualib/lcode.c:492-497 | exp2nextreg in place |
| `LuaFuncState.FuncState.Exp2AnyReg` | dep/lualib/lcode.c:500-511 | exp2anyreg in place |
| `LuaFuncState.FuncState.Exp2RK` | dep/lualib/lcode.c:528-555 | exp2RK in place; the operand returned is a register below 250, or a constant with an index of at most 255 |
| `LuaFuncState.FuncState.InvertJump` | dep/lualib/lcode.c:598-603 | flips the condition of the controlling comparison |
| `LuaFuncState.FuncState.JumpOnCond` | dep/lualib/lcode.c:606-618 | jumponcond, taking back a just emitted NOT |
| `LuaFuncState.FuncState.GoIfTrue` | dep/lualib/lcode.c:621-642 | goiftrue on linked lists |
| `LuaFuncState.FuncState.GoIfFalse` | dep/lualib/lcode.c:645-665 | goiffalse on linked lists |
| `LuaFuncState.FuncState.RemoveValues` | dep/lualib/lcode.c:144-147 | removevalues on linked lists |
| `LuaFuncState.FuncState.CodeNot` | dep/lualib/lcode.c:668-700 | codenot on linked lists |
| `LuaFuncState.FuncState.FreeExps` | dep/lualib/lcode.c:731-738 | the operand in the higher register is released first |
| `LuaFuncState.FuncState.CodeArith` | dep/lualib/lcode.c:724-743 | codearith in place |
| `LuaFuncState.FuncState.CodeComp` | dep/lualib/lcode.c:746-759 | codecomp in place |
| `LuaFuncState.FuncState.CodeConcat` | dep/lualib/lcode.c:830-842 | a concatenation that waits for its register takes one more operand, otherwise a new one is emitted; the assertion on its first operand holds |
| `LuaFuncState.FuncState.Prefix` | dep/lualib/lcode.c:762-783 | luaK_prefix |
| `LuaFuncState.FuncState.Infix` | dep/lualib/lcode.c:786-810 | luaK_infix |
| `LuaFuncState.FuncState.Posfix` | dep/lualib/lcode.c:813-859 | luaK_posfix |
| `LuaParser.Subexpr` | dep/lualib/lparser.c:1037-1064 | the parser's calls for any expression |
| `LuaFuncState.FuncState.StoreLocal` | dep/lualib/lcode.c:558-565 | luaK_storevar on a local |
| `LuaParser.FunctionBody` | dep/lualib/lparser.c:788-807 | parameters, statements and the final return; breaks still pending then raise the error of undefgoto |
| `LuaLinks.JoinedChain` | dep/lualib/lcode.c:198-209 | linking the last node of one list to another gives exactly the appended list: the terminator is never ambiguous |
| `LuaFuncState.ExpDesc.HasJumpsMeansLists` | dep/lualib/lcode.c:30-34 | comparing the two heads tells whether an expression has jumps, because disjoint lists only share NO_JUMP |
| `SfmtStream.FillIsDraws` | dep/SFMT/SFMT.c:293-299 | bulk filling yields exactly the next `size` single draws, and all later draws agree, for every size allowed |
| `SfmtStream.DrawsTakeNext` | dep/SFMT/SFMT.h:139-149 | repeated draws return the numbers of one fixed sequence in order |
| `SfmtStream.DrawTakesNext` | dep/SFMT/SFMT.h:139-149 | a draw takes the next number and leaves the others to come |
| `SfmtStream.WindowContinues` | dep/SFMT/SFMT.c:245-263 | the sequence goes on from any regenerated state |
| `SfmtStream.BlockLinear` | dep/SFMT/SFMT-common.h:142-158 | every word of the sequence is linear over GF(2) in the state |
| `SfmtStream.WindowLinear` | dep/SFMT/SFMT.c:245-263 | the whole-state transition is linear over GF(2) |
| `SfmtGenerator.DoRecursion` | dep/SFMT/SFMT-common.h:142-158 | the recursion written piece by piece gives, on the old words and for any aliasing of the output with the inputs, a ^ a * 2^(8 sl2) ^ (b >> sr1 & mask) ^ c / 2^(8 sr2) ^ (d << sl1) as 128-bit numbers, the second and fourth terms in 32-bit pieces |
| `SfmtGenerator.LeftShift128` | dep/SFMT/SFMT-common.h:100-114 | the shift from 64-bit halves |
| `SfmtGenerator.RightShift128` | dep/SFMT/SFMT-common.h:60-74 | the shift from 64-bit halves |
| `SfmtGenerator.Sfmt.GenRandAll` | dep/SFMT/SFMT.c:245-263 | in-place regeneration puts the next N words of the sequence into the state |
| `SfmtGenerator.Sfmt.GenRandArray` | dep/SFMT/SFMT.c:95-128 | the array gets the next `size` words and the state the last N of them, for sizes below and above 2N |
| `SfmtGenerator.Sfmt.GenRand32` | dep/SFMT/SFMT.h:139-149 | one draw |
| `SfmtGenerator.Sfmt.FillArray32` | dep/SFMT/SFMT.c:293-299 | bulk filling as a sequence of 32-bit numbers |
| `SfmtWords.Lshift128Multiplies` | dep/SFMT/SFMT-common.h:100-114 | lshift128 is multiplication by 2^(8k) modulo 2^128 |
| `SfmtWords.Rshift128Divides` | dep/SFMT/SFMT-common.h:60-74 | rshift128 is floor division by 2^(8k) |
| `SfmtWords.RecNumber` | dep/SFMT/SFMT-common.h:142-158 | the recursion as one equation on 128-bit numbers |
| `SfmtWords.RecSplits` | dep/SFMT/SFMT-common.h:142-158 | the four operands act independently, so the next four rows fix the recursion |
| `SfmtWords.FirstOperand` | dep/SFMT/SFMT-common.h:148-157 | the first operand alone gives a ^ a * 2^(8 sl2) modulo 2^128 |
| `SfmtWords.SecondOperand` | dep/SFMT/SFMT-common.h:150-157 | the second operand alone gives its pieces shifted right by sr1 and masked |
| `SfmtWords.ThirdOperand` | dep/SFMT/SFMT-common.h:149-157 | the third operand alone gives c / 2^(8 sr2) |
| `SfmtWords.FourthOperand` | dep/SFMT/SFMT-common.h:150-157 | the fourth operand alone gives its pieces shifted left by sl1 |
| `SfmtWords.RecXor` | dep/SFMT/SFMT-common.h:142-158 | do_recursion is linear over GF(2) |
| `SfmtParity.CertifiedInner` | dep/SFMT/SFMT.c:170-200 | after certification the inner product is 1 exactly if it was 1 or the parity vector is not zero; the bit that changes is the first one the parity vector selects, and none does if it was 1; the word is then not zero |
| `SfmtParity.FoldsToOdd` | dep/SFMT/SFMT.c:181-184 | folding by 16, 8, 4, 2 and 1 computes the parity of the 32 bits |
| `SfmtParity.FlipChangesInner` | dep/SFMT/SFMT.c:190-199 | flipping a selected bit changes the inner product |
| `SfmtSeeding.PeriodCertification` | dep/SFMT/SFMT.c:170-200 | the loops flip the first selected bit exactly when the inner product is not 1 |
| `SfmtSeeding.CertifyNonzero` | dep/SFMT/SFMT.c:170-200 | with a nonzero parity vector a certified state is not zero |
| `SfmtSeeding.InitGenRand` | dep/SFMT/SFMT.c:349-362 | the seeded state, certified and not zero |
| `SfmtSeeding.InitByArray` | dep/SFMT/SFMT.c:371-434 | the three mixing loops as a function of the keys, certified and not zero |
| `SfmtSeeding.MixAllKeys` | dep/SFMT/SFMT.c:397-421 | the first two loops run one round for every key word and for the zeros after them |
| `SfmtSteps.SeededIsSteps` | dep/SFMT/SFMT.c:371-430 | the three loops are max(key length + 1, N32) additive steps and N32 more, one word further each time |
| `SfmtSteps.Distances` | dep/SFMT/SFMT.c:375-391 | which words a step mixes, in figures: the distance behind the middle word is 11, 7, 5 or 3 by the size of the state, from 623, 68, 39 words and below, and half of the rest leads to the middle word |
| `SfmtSteps.AddedWords` | dep/SFMT/SFMT.c:397-421 | what an additive step writes into its three words, as integers modulo 2^32 |
| `SfmtSteps.MixedWords` | dep/SFMT/SFMT.c:422-430 | what a step of the third loop writes into its three words |
| `SfmtSteps.OtherWords` | dep/SFMT/SFMT.c:397-430 | no step changes another word |
| `SfmtSteps.StepWordIs` | dep/SFMT/SFMT.c:397-421 | the key word and index each additive step adds |
| `SfmtSteps.Func1Is` | dep/SFMT/SFMT.c:152-154 | func1 is multiplication of x ^ (x >> 27) by 1664525 modulo 2^32 |
| `SfmtSteps.Func2Is` | dep/SFMT/SFMT.c:162-164 | func2 is multiplication of x ^ (x >> 27) by 1566083941 modulo 2^32 |
| `SfmtSteps.SeedWordIs` | dep/SFMT/SFMT.c:349-362 | the seeding recurrence, with 1812433253, modulo 2^32 |
| `SfmtIntegers.IntTimes` | dep/SFMT/SFMT.c:152-154 | the product of two words modulo 2^32, against the integers |
| `SfmtMixing.Func1Permutes` | dep/SFMT/SFMT.c:152-154 | func1 is a permutation of the 32-bit words |
| `SfmtMixing.Func2Permutes` | dep/SFMT/SFMT.c:162-164 | func2 is a permutation of the 32-bit words |
| `SfmtMixing.IndicesDistinct` | dep/SFMT/SFMT.c:378-388 | the four indices of a round are pairwise distinct modulo N32 |
| `SfmtMixing.RoundAddPermutes` | dep/SFMT/SFMT.c:404-421 | every round of the first two loops is a permutation of the states, with an explicit inverse |
| `SfmtMixing.RoundXorPermutes` | dep/SFMT/SFMT.c:422-430 | every round of the third loop is a permutation of the states |
| `SfmtMixing.SeededInjective` | dep/SFMT/SFMT.c:396-430 | mixing with a fixed key loses nothing of the state |
| `SfmtMixing.SeededSeesEveryWord` | dep/SFMT/SFMT.c:396-430 | all key words are consumed: changing any one word of a key changes the mixed state |
| `SfmtMixing.ShortKeysTellApart` | dep/SFMT/SFMT.c:371-430 | any two different keys of one length, up to the distance to the middle word, seed different states |
| `LuaUndump.FunctionBack` | dep/lualib/ldump.c:139-150 | loading gives back the dumped prototype, or the prototype without debug information, and stops exactly where the dump ended |
| `LuaUndump.UniquelyDecodable` | dep/lualib/ldump.c:29-150 | unstripped dumps followed by anything determine the prototype and what follows |
| `LuaUndump.StrippedDecodable` | dep/lualib/ldump.c:120-136 | stripped dumps followed by anything determine everything but the debug information |
| `LuaUndump.StrippedCoincide` | dep/lualib/ldump.c:120-136 | stripped dumps coincide exactly when the prototypes agree up to debug information at every level |
| `LuaUndump.StringBack` | dep/lualib/ldump.c:61-74 | NULL and the empty string are different |
| `LuaUndump.ConstBack` | dep/lualib/ldump.c:80-103 | constants are read back |
| `LuaUndump.DebugBack` | dep/lualib/ldump.c:120-136 | debug sections are read back, empty when stripped |
| `LuaUndump.HeadBack` | dep/lualib/ldump.c:139-147 | the fields before the nested functions are read back |
| `LuaLayout.DumpIs` | dep/lualib/ldump.c:139-150 | a dumped function byte for byte, against a layout written without the dumper's tags and blocks |
| `LuaLayout.Positions` | dep/lualib/ldump.c:139-147 | where the fixed fields and every instruction are: the two lines at 0 and 4, three bytes from 8 on, the number of instructions at 11, instruction i at 15 + 4 i |
| `LuaLayout.ConstantIs` | dep/lualib/ldump.c:80-103 | a constant starts with 0, 1, 3 or 4 for nil, a boolean, a number or a string |
| `LuaLayout.HeaderBytes` | dep/lualib/lundump.c:244-258 | signature, version, format, byte order and tail of the header |
| `LuaLayout.HeaderSizes` | dep/lualib/lundump.c:244-258 | the sizes in the header are those the dump really uses for an int, a size, an instruction and a number, and its byte order is the one of the dump |
| `LuaDumper.OfferedPrefix` | dep/lualib/ldump.c:29-37 | a writer gets the blocks in order up to the first it refuses and none after; the status is 0 exactly if it refuses none |
| `LuaDumper.DumpChunk` | dep/lualib/ldump.c:162-173 | luaU_dump: status 0 means the whole chunk was written, any other status is the writer's last answer |
| `LuaDumper.ChunkBack` | dep/lualib/lundump.c:206-233 | a chunk written without refusal loads back |
| `LuaDumper.DumpState.DumpBlock` | dep/lualib/ldump.c:29-37 | nothing is offered after a failure |
| `LuaDumper.DumpState.DumpString` | dep/lualib/ldump.c:61-74 | size and bytes with the trailing zero, or size 0 |
| `LuaDumper.DumpState.DumpHead` | dep/lualib/ldump.c:80-103 | fields, code and constants |
| `LuaDumper.DumpState.DumpUpvalues` | dep/lualib/ldump.c:109-118 | upvalue descriptors |
| `LuaDumper.DumpState.DumpDebug` | dep/lualib/ldump.c:120-136 | debug information or its empty form |
| `LuaDumper.DumpState.DumpFunction` | dep/lualib/ldump.c:139-150 | the recursive serializer offers exactly the blocks of its specification |
| `AuxRefs.RunOk` | dep/lualib/lauxlib.c:522-551 | over any run of references and releases of live references, the table holds under every live reference the value it was made for, and the free list stays acyclic and disjoint from them |
| `AuxRefs.RunFresh` | dep/lualib/lauxlib.c:522-540 | over any run, every new reference differs from all that are live at that moment, and from the table's own keys |
| `AuxRefs.RefOk` | dep/lualib/lauxlib.c:522-540 | a new reference is neither live nor an entry of the table's own, and changes nothing else |
| `AuxRefs.UnrefOk` | dep/lualib/lauxlib.c:543-551 | a released reference joins the free list; negative references are ignored |
| `AuxRefs.NilRef` | dep/lualib/lauxlib.c:524-527 | the reference to nil is -1, and releasing it or any other negative one changes nothing |
| `AuxRefs.NextGiven` | dep/lualib/lauxlib.c:529-549 | a released reference goes to slot 0 and is the next one given |
| `AuxRefs.OneBorder` | dep/lualib/lauxlib.c:535-536 | when the length is consulted there are no holes, so the border is unique |
| `AuxRefs.OwnEntriesStay` | dep/lualib/lauxlib.c:522-551 | the table's own entries survive any run |
| `AuxRefs.Popped` | dep/lualib/lauxlib.c:529-534 | taking the first free reference leaves a list through the others |
| `AuxRefs.Pushed` | dep/lualib/lauxlib.c:544-549 | giving a reference back puts it in front of the list |
| `AuxRefs.RefTable.Ref` | dep/lualib/lauxlib.c:522-540 | luaL_ref on the table |
| `AuxRefs.RefTable.Unref` | dep/lualib/lauxlib.c:543-551 | luaL_unref on the table |
| `AuxFindField.FindIff` | dep/lualib/lauxlib.c:43-64 | the search succeeds exactly when a path of at most `level` string keys leads to the object |
| `AuxFindField.FindSound` | dep/lualib/lauxlib.c:43-64 | what is found is such a path |
| `AuxFindField.FindComplete` | dep/lualib/lauxlib.c:43-64 | any such path makes the search succeed, cyclic tables included |
| `AuxFindField.LuaState.FindField` | dep/lualib/lauxlib.c:43-64 | the stack is left as it was, with the dotted name of the path found on top if there is one |
| `AuxFindField.LuaState.JoinNames` | dep/lualib/lauxlib.c:53-57 | the stack operations that join two names |
| `AuxBuffer.GrowthIsSafe` | dep/lualib/lauxlib.c:439-446 | the overflow check is exact, and growth that passes it never wrapped |
| `AuxBuffer.WrappedDoublingRejects` | dep/lualib/lauxlib.c:441-446 | an input on which doubling wraps and an error is raised although the content would fit |
| `AuxBuffer.Buffer.PrepBuffSize` | dep/lualib/lauxlib.c:437-456 | room for `sz` characters with the content unchanged, or an error exactly under the condition above; the stack holds at most one box |
| `AuxBuffer.Buffer.AddLString` | dep/lualib/lauxlib.c:459-463 | the content is extended by the string |
| `AuxBuffer.Buffer.AddChar` | dep/lualib/lauxlib.h:152-154 | the content is extended by one character |
| `AuxBuffer.Buffer.AddValue` | dep/lualib/lauxlib.c:485-493 | the value on top of the stack is moved into the buffer |
| `AuxBuffer.Buffer.PushResult` | dep/lualib/lauxlib.c:471-476 | the content is pushed and the box removed |
| `AuxBuffer.Buffer.PushResultSize` | dep/lualib/lauxlib.c:479-482 | the same after the caller has filled part of the free area |
| `AuxGsub.ReplaceJoins` | dep/lualib/lauxlib.c:902-916 | the result joins, with the replacement, the pieces of the leftmost splitting; joined with the pattern they are the string |
| `AuxGsub.SplitUnique` | dep/lualib/lauxlib.c:902-916 | there is only one leftmost splitting |
| `AuxGsub.FirstIsLeast` | dep/lualib/lauxlib.c:907-907 | strstr finds the first occurrence |
| `AuxGsub.ProgressIff` | dep/lualib/lauxlib.c:907-911 | one turn of the loop makes progress exactly when the pattern is not empty |
| `AuxGsub.EmptyPatternTurns` | dep/lualib/lauxlib.c:907-911 | with an empty pattern, after any number of turns the string is as it was and the buffer holds that many copies of the replacement: nothing but the buffer error ends the loop |
| `AuxGsub.Gsub` | dep/lualib/lauxlib.c:902-916 | the loop returns the replacement of every leftmost, non-overlapping occurrence |

## Left out

- Code generator: calls, varargs, upvalues, table access, closures and SETLIST; line information;
  garbage collection barriers. They add instructions and operand kinds, not another kind of list or
  register discipline.
- Code generator: numeric and generic for loops (their own instructions), and goto to a named label.
- Code generator: names are resolved: a local is the number of its register.
- Code generator: the limit on nested C levels of the parser, and the one on the debug records of locals.
- Code generator: side effects of metamethods; `Prims` are functions of their operands.
- LuaParser.CompileFunction: assumes that folding numerals at compile time agrees with the runtime on
  numbers, because floating-point arithmetic itself is a parameter; bodies have no for loops, named
  gotos, calls or nested functions; whether a function compiles does not depend on how deep the source
  text is nested (200 levels in the parser) or on how many locals it declares one after the other
  (32767 debug records). A function that needs more registers, instructions or constants than the
  figures given may compile or not: they are bounds computed from the syntax.
- LuaStatementLimits.CompileSucceeds: the same two limits of the parser are not modelled, and the needs for
  registers, instructions and constants are upper bounds.
- LuaStatementEnds.FunctionRun: no for loops, named gotos, calls or nested functions in the body.
- LuaStatementRuns.StmtRun: for loops, named gotos, calls and function statements are not among the
  statements.
- LuaStatementEnds.StmtEnds: for loops, named gotos, calls and function statements are not among the
  statements.
- LuaStatementExits.StmtStays: for loops, named gotos, calls and function statements are not among the
  statements.
- LuaStatements.StmtOk: for loops, named gotos, calls and function statements are not among the
  statements.
- LuaStatementRuns.ArmRun: an arm may start with break, but not with a named goto.
- LuaParser.TestThenBlock: an arm may start with break, but not with a named goto.
- LuaParser.BreakStat: no named gotos, so no label is visible yet when a break is parsed.
- LuaParser.FindGotos: every pending goto inside a loop is one of its breaks.
- LuaExprLists.LocalsRun: no last expression with several results, because there are no calls or varargs.
- LuaExprLists.AdjustAssignRun: no last expression with several results, because there are no calls or
  varargs.
- LuaExprLists.ReturnValuesRun: no open calls, varargs or tail calls.
- LuaAssignment.AssignRun: all variables are locals, so conflicts with indexed ones do not arise.
- LuaAssignment.AssignOk: all variables are locals, so conflicts with indexed ones do not arise.
- LuaParser.AssignStat: all variables are locals, so conflicts with indexed ones do not arise.
- SFMT: SIMD variants, the 64-bit-only and big-endian branches, 64-bit draws and filling, conversions
  to double, and the period itself.
- SFMT: a key length is a natural number, and the key is a sequence that is only read.
- Chunks: other sizes of int, size_t and number, big-endian builds, and the loader's distinction
  between kinds of wrong headers; a boolean byte other than 0 and 1 loads as true, and a NULL string
  constant, which the source would dereference, is an error.
- Chunks: locks and memory allocation.
- References: the range of C ints, non-integer keys, and metamethods (the source uses raw access).
- findfield: tables are given as the sequence of entries `lua_next` visits; stack growth and the
  conversion of numbers to strings do not arise.
- Buffer: memory errors of the allocator; the initial size is a parameter.
- luaL_gsub: strings are sequences of characters without zeros; an empty pattern is outside
  `AuxGsub.Gsub` because the loop does not end by itself.
