# OmniRuntime: verified models of its compiler, driver, memory and string code

OmniRuntime is a vectorised query engine. This project models its most delicate parts in Dafny 4.11 and proves what
they are for. `dafny verify dfyconfig.toml` checks everything.

**The row expression compiler** (`sql_values`, `expressions`, `block_ir`, `code_shape`, `translation`, `steps`,
`ir_builder`, `meaning`, `*_proofs`, `string_equal`, `expression_codegen`). A SQL expression tree becomes a control-flow
graph over (data, null flag, length) triples, with branches, phis and stack slots. `Expressions.Eval` is the meaning of a
tree (Kleene logic, SQL null rules); `BlockIR` has the blocks and a strict machine that gets stuck on any undefined
register, slot or missing phi entry. Each `Visit` method emits code at the builder's insertion point and is proved to
compute its node: whatever stands behind a null, whatever the machine state and however columns are encoded. Registered
functions and runtime kernels are uninterpreted functions held to the null discipline of their registration
(`SqlValues.KernelOk`).

**The row loops and short cuts** (`selection`, `vectors`, `evaluator`). Filters and projections compile their trees
with the compiler above and run the emitted blocks on the machine, row by row; field and literal projections take the
short cuts. Filter-and-project is proved to return, column by column, each projection on the k-th passing row.

**The batch expression compiler** (`batch_*`). The second back end emits kernel calls over whole arrays; kernels
overwrite their left operand. Each visit is proved to own its arrays: no array still to be read is written by a later
visit. The result is compared with the row back end.

**Planner, driver, OmniTask** (`planner`, `pipeline`, `driver`, `task`, `transducers`). Operators are abstract machines
that keep a promise (`Pipeline.Lawful`); the driver's walk over a pipeline loses, repeats and reorders nothing, and ends.

**Memory** (`arena`, `accounting`, `memory_manager`, `allocator`). The bump arena over byte arrays, the accounting
protocol as interleaved atomic steps of any number of threads, and the accounting classes one call at a time.

**Algorithms** (`string_search`, `utf8`, `rounding`, `bloom_filter`, `int128`, `signature_names`).

Where the code does something other than one might expect, the model follows the code:

- A batch IN is never NULL (`core/src/codegen/batch_functions/batch_utilfunctions.h:156-165` clears the null flag), a row
  IN is NULL without a match when an operand is. `BatchMeaning.InAgrees` says exactly when they agree,
  `BatchMeaning.InDiffers` gives a tree on which a filter keeps different rows.
- Batch MOD of integers goes through doubles (`core/src/codegen/batch_functions/batch_mathfunctions.cpp:234`), row MOD
  does not (`core/src/codegen/functions/mathfunctions.cpp:253`). `BatchDivision.RemaindersAgree` says exactly when they
  agree, which is always up to 2^53; `BatchMeaning.ModDiffers` gives a filter that keeps different rows.
- The fill kernel of boolean literals writes four bytes per row into an array of one byte per row; the batch back end is
  right on such a literal exactly if it is false or the batch has one row (`BatchFill.FillBoolShows`).
- The string equality kernel goes by the first length only; the emitted length test makes it equality
  (`StringEqualProofs.SameLengthEquals`).
- A division by zero is NULL in the row back end and an error in the batch back end, even in a CASE branch that is not
  taken; a batch reports an error exactly when some row divides a value by zero somewhere in the tree.
- BETWEEN is NULL as soon as any operand is: for `5 BETWEEN 7 AND NULL` standard SQL says FALSE.
  `Expressions.BetweenExactly` says exactly when the two differ.
- Two threads can throw for one episode of being over the memory limit (`Accounting.RaceThrowsTwice`), exactly if at some
  moment both have tested the flag and neither has set it (`Accounting.OneThrowExactly`).
- `NumChars` is additive over whatever follows a text exactly if its scan stops at the end of the text and not beyond
  (`Utf8.AdditiveExactly`), as on well-formed text; a character cut short swallows bytes (`Utf8.CountNotAdditive`).
- The separator scan for null-variant names misses when a type name has an underscore of its own, which the two interval
  types have (`SignatureNames.RoutesAgree`).
- Rolling back a run of one piece does nothing, because `Allocate` clears the flag.
- `RoundOperator` at 19 places wraps, and is 0 at the two exact ties.

## Model

| member | source | states |
|---|---|---|
| ExpressionCodegen.ExpressionCodeGen.CreateFunction | core/src/codegen/expression_codegen.cpp:95-130 | A function is produced exactly for the trees the compiler has code for; it is well formed (every block ends, every phi names exactly its block's predecessors) and, entered in any machine state on any valid row, it runs to a return that denotes the SQL value of the tree |
| ExpressionCodegen.ExpressionCodeGen.VisitLiteral | core/src/codegen/expression_codegen.cpp:1987-2067 | A literal's operands denote the literal or NULL; no code is emitted |
| ExpressionCodegen.ExpressionCodeGen.VisitField | core/src/codegen/expression_codegen.cpp:140-241 | The dictionary/flat branch and its phis denote the column's value on the row, for every encoding |
| ExpressionCodegen.ExpressionCodeGen.VisitNot | core/src/codegen/expression_codegen.cpp:346-366 | The emitted code denotes the Kleene negation of the operand |
| ExpressionCodegen.ExpressionCodeGen.VisitBinary | core/src/codegen/expression_codegen.cpp:243-344 | AND, OR, comparisons and arithmetic are translated faithfully for every supported type; anything else is refused |
| ExpressionCodegen.ExpressionCodeGen.VisitBetween | core/src/codegen/expression_codegen.cpp:678-728 | BETWEEN: NULL when any operand is, else both comparisons |
| ExpressionCodegen.ExpressionCodeGen.VisitIf | core/src/codegen/expression_codegen.cpp:478-559 | IF: a false or NULL condition takes the else arm; only the arm taken is run and the phis pick its value |
| ExpressionCodegen.ExpressionCodeGen.VisitCoalesce | core/src/codegen/expression_codegen.cpp:730-792 | COALESCE: the second operand exactly when the first is NULL |
| ExpressionCodegen.ExpressionCodeGen.VisitIsNull | core/src/codegen/expression_codegen.cpp:794-806 | IS NULL is never NULL and reads the operand's flag only |
| ExpressionCodegen.ExpressionCodeGen.VisitIn | core/src/codegen/expression_codegen.cpp:561-676 | IN: true on a match, else NULL when the value or an element was NULL, else false, through the chain of compare blocks and the three slots |
| ExpressionCodegen.ExpressionCodeGen.VisitSwitch | core/src/codegen/expression_codegen.cpp:368-476 | CASE: the first branch whose condition is true, else the default, through one when and one then block per branch |
| ExpressionCodegen.ExpressionCodeGen.VisitFunc | core/src/codegen/expression_codegen.cpp:1034-1104 | A call denotes the registered function under its null discipline, with or without the overflow-to-null variant |
| ExpressionCodegen.ExpressionCodeGen.VisitExpr | core/src/codegen/expression_codegen.cpp:132-138 | Every kind of node: success exactly on compilable trees, and then the code emitted behind the old insertion point computes the tree and leaves all earlier values alone |
| ExpressionCodegen.FunctionWellFormed | core/src/codegen/expression_codegen.cpp:95-130 | Closing the last open block leaves a graph in which every phi names its predecessors exactly once each |
| ExpressionCodegen.FunctionImplements | core/src/codegen/expression_codegen.cpp:95-130 | Code that computes a tree, closed with a return, implements it from any start state |
| ExpressionCodegen.RunMeansEval | core/src/codegen/expression_codegen.cpp:95-130 | Wherever a run of a compiled function stops, it stops at a return of the tree's value: no run gets stuck and there is no other outcome |
| BlockIR.StopsOnce | core/src/codegen/expression_codegen.cpp:95-130 | The machine is deterministic: two stopped runs from one state end in the same state |
| NodeProofs.AndComputes | core/src/codegen/expression_codegen.cpp:258-265 | The four-instruction AND is Kleene conjunction, whatever data null operands carry |
| NodeProofs.OrComputes | core/src/codegen/expression_codegen.cpp:266-273 | The OR sequence is Kleene disjunction, whatever data null operands carry |
| NodeProofs.CompareComputes | core/src/codegen/expression_codegen.cpp:1467-1523 | Comparison kernels on integers, joined null flags |
| NodeProofs.StrOrderComputes | core/src/codegen/expression_codegen.cpp:1798-1835 | String order comparisons through the three-way compare kernel |
| NodeProofs.BetweenIntComputes | core/src/codegen/expression_codegen.cpp:2127-2196 | The BETWEEN comparison helper on integers |
| Expressions.BetweenExactly | core/src/codegen/expression_codegen.cpp:678-724 | BETWEEN is the Kleene conjunction of its two comparisons if and only if it is not the case that one bound is NULL and the value fails the other; there it is NULL for FALSE |
| Expressions.BetweenDiffers | core/src/codegen/expression_codegen.cpp:711 | 5 BETWEEN 7 AND NULL is NULL, the conjunction FALSE |
| ArithProofs.ArithComputes | core/src/codegen/expression_codegen.cpp:1288-1344 | The guarded arithmetic diamond: the kernel runs only where no operand is null, its null flag is joined in |
| StringEqualProofs.StrEqualityComputes | core/src/codegen/expression_codegen.cpp:1243-1274 | String equality by length test and prefix-compare kernel behind a null guard, across its branches and phis |
| StringEqualProofs.SameLengthEquals | core/src/codegen/functions/stringfunctions.cpp:77-85 | On strings of one length the kernel, which goes by the first length only, is string equality and stays inside both strings |
| StringEqualProofs.PrefixEquals | core/src/codegen/functions/stringfunctions.cpp:72-85 | Without the length test it takes a string and a longer one that starts with it for equal |
| BranchProofs.DiamondComputes | core/src/codegen/expression_codegen.cpp:478-559 | A two-armed branch with merging phis computes the arm its condition selects |
| ChoiceProofs.IfComputes | core/src/codegen/expression_codegen.cpp:478-559 | Condition, decision and diamond together are SQL's IF |
| ChoiceProofs.CoalesceComputes | core/src/codegen/expression_codegen.cpp:730-792 | The diamond on the null flag is COALESCE |
| FieldProofs.FieldComputes | core/src/codegen/expression_codegen.cpp:140-241 | The column access computes the cell for flat, string and dictionary columns |
| FuncProofs.FuncComputes | core/src/codegen/expression_codegen.cpp:1034-1104 | Arguments, joined null flags, kernel call and flag loads compute the SQL function |
| FuncProofs.KernelMeets | core/src/codegen/expression_codegen.cpp:2274-2297 | From the kernel contract alone: the returned data, length and combined null flag denote the function's value under every null discipline |
| InProofs.InComputes | core/src/codegen/expression_codegen.cpp:561-676 | The whole IN graph computes the IN rule |
| InProofs.ChainRuns | core/src/codegen/expression_codegen.cpp:591-658 | The chain of compare blocks reaches the true block on the first match, else the false block, with "an element was null" recorded |
| SwitchProofs.SwitchComputes | core/src/codegen/expression_codegen.cpp:368-476 | The whole CASE graph computes the first true branch |
| SwitchProofs.BranchesRun | core/src/codegen/expression_codegen.cpp:384-450 | From any when block on, the run ends in the merge block with the value of the first true branch from there |
| Evaluator.Call | core/src/codegen/filter_codegen.cpp:136-141 | Running a compiled function on a row ends, and yields the tree's value there |
| Evaluator.Filter.Apply | core/src/codegen/filter_codegen.cpp:90-168 | The do-while selection loop writes exactly the rows on which the predicate is true and not null, in increasing order, and nothing behind them |
| Selection.PassingIs | core/src/codegen/filter_codegen.cpp:139-166 | The selected list is strictly increasing and holds a row exactly when the predicate is true on it |
| Selection.IncreasingUnique | core/src/codegen/filter_codegen.cpp:139-166 | A set of rows has one increasing listing, so the above determines the list |
| Selection.FullIsIdentity | core/src/codegen/expr_evaluator.cpp:380-388 | An increasing list of as many rows as there are is the identity: the slice short cut is sound |
| Selection.SameValue | core/src/codegen/expr_evaluator.cpp:51-77 | Two rows that show the same values have the same value under every tree, however their columns are encoded |
| Selection.SameSelection | core/src/codegen/expr_evaluator.cpp:51-77 | Flat or dictionary-encoded, a batch selects the same rows and yields the same values |
| Evaluator.Projection.constructor | core/src/codegen/expr_evaluator.cpp:155-190 | Fields and literals take the short cuts, everything else is compiled; supported exactly when compilable |
| Evaluator.Projection.ColumnProjection | core/src/codegen/expr_evaluator.cpp:376-427 | Slice when all rows are selected, copy otherwise: either way row k shows the field on the k-th selected row |
| Evaluator.Projection.ConstantProjection | core/src/codegen/expr_evaluator.cpp:208-263 | Every row shows the literal, or every row is null |
| Evaluator.Projection.CompiledProjection | core/src/codegen/projection_codegen.cpp:107-231 | The do-while projection loop writes a column whose row k shows the tree on the k-th selected row |
| Evaluator.Projection.Project | core/src/codegen/expr_evaluator.cpp:265-294 | The short cuts and the compiled code agree: all three show the tree on the rows asked for |
| Evaluator.ExpressionEvaluator.FuncGeneration | core/src/codegen/expr_evaluator.cpp:480-508 | The evaluator is supported exactly when filter and projections all compile |
| Evaluator.ExpressionEvaluator.ProcessFilterAndProject | core/src/codegen/expr_evaluator.cpp:530-565 | Nothing exactly when no row passes; else row k of column c is projection c on the k-th passing row |
| Evaluator.ExpressionEvaluator.ProcessProject | core/src/codegen/expr_evaluator.cpp:510-528 | Without a filter, row k of column c is projection c on row k |
| Vectors.CopyPositions | core/src/vector/vector.h:336-357 | The copy shows row positions[k] at row k; flat strings become a dictionary over the original |
| Vectors.SlicePicks | core/src/vector/vector.h:369-381 | A slice from the start shows the first rows unchanged |
| Vectors.OutVector.SetValue | core/src/codegen/functions/varcharVectorfunctions.cpp:12-31 | Writing a row, string or not, adds its value to what the column shows and leaves the earlier rows alone |
| BatchCodegen.BatchExpressionCodeGen.CreateBatchFunction | core/src/codegen/batch_expression_codegen.cpp:49-110 | Produced exactly for the trees the batch back end has kernels for; on any batch and row list it reports an error exactly when some row divides by zero, and else its arrays show the tree on each row |
| BatchCodegen.BatchExpressionCodeGen.VisitExpr | core/src/codegen/batch_expression_codegen.cpp:112-116 | Every kind of node: the code emitted works in arrays of its own and changes none that was there before |
| BatchCodegen.BatchExpressionCodeGen.VisitLiteral | core/src/codegen/batch_expression_codegen.cpp:118-211 | The filled arrays show the literal on every row, for literals other than booleans |
| BatchCodegen.BatchExpressionCodeGen.VisitField | core/src/codegen/batch_expression_codegen.cpp:213-293 | The dictionary/flat branch fills one pair of arrays, the phis name it, and it shows the column on the listed rows |
| BatchCodegen.BatchExpressionCodeGen.VisitNot | core/src/codegen/batch_expression_codegen.cpp:340-361 | Negation in place |
| BatchCodegen.BatchExpressionCodeGen.VisitIsNull | core/src/codegen/batch_expression_codegen.cpp:452-471 | The operand's null array becomes the data, with a fresh null array |
| BatchCodegen.BatchExpressionCodeGen.VisitBinary | core/src/codegen/batch_expression_codegen.cpp:363-421 | All binary nodes, overwriting the left operand's arrays only |
| BatchCodegen.BatchExpressionCodeGen.VisitBetween | core/src/codegen/batch_expression_codegen.cpp:423-450 | BETWEEN over arrays, overwriting the lower bound's null array |
| BatchCodegen.BatchExpressionCodeGen.VisitIf | core/src/codegen/batch_expression_codegen.cpp:954-1032 | IF overwrites the true arm where the condition does not hold |
| BatchCodegen.BatchExpressionCodeGen.VisitCoalesce | core/src/codegen/batch_expression_codegen.cpp:1034-1075 | COALESCE fills the gaps of the first operand |
| BatchCodegen.BatchExpressionCodeGen.VisitIn | core/src/codegen/batch_expression_codegen.cpp:1077-1164 | Batch IN: true on a match, else false |
| BatchCodegen.BatchExpressionCodeGen.VisitSwitch | core/src/codegen/batch_expression_codegen.cpp:1166-1293 | CASE over arrays: the first true branch on each row |
| BatchCodegen.BatchExpressionCodeGen.VisitFunc | core/src/codegen/batch_expression_codegen.cpp:878-952 | Calls with joined null arrays, returned null and overflow arrays |
| BatchSteps.ComputesBoth | core/src/codegen/batch_expression_codegen.cpp:363-381 | Code that touches only its own arrays leaves a pending operand as it was |
| BatchProofs.LogicDenotes | core/src/codegen/batch_functions/batch_utilfunctions.cpp:141-159 | The AND/OR flag formulas are Kleene's, whatever data null operands carry |
| BatchProofs.DivideComputes | core/src/codegen/batch_functions/batch_mathfunctions.cpp:208-236 | The division kernels fail exactly on a zero divisor in a row that is not null; else DIV divides and MOD is the remainder of the operands rounded to doubles |
| BatchDivision.RoundedNearest | core/src/codegen/batch_functions/batch_mathfunctions.cpp:234 | No double is nearer to an integer than the one it is converted to |
| BatchDivision.RoundedIsDouble | core/src/codegen/batch_functions/batch_mathfunctions.cpp:234 | What an integer is converted to is a double: at most 53 bits and a power of two |
| BatchDivision.RemaindersAgree | core/src/codegen/batch_functions/batch_mathfunctions.cpp:222-236 | For all operands the batch remainder is the row remainder if and only if the rounding errors of dividend and divisor cancel modulo the rounded divisor |
| BatchDivision.ExactDivisor | core/src/codegen/batch_functions/batch_mathfunctions.cpp:222-236 | Where the divisor is a double: if and only if it divides the rounding error of the dividend |
| BatchDivision.SmallKept | core/src/codegen/batch_functions/batch_mathfunctions.cpp:316-328 | Always where both operands are at most 2^53 in magnitude, so for all 32-bit integers |
| BatchFill.FillBool | core/src/codegen/batch_functions/batch_utilfunctions.cpp:25-31 | The bytes written: four per row from the start of the data array on, and a null flag per row |
| BatchFill.FillBoolShows | core/src/codegen/batch_functions/batch_utilfunctions.cpp:25-31 | Every row shows the literal if and only if it is false or there is at most one row; the bytes written are always more than the array has |
| BatchProofs.BetweenComputes | core/src/codegen/batch_expression_codegen.cpp:1642-1711 | Two comparisons and three flag joins are BETWEEN |
| BatchProofs.SwitchComputes | core/src/codegen/batch_functions/batch_utilfunctions.h:107-138 | The CASE kernel picks the first true branch on each row |
| BatchProofs.FieldComputes | core/src/codegen/batch_functions/batch_dictionaryfunctions.cpp:13-126 | Gathered cells show the column on the listed rows, flat or dictionary |
| BatchFuncProofs.CallComputes | core/src/codegen/batch_expression_codegen.cpp:878-952 | A call over arrays denotes the SQL function on each row, for every null discipline and for the overflow variant |
| BatchMeaning.BackEndsAgree | core/src/codegen/batch_expression_codegen.cpp:363-1293 | The two back ends mean the same on every row on which each IN whose value is used is decided by its operands and each MOD used keeps its remainder; branches not taken, operands an AND, OR or IN does without, and conditions that both reject are exempt |
| BatchMeaning.InAgrees | core/src/codegen/batch_functions/batch_utilfunctions.h:144-166 | An IN whose operands agree agrees if and only if its value is not NULL and either a list element equals it or none is NULL; otherwise SQL says NULL and the batch FALSE; TRUE is always agreed on |
| BatchMeaning.BinaryAgrees | core/src/codegen/batch_expression_codegen.cpp:1294-1378 | A binary node whose operands agree agrees if and only if it is no MOD, or a MOD whose remainder survives rounding |
| BatchMeaning.SelectionsAgree | core/src/codegen/batch_filter_codegen.cpp:66-86 | Both back ends say TRUE on the same rows, although an IN that only passes through ANDs, ORs, taken arms of IF, CASE and COALESCE is not decided, or another operand rejects the row |
| BatchMeaning.PositiveSelects | core/src/codegen/batch_filter_codegen.cpp:66-86 | A tree whose INs stand under ANDs and ORs only meets that condition on every row its remainders survive |
| BatchMeaning.InDiffers | core/src/codegen/batch_functions/batch_utilfunctions.h:156-165 | NOT (NULL IN (1)) is NULL in the one and TRUE in the other back end |
| BatchMeaning.ModDiffers | core/src/codegen/batch_functions/batch_mathfunctions.cpp:222-236 | 9007199254740993 MOD 2 is 1 in the one and 0 in the other back end, and compared with 1 it is TRUE in the one and FALSE in the other |
| BatchEvaluator.BackEndsReturnTheSame | core/src/codegen/batch_expression_codegen.cpp:363-1293 | Where the back ends evaluate a row alike, as for BackEndsAgree, a cell of the batch result shows what the compiled row function returns for that row |
| BatchEvaluator.Evaluate | core/src/codegen/batch_projection_codegen.cpp:104-129 | Running a batch function yields nothing exactly on an error, and else the tree's value per row |
| BatchEvaluator.Filter | core/src/codegen/batch_filter_codegen.cpp:66-86 | The batch filter lists exactly the rows on which the predicate is true and not null |
| BatchEvaluator.FiltersAgree | core/src/codegen/batch_filter_codegen.cpp:66-86 | Both filters select the same rows; INs that only pass through ANDs, ORs and taken arms may be NULL |
| BatchEvaluator.PositiveFiltersAgree | core/src/codegen/batch_filter_codegen.cpp:66-86 | A filter whose INs all stand under ANDs and ORs only selects the same rows of every batch in both back ends, whatever is NULL, as long as its remainders survive |
| Driver.OmniDriver.RunInternal | core/src/compute/driver.cpp:129-224 | The walk ends (work, patience and index decrease lexicographically, through the jump forward and the restart), every batch moved goes to the next operator once and in order |
| Driver.OmniDriver.Next | core/src/compute/driver.cpp:37-54 | Over all calls: the batches handed out are a prefix of the composition of the operators' transducers, all of it once finished; none without being blocked, finished or stopped |
| Driver.OmniDriver.Feed | core/src/compute/driver.cpp:150-196 | One turn of the walk: blocked, jump after a batch, restart after an end mark, or on to the operator before |
| Driver.OmniDriver.Drain | core/src/compute/driver.cpp:197-218 | The last operator's batch goes to the caller; a finished last operator finishes the pipeline |
| Driver.CallsOfFinished | core/src/compute/driver.cpp:150-196 | In a finished pipeline of operators that read all their input, each operator got every input once, in order, and one end mark behind the last |
| Pipeline.OutputsOnTrack | core/src/compute/driver.cpp:129-224 | In any reachable state an operator's output is a prefix of the composition up to it |
| Pipeline.AllInputsEnded | core/src/compute/driver.cpp:186-194 | A finished last operator has been told the end, and so has each operator before it |
| Transducers.SourceLawful | core/src/compute/driver.cpp:129-224 | A source over a queue keeps the operator promise |
| Transducers.StreamingLawful | core/src/compute/driver.cpp:129-224 | So does an operator that turns each batch into several |
| Task.OmniTask.Next | core/src/compute/task.cpp:18-43 | A batch comes from one driver and is added to what that driver handed out; no other driver hands out anything; no result only when held up or all are finished |
| Planner.MakePlan | core/src/compute/local_planner.cpp:200-214 | The drivers of a plan: its pipelines, the root's first and marked as output |
| Planner.PlanDetail | core/src/compute/local_planner.cpp:95-174 | The recursive procedure appends exactly the pipelines of the subtree, into the driver it was given or a new one |
| Planner.PlanSources | core/src/compute/local_planner.cpp:108-117 | The first source continues the node's own driver, each other source starts a list of its own |
| Planner.HandOver | core/src/compute/local_planner.cpp:119-169 | Each further source's first driver ends in the operator that feeds the node |
| Planner.PipelineCount | core/src/compute/local_planner.cpp:95-174 | One pipeline, and one more for each source beyond a node's first |
| Planner.PipelinesHoldPlan | core/src/compute/local_planner.cpp:95-174 | As a multiset, the pipelines hold exactly the plan's operators: none lost, none twice |
| Planner.PipelinesStartAtLeaves | core/src/compute/local_planner.cpp:103-116 | Every pipeline is non-empty and starts with a leaf |
| Planner.PipelinesOrdered | core/src/compute/local_planner.cpp:171-173 | A pipeline that feeds a node comes after the one that holds the node |
| Planner.TaskDrivers | core/src/compute/task.cpp:12-17 | OmniTask serves the pipelines in reverse planning order |
| Planner.BuildsComeFirst | core/src/compute/task.cpp:16-16 | After the reversal every feeding pipeline precedes the one it feeds, and the root's comes last |
| Arena.SimpleArenaAllocator.Allocate | core/src/memory/simple_arena_allocator.h:61-78 | A new live block of the size asked for, apart from all others, inside one chunk; a static address for size 0 |
| Arena.SimpleArenaAllocator.AllocateContinue | core/src/memory/simple_arena_allocator.h:100-113 | The run stays one contiguous block in which the old bytes stand first, also when it has to move |
| Arena.SimpleArenaAllocator.RollBackContinualMem | core/src/memory/simple_arena_allocator.h:135-142 | A run of two or more pieces is given back whole and usedBytes is as before it; a run of one piece is not |
| Arena.SimpleArenaAllocator.Reset | core/src/memory/simple_arena_allocator.h:115-133 | No block is live, the first chunk is kept and is the total |
| Arena.SimpleArenaAllocator.SetMinChunkSize | core/src/memory/simple_arena_allocator.h:35-46 | The minimum becomes the next power of two, and 0 beyond 2^63 by wrap-around |
| Arena.RoundedUpIs | core/src/memory/simple_arena_allocator.h:38-44 | The rounded size is the least power of two that is large enough, when there is one in 64 bits |
| Arena.PlainSpace | core/src/memory/simple_arena_allocator.h:48-78 | Since Reset, with plain allocations only, totalBytes is the sum of the chunk sizes and at most 2 * usedBytes + availBytes |
| Arena.LiveBlocksApart | core/src/memory/simple_arena_allocator.h:61-208 | Two live blocks never share a byte and each lies in one chunk |
| Arena.AppendAll | core/src/memory/simple_arena_allocator.h:100-113 | A client's run holds the concatenation of its pieces, and all other live blocks keep their bytes |
| Accounting.RunKeepsInv | core/src/memory/memory_manager.cpp:32-71 | In every interleaving: global amount + untracked + under way = granted - freed + asked for, across refusals and thread exits |
| Accounting.AmountAtRest | core/src/memory/thread_memory_manager.h:45-72 | When no call is under way the global amount is off by at most 2^20 bytes per running thread |
| Accounting.OncePerThread | core/src/memory/memory_manager.cpp:36-58 | In any interleaving a thread throws at most once as long as no report finds the amount under the limit |
| Accounting.OneThrowExactly | core/src/memory/memory_manager.cpp:32-63 | For every interleaving of an episode, from a clear flag to nobody refusing: at most one exception is thrown if and only if no two threads are between testing and setting the flag at once |
| Accounting.OncePerEpisode | core/src/memory/memory_manager.cpp:36-58 | With serialised reports at most one exception is thrown as long as no report finds the amount under the limit |
| Accounting.RaceThrowsTwice | core/src/memory/memory_manager.cpp:46-58 | Unserialised, two threads can both throw in one episode |
| MemoryManagement.MemoryManager.AddMemory | core/src/memory/memory_manager.cpp:32-63 | New amount, flag and refusal at both levels; only the global level throws |
| MemoryManagement.MemoryManager.SubMemory | core/src/memory/memory_manager.cpp:65-71 | Both levels change by the amount |
| MemoryManagement.ThreadMemoryManager.ReportMemoryUsage | core/src/memory/thread_memory_manager.h:45-59 | Reported plus untracked grows by the size, or by nothing when refused; says exactly when it is refused and when the counter is flushed |
| MemoryManagement.ThreadMemoryManager.ReclaimMemoryUsage | core/src/memory/thread_memory_manager.h:60-72 | Reported plus untracked shrinks by the size; says exactly when the counter is flushed |
| MemoryManagement.ThreadMemoryManager.Destroy | core/src/memory/thread_memory_manager.cpp:17-20 | A thread that exits leaves nothing untracked: the global amount becomes what both knew together |
| MemoryManagement.AddMemoryIsTicks | core/src/memory/memory_manager.cpp:32-63 | An undisturbed AddMemory of the interleaved model does what the method does |
| Allocation.Allocator.Alloc | core/src/memory/allocator.h:22-30 | Accounting comes first: a refused request leaves the pool alone, a granted one adds one block, and the books move with the live bytes |
| Allocation.Allocator.Free | core/src/memory/allocator.h:32-38 | The block leaves the pool and the books by the same size |
| Allocation.TotalWithout | core/src/memory/allocator.h:32-38 | The live bytes are those of a block and of the rest, whichever block it is |
| StringSearch.BuildNext | core/src/codegen/string_util.h:234-247 | The table holds the longest proper border of every prefix, built in at most 2 * (n - 1) steps |
| StringSearch.StrContainsStr | core/src/codegen/string_util.h:232-260 | True exactly when the pattern occurs, in linearly many steps |
| StringSearch.ReplaceWithSearchNotEmpty | core/src/codegen/string_util.h:157-189 | In-place replacement, deleting or substituting, equals left-to-right non-overlapping replacement |
| StringSearch.PiecesAre | core/src/codegen/string_util.h:157-189 | The pieces between the matches, joined by the search string, are the string |
| StringSearch.LastPieceFree | core/src/codegen/string_util.h:157-189 | Behind the last match the search string does not occur |
| StringSearch.ReplacedLength | core/src/codegen/string_util.h:157-189 | Length: strLen + matches * (replaceLen - searchLen) |
| Utf8.NumChars | core/src/codegen/string_util.h:262-274 | On arbitrary bytes the count lies between a quarter of the length and the length |
| Utf8.CountWellFormed | core/src/codegen/string_util.h:23-43 | On well-formed UTF-8 the count is the number of code points and additive over what follows |
| Utf8.CountConcat | core/src/codegen/string_util.h:262-274 | What follows a text is counted from where the scan of the text stops, for all texts |
| Utf8.AdditiveExactly | core/src/codegen/string_util.h:262-274 | The count is additive over whatever follows a text if and only if the scan of the text stops at its end |
| Utf8.WellFormedEnds | core/src/codegen/string_util.h:262-274 | On well-formed text it does |
| Utf8.CountNotAdditive | core/src/codegen/string_util.h:262-274 | A first byte that announces more bytes than there are swallows what follows; a stray tail byte, ill-formed as well, does not |
| Utf8.DecodeEncode | core/src/codegen/string_util.h:23-43 | Encoding a code point (section 4 of RFC 3629) and decoding it is the identity |
| Utf8.EncodeDecode | core/src/codegen/string_util.h:23-43 | Every well-formed character is the encoding of its code point |
| Utf8.EncodingUnique | core/src/codegen/string_util.h:23-43 | A text is the encoding of one sequence of code points only |
| Rounding.Int8Rounds | core/src/codegen/common_util.h:120-150 | Clamped rounding half away from zero, for every input and number of places |
| Rounding.Int16Rounds | core/src/codegen/common_util.h:78-118 | The same for 16 bits |
| Rounding.Int8MonotoneIdempotent | core/src/codegen/common_util.h:120-150 | Keeps the order and does nothing the second time |
| Rounding.Int16MonotoneIdempotent | core/src/codegen/common_util.h:78-118 | The same for 16 bits |
| Rounding.Int64Rounds | core/src/codegen/common_util.h:39-64 | At every number of places but -19 the result is exact if and only if it fits 64 bits |
| Rounding.Int64RoundsAt19 | core/src/codegen/common_util.h:39-64 | At -19 it is right modulo 2^64 except at the two exact ties, where it is 0 |
| Rounding.HalfAwayRounds | core/src/codegen/common_util.h:39-64 | The specification names a nearest multiple, the one further from zero on a tie |
| Rounding.NearestUnique | core/src/codegen/common_util.h:39-64 | and there is only one |
| Bloom.BloomFilter.PutLong | core/src/codegen/bloom_filter.cpp:37-53 | Sets the item's bits; true exactly when the filter did not contain the item just before |
| Bloom.BloomFilter.MightContainLong | core/src/codegen/bloom_filter.cpp:60-77 | True exactly when all of the item's bits are set |
| Bloom.BloomFilter.PutAll | core/src/codegen/bloom_filter.cpp:37-77 | After any sequence of insertions every inserted item is contained and nothing contained is forgotten |
| Bloom.BitArray.Set | core/src/codegen/bloom_filter.cpp:37-53 | Sets one bit and reports whether that changed it |
| Int128.Split | core/src/codegen/llvm_engine.cpp:246-254 | A signed high and an unsigned low word that together are the value |
| Int128.JoinSplit | core/src/codegen/llvm_engine.cpp:246-264 | Splitting and rejoining any 128-bit value is the identity |
| Int128.SplitJoin | core/src/codegen/llvm_engine.cpp:246-264 | Joining and splitting any two words is the identity |
| Int128.Disassemble | core/src/codegen/llvm_engine.cpp:287-306 | The argument list of a decimal call: each wide operand as two words, in order |
| Int128.ReadBack | core/src/codegen/llvm_engine.cpp:287-306 | A kernel that knows its parameter widths reads back exactly the operands |
| SignatureNames.ToString | core/src/codegen/func_signature.cpp:82-105 | Name, "_null" under the null overflow setting, then each type behind an underscore |
| SignatureNames.ChangeFuncNameToNull | core/src/codegen/expression_codegen.cpp:1106-1122 | Inserts at the separator counted from the right; fails when there are too few |
| SignatureNames.RoutesAgree | core/src/codegen/func_registry.cpp:226-232 | The scan agrees with the other two routes if and only if no type is an interval, whatever the function is called |
| SignatureNames.IntervalSplit | core/src/codegen/expression_codegen.cpp:1106-1122 | On a function of an interval in months the scan inserts inside the name of the type |

## Left out

Expressions:

- Doubles, decimals and CHAR widths: NaN order and decimal kernels; Decimal128 splitting is in `Int128` on its own.
- LLVM passes, JIT compilation, symbol registration and inlining: the block machine runs what is emitted.
- Hive UDFs, the execution-context argument and per-row runtime errors of kernels: kernels are functions of their arguments.
- The order of arguments in C++ at `core/src/codegen/expression_codegen.cpp:293-296` is open; the intended order, kernel call before flag load, is modelled.
- Placement of blocks detached until later, the order of phi entries, and stack slots as instructions: they do not affect a run.
- An IN without a list and a CASE without a branch leave a block without an end in the source; `Expressions.WellTyped` demands one of each.
- The row loops run at least once, so a batch has a row (`Selection.BatchOk`); the output length slot is part of the return.
- Sharing of memory between a slice and its vector, and the growth of string buffers.
- JSON row caches, arena resets and the error text of an evaluation.

Batch back end:

- BatchCodegen.BatchExpressionCodeGen.CreateBatchFunction: `BatchCodegen.Shared` excludes boolean literals, whose fill kernel runs past its array (`BatchFill.FillBoolShows`), byte and short fields (no arrays), COALESCE of dates and arithmetic on dates and timestamps (no kernel is registered under the result type asked for).
- BatchCodegen.BatchExpressionCodeGen.VisitLiteral: the same for boolean literals.
- Kernel loops: kernels are pointwise functions of whole arrays; a registered function's batch and row kernels are taken to be one function of their arguments.
- Integer overflow in kernels: sums, differences and products are what the kernels make of them, the same in both back ends.
- The order in which arrays are allocated: an array is named where it is first used.
- Code after an error: once a kernel reports one, the evaluation's outputs are thrown away, and the machine stops there.
- BatchMeaning.BackEndsAgree: sufficient for a whole tree; necessary and sufficient at each IN (`BatchMeaning.InAgrees`) and each binary node (`BatchMeaning.BinaryAgrees`), because two differing values can still lead to one result further up.
- BatchMeaning.SelectionsAgree: sufficient for a whole filter, for the same reason; likewise BatchEvaluator.FiltersAgree.

Pipelines:

- Operator factories, statistics, futures and wake-ups: an operator that waits reports itself blocked, and any operator may at any call.
- A pipeline without operators makes the source loop forever; drivers have at least one.
- Task.OmniTask.Next: the source spins while all drivers are blocked; the model gives up after `rounds` rounds.
- Operator vectors are referred to by pipeline index instead of by pointer.

Memory:

- Overflow of sizes beyond 64 bits but for SetMinChunkSize, and failure of the pool after accounting.
- A continue run starts with a positive size and is rolled back once, as callers do.
- Per-thread amounts once a limit is hit (the per-thread manager subtracts without throwing), peak and trace records, DEBUG scopes.

Others:

- The function registry tables, type maps, the expression printer and parser, time-zone tables and property files.
- SignatureNames: hashing and equality of signatures, which are field by field.
