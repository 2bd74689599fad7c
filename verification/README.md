# A dataflow machine, its compiler, assembler and loader: a verified model

The repository is a software tagged-token dataflow machine. A program is a graph of instructions;
a token carries data, a tag and the address of an input, and an instruction fires when tokens for
all its inputs have arrived under one tag. A compiler turns structured code into such a graph, an
assembler gives the graph addresses, a loader links modules, and four units connected by shared
queues execute it. This project models these parts and proves that they do what they are for.

## What is modelled and proved

**The hash table** (`Bits`, `Probing`, `Flags`, `TableLayout`, `Rehash`, `HashTable`). The open
addressing table of `khash.h` as a class over arrays with packed flags, triangular probing, load
bound and in-place kick-out rehash, proved to be a finite map. The bound 0.77 n + 0.5 is
(77 n + 50) / 100 in integers. Growth needs fewer than 2^31 buckets.

**The compiler** (`Words`, `Force`, `Lenient`, `Tass`, `Rules`, `Codegen`, `Names`, `Simulation`,
`Conditionals`, `Loops`, `Correctness`, `Numbering`, `Uniqueness`, `Compiled`, `Adequacy`, `Typing`,
`Spelling`, `Generator`). `Force` is the source language with its ordinary meaning; `Tass` has the lines of
assembly and the tokens each of them makes; `Codegen` is the compiler as functions of its state and
`Generator` the visitor with its mutable fields, proved to compute them. The main induction,
`Correctness.StmtCorrect`, says for every statement and every tag which names carry which words.

Generated names are pairs of a text and a number; `Spelling` gives them the compiler's own text, with
`_tmp_N` put in, and shows that different names of a program have different texts. `Typing` shows that
compiled code never computes with a tag and never sends by a number. Areas drawn at random are taken as fresh: an area
is named by the instruction that drew it and the tag it was drawn under, and iteration counts are
unbounded. The order in which the compiler walks a set of variables is an annotation of the source,
and every order is allowed. Variables must be defined before the loop or conditional they occur in,
and a loop must use a variable; the source exits or fails otherwise.

The dataflow is not strict: what does not depend on a loop is computed even if the loop never ends.
So "tokens are delivered exactly if the source terminates" is false of whole programs
(`Adequacy.StuckDelivers`). `Lenient` is the exact meaning, variable by variable; it agrees with the
source wherever the source terminates, and for a loop whose turns all stop the statement holds
both ways (`Adequacy.LoopDelivers`).

**The token game** (`TokenGame`, `Delivery`). Tokens wait at input slots and any line whose slots
match may fire next; a run is any infinite sequence of such steps or pauses. For compiled programs
every state is free of collisions, every print is right, and a run that neglects no enabled line
prints exactly what the source computes.

**The machine** (`Types`, `Numbers`, `Machine`, `Units`, `Encoding`, `MatchingStore`, `Matching`,
`Queue`, `Trap`). Instruction semantics on 64-bit words and packed tags, the I/O switch, the matching
unit and the instruction store as a step system in which items in flight overtake each other freely:
what a unit holds in its hands is an item in flight, so every real schedule is one of its runs.
`Units` shows that for first-in-first-out queues. If no two tokens for one input coexist, the schedule
does not matter. `MatchingStore` is the chained hash table, `Queue` the semaphore and mutex protocol
statement by statement, `Trap` the trap mode on the real hash table. `Encoding` connects the token
rules the compiler proof uses with the function unit.

Shifting by 64 or more is undefined in C; here the amount is taken modulo 64. An instruction that
wants a second token when the pair has none reads whatever the memory holds, which is a parameter of
the step.

**The assembler** (`IrGraph`, `Parser`, `FanOut`, `Optimize`, `GraphGame`, `Wiring`, `Placement`,
`Assembled`, `Relocation`). Rows become nodes, uses are hooked to definitions through chains of DUPs, redundant DUPs are removed
with a parents map that grows stale, and reachable nodes get addresses and destination words. A
variable with several definitions is fed correctly if and only if it has at most three uses
(`FanOut.ExactlyWhen`). A second destination word of 0 counts as absent (`Assembled.SecondOutputMarked`);
in compiled programs it never occurs (`Circuit.AllMarked`). `GraphGame` plays tokens on any graph of
nodes: graphs before and after DUP removal allow the same sequences of events.

**From source to output** (`Rendering`, `Circuit`, `Wires`, `Firing`, `Execution`, `Following`,
`Running`, `Beginning`, `Quiescence`, `EndToEnd`, `Counting`). All of the above in one theorem. Compiled
lines are spelled as rows and assembled by `Circuit.Assemble`; the machine is loaded with the
instructions and begins with the ready ones. Every one of its steps is a step of the token game or
changes nothing the game sees, so no state of any run is unsafe, and if the source terminates the
machine, once it has nothing more to do, has printed exactly the final values of the source, under every
schedule (`EndToEnd.SourcePrinted`, `EndToEnd.LoadedIsSafe`). What is assumed of the areas drawn is
`FreshRun`: in the steps a run takes, no two tags it uses get the same bits and no iteration count wraps.
That is asked of these steps only, so programs with loops that never end are covered; and counts take
care of themselves for 2^32 steps (`Counting.CountsFollow`).

**Termination** (`Halting`, `Derived`, `Finiteness`, `Ending`). A program makes finitely many tokens if
and only if its source terminates: the turns of every activation of every loop are bounded, and the rest
follows line by line. So the machine comes to rest if and only if the source terminates
(`Ending.EndsExactly`), and then every run takes the same number of steps, whatever the schedule
(`Ending.TerminatingEnds`).

**Loader and file format** (`Loader`, `Format`, `Linked`). Relocation, first-definition-wins linking, and the
binary format written field by field and read as C structures. Late failures are not rolled back, and
the contract says what they leave. A reference to the instruction just behind the module writes
outside the store and is excluded, as is flag bit 0x80.

## Model

| member | source | states |
|---|---|---|
| Bits.RoundUp32Correct | service/src/khash.h:176 | for 1 <= x <= 2^31 the five or-shifts give the least power of two that is at least x |
| Bits.RoundUp32Wraps | service/src/khash.h:176 | for x = 0 and for x above 2^31 the 32-bit result wraps to 0 |
| Bits.MaskIsMod | service/src/khash.h:234-238 | masking with n - 1 is the remainder by n, for every power of two n |
| Probing.ReturnsHome | service/src/khash.h:231-240 | the triangular probe is back at its start after t > 0 steps first at t = 2n - 1, for n a power of two |
| Probing.ProbeInjective | service/src/khash.h:231-240 | the first n probes of an n-bucket table are n different buckets |
| Probing.ProbeCovers | service/src/khash.h:231-240 | every bucket is among the first n probes |
| Probing.PathCovers | service/src/khash.h:278-281 | the probe path of a key reaches every bucket, so a probe without a cut-off stops as soon as one bucket is empty |
| Flags.SetIsDelTrue | service/src/khash.h:171 | marks one bucket deleted and leaves the two bits of every other bucket in all words alone |
| Flags.SetIsEmptyFalse | service/src/khash.h:169 | marks one empty bucket live and no other |
| Flags.SetIsBothFalse | service/src/khash.h:170 | marks one bucket live whatever it was, and no other |
| Flags.Fill | service/src/khash.h:226 | filling with 0xaa makes every bucket empty |
| TableLayout.SomeEmpty | service/src/khash.h:175-176 | live and deleted buckets below the bound leave an empty bucket |
| TableLayout.SearchEnd | service/src/khash.h:237-241 | where a search stops decides whether the key is in the table at all |
| TableLayout.InsertOk | service/src/khash.h:336-346 | putting a key on its probe path, over a tombstone too, keeps every key reachable |
| TableLayout.DeleteOk | service/src/khash.h:349-355 | a tombstone keeps every other key reachable |
| Rehash.FindFree | service/src/khash.h:278-281 | the unlimited probe ends, at the first empty bucket of the key's new path |
| Rehash.KickOut | service/src/khash.h:277-292 | the kick-out loop ends because every kick retires an old live bucket, and loses or doubles no entry |
| Rehash.RehashAll | service/src/khash.h:269-294 | the whole in-place pass moves every entry into the new layout |
| HashTable.Rebuild | service/src/khash.h:252-300 | growing, purging or shrinking in place keeps the map exactly and leaves no tombstone |
| HashTable.Search | service/src/khash.h:320-334 | the probe loop of get and put: where it stops and which tombstone it remembers |
| HashTable.KHash.Get | service/src/khash.h:230-243 | the bucket of the key if the key is in the map, n_buckets if not |
| HashTable.KHash.Resize | service/src/khash.h:244-306 | the map is unchanged; a request too small for the entries changes nothing at all, any other gives that many buckets and n_occupied = size |
| HashTable.KHash.MakeRoom | service/src/khash.h:310-318 | purging or doubling always restores n_occupied < upper_bound, and keeps the map |
| HashTable.PutSizes | service/src/khash.h:310-318 | why: n_buckets - 1 rounds back to n_buckets, n_buckets + 1 to twice as many, and the choice leaves room |
| HashTable.KHash.PutWithRoom | service/src/khash.h:319-347 | one bucket for the key, present or new; the code tells empty, reused and present apart |
| HashTable.KHash.Put | service/src/khash.h:307-348 | the key has one bucket; the code tells present, fresh and reused apart by what happens to n_occupied, and after a rehash it is never reused; all other entries stay, and without a rehash all value slots |
| HashTable.KHash.Del | service/src/khash.h:349-355 | the entries of all other buckets stay; n_buckets and buckets that are not live change nothing |
| HashTable.KHash.ThatKeyOnly | service/src/khash.h:349-355 | the bucket of a key is no other key's bucket, so deleting it removes that key only |
| HashTable.KHash.Clear | service/src/khash.h:223-229 | the map is empty, the buckets stay |
| Force.WhileUnfolds | service/src/compiler.py:257-350 | the meaning of a loop: nothing if the test fails, else the body and the loop again |
| Force.ExecFrame | service/src/compiler.py:112-163 | running a statement changes only the variables it uses |
| Codegen.GenGrows | service/src/compiler.py:182-350 | compiling a statement only appends lines |
| Names.GenFrame | service/src/compiler.py:182-350 | a statement leaves the current names of variables it does not use alone |
| Correctness.NothingElseToMerge | service/src/compiler.py:236-245 | only variables of the two blocks can have two names at the merge |
| Numbering.CompiledSingleDefs | service/src/compiler.py:178-180 | in a compiled program no two output positions define the same name |
| Simulation.LiteralCorrect | service/src/compiler.py:544-562 | a literal carries its value under a tag exactly if literals are live there: its guard holds or its scope tag is present |
| Simulation.ExprCorrect | service/src/compiler.py:520-541 | the name of a compiled expression carries the value of the expression, or nothing if an operand is missing |
| Conditionals.SplitCorrect | service/src/compiler.py:196-226 | the taken branch starts with the variables and live literals, the other with neither |
| Conditionals.MergedAt | service/src/compiler.py:236-248 | a merged name carries what the taken branch left, exactly once |
| Correctness.IfCorrect | service/src/compiler.py:182-255 | a conditional, nested or not, delivers the taken branch's values of all variables and nothing of the other branch |
| Loops.EntersInside | service/src/compiler.py:269-295 | the variables of a loop enter a fresh activation at turn 0, if the first of them is there |
| Loops.LeavesAt | service/src/compiler.py:321-336 | what leaves the loop in one turn comes out under the tag the loop was entered with |
| Correctness.TurnCorrect | service/src/compiler.py:257-350 | under the tag of turn i the loop variables have their values at the start of turn i: turns never mix |
| Correctness.WhileCorrect | service/src/compiler.py:257-350 | behind a loop its variables carry, under the old tag, their values when the loop is left, and nothing if it never is |
| Correctness.StmtCorrect | service/src/compiler.py:165-350 | every statement, under every tag: compiled code turns the tokens of an environment into those of the statement's result, no more and no fewer |
| Lenient.EndsOnce | service/src/compiler.py:321-336 | a loop is left in at most one turn |
| Uniqueness.StmtGood | service/src/compiler.py:165-350 | in compiled code each line makes the tokens of one name under one tag in one way only, and no name carries two words under one tag |
| Compiled.CompiledRegular | service/src/compiler.py:165-350 | the same for all lines of a whole program and every set of tokens its lines support |
| Compiled.CompiledValues | service/src/compiler.py:165-350 | after a program the variables carry its results under the first tag, and nothing under any other |
| Adequacy.Adequate | service/src/compiler.py:165-350 | where the source terminates, the dataflow result gives every variable its source value |
| Adequacy.LoopDelivers | service/src/compiler.py:257-350 | a loop all of whose turns stop delivers its variables if and only if the source loop terminates, with the source's final values |
| Adequacy.LoopFreeStops | service/src/compiler.py:257-350 | bodies without loops always stop, which a caller can check |
| Adequacy.StuckDelivers | service/src/compiler.py:257-350 | a program that never terminates and still delivers a variable: delivery as such does not show termination |
| Typing.CompiledTyped | service/src/compiler.py:165-350 | every compiled program is typed: operands and tests are numbers, CTG sends by tags |
| Typing.TokensTyped | service/src/compiler.py:165-350 | every token of a typed program carries a tag or a number as its name says |
| Spelling.CompiledSpells | service/src/compiler.py:178-180 | with `_tmp_N` put into their texts, different names of a compiled program have different texts, and none is `_` |
| Spelling.CompiledFine | service/src/compiler.py:165-350 | every name a compiled program reads is defined by it |
| TokenGame.StepInv | service/src/matching_unit.c:67-128 | firing any enabled line keeps: every token sent once, every arrival waiting or used and not both, every sent token made by one firing |
| TokenGame.RunInv | service/src/matching_unit.c:67-128 | the same in every state of every schedule |
| TokenGame.FairOk | service/src/matching_unit.c:67-128 | a schedule that neglects no enabled line sends exactly the tokens the program defines |
| Delivery.RunsAreSafe | service/src/compiler.py:165-350 | in no state of any run of a compiled program do two tokens with one tag meet at one input slot |
| Delivery.PrintsSafely | service/src/compiler.py:75-76 | at any moment of any run a print has happened at most once, and only with the right value |
| Delivery.PrintsExactly | service/src/compiler.py:165-350 | every fair run prints a variable with value v if and only if the dataflow result gives it v |
| Delivery.TerminatingPrints | service/src/compiler.py:165-350 | if the source terminates, every fair run prints every variable with its final source value and no other |
| Delivery.StuckPrints | service/src/compiler.py:257-350 | the non-terminating example prints y = 5 and never x, in every fair run |
| Generator.GenerateAssemblyPass.CreateNumLiteral | service/src/compiler.py:544-562 | the fields afterwards are those the literal's specification gives |
| Generator.GenerateAssemblyPass.Expression | service/src/compiler.py:520-541 | visiting an expression leaves the specified state and returns the specified name |
| Generator.GenerateAssemblyPass.Conditional | service/src/compiler.py:182-255 | the visitor of a conditional, loop by loop, leaves the state that IfCorrect is about |
| Generator.GenerateAssemblyPass.WhileLoop | service/src/compiler.py:257-350 | the visitor of a loop leaves the state that WhileCorrect is about |
| Generator.GenerateAssemblyPass.Program | service/src/compiler.py:165-350 | a whole run of the visitor emits the lines the delivery theorems are about |
| Types.DestinationRoundTrip | service/src/types.h:75-78 | a packed destination gives back its address, input and matching function |
| Types.TagRoundTrip | service/src/types.h:53-58 | a packed tag gives back its area and iteration count |
| Types.NextIteration | service/src/processing_unit.c:329-333 | adding one to a tag stays in the area if and only if the count does not wrap |
| Encoding.OneResultAgrees | service/src/processing_unit.c:174-435 | the instruction of a line with one result sends the token the line stands for, packed, to all its destinations |
| Encoding.BranchAgrees | service/src/processing_unit.c:282-304 | BRR sends its operand to the destination its test selects, also if the line names no false output |
| Encoding.NewTagAgrees | service/src/processing_unit.c:314-326 | NTG sends the tag of a new activation and the old tag |
| Machine.MatchMeets | service/src/matching_unit.c:85-119 | two partners meet in the same ordered pair whichever comes first, and leave nothing behind |
| Machine.Diamond | service/src/processing_unit.c:97-172 | any two different steps of a safe state can be taken in either order, to the same state |
| Machine.Confluence | service/src/processing_unit.c:97-172 | once some run ends in n steps, every run from the same state can be continued to the same end in n steps altogether |
| Machine.ScheduleDoesNotMatter | service/src/io_switch.c:9-52 | all runs that end do so in the same state, with the same printed output and leftover tokens, after the same number of steps |
| Units.System.IoSwitch | service/src/io_switch.c:9-52 | one turn of the switch on the first-in-first-out queues is one step of the machine |
| Units.System.MatchingUnit | service/src/matching_unit.c:67-128 | one turn of the matching unit is one step of the machine |
| Units.System.InstructionStore | service/src/instruction_store.c:414-592 | one turn of the instruction store is one step of the machine |
| Units.System.ProcessingUnit | service/src/processing_unit.c:102-171 | one turn of the processing unit is one step of the machine |
| Units.System.AddReadyInstructions | service/src/instruction_store.c:30-65 | the packets sent before the loop are those the step system starts from |
| MatchingStore.TokenWaitingTable.Lookup | service/src/matching_unit.c:100-108 | walking the chain finds the token waiting under the key, if there is one |
| MatchingStore.TokenWaitingTable.Add | service/src/matching_unit.c:131-150 | the new node heads its bucket; the map gains the one key |
| MatchingStore.TokenWaitingTable.Remove | service/src/matching_unit.c:153-197 | unlinking the node removes the one key and keeps all chains |
| MatchingStore.TokenWaitingTable.Receive | service/src/matching_unit.c:67-128 | a token received does to the chained table what it does to a map, and sends the same |
| MatchingStore.RepresentsDrop | service/src/matching_unit.c:153-197 | taking a node out of a chain takes its key out of the map and nothing else |
| Matching.RunMatchingUnit | service/src/matching_unit.c:67-128 | the loop over any stream of tokens sends the pairs and leaves the tokens of the map specification |
| Matching.OrderDoesNotMatter | service/src/matching_unit.c:67-128 | any two orders of arrival send the same pairs and leave the same tokens waiting, if no slot gets two tokens |
| Matching.NothingLost | service/src/matching_unit.c:85-119 | tokens that need partners are twice the pairs sent plus those waiting |
| Queue.StepKeeps | service/src/queue.c:147-208 | every single step of every process keeps the protocol invariant |
| Queue.FirstInFirstOut | service/src/queue.c:147-208 | in every reachable state the removed elements are a prefix of the added ones, and both semaphores plus the operations in progress make max_count |
| Queue.CopiesAreSafe | service/src/queue.c:160-192 | no copy goes over an unread element, and none reads a slot that is not full |
| Queue.WillingPairGoesOn | service/src/queue.c:153-186 | while an adder and a remover both wait, some process can take a step |
| Queue.StuckExactly | service/src/queue.c:153-186 | nobody can go on if and only if all are idle, or all others wait to add to a full queue, or to remove from an empty one |
| Queue.SharedQueue.constructor | service/src/queue.c:37-125 | the initial state |
| Queue.SharedQueue.AddTurn | service/src/queue.c:147-177 | each statement of queue_add on the shared memory is one step of the protocol |
| Queue.SharedQueue.RemoveTurn | service/src/queue.c:179-208 | each statement of queue_remove is one step of the protocol |
| Parser.ParseRows | service/src/assembler.py:386-518 | the rows become the specified nodes and definitions, or are refused exactly if some row breaks a rule |
| Parser.AddRowUsable | service/src/assembler.py:459-510 | every table of rows has open definitions, each of one variable, and DUPs that only lead onwards |
| IrGraph.FanFeeds | service/src/assembler.py:541-556 | a chain of added DUPs feeds exactly its uses, each once and in order |
| FanOut.Assembler.Attach | service/src/assembler.py:541-556 | one use takes the first open output, or a new DUP takes over the second |
| FanOut.Assembler.HookInputs | service/src/assembler.py:522-563 | the loop ends although it appends to the list it walks; literals settle; every definition feeds its share of the uses; outputs to the DUPs of a row stay |
| FanOut.ExactlyWhen | service/src/assembler.py:541-556 | every definition feeds every use if and only if there is one definition or at most three uses |
| FanOut.UsesAreAll | service/src/assembler.py:523-540 | the uses are exactly the input slots that name the variable |
| FanOut.UsesDiffer | service/src/assembler.py:523-540 | no slot is listed twice, so feeding the list means one path to each slot |
| Optimize.BypassReaches | service/src/assembler.py:601-609 | going round a pass-through DUP changes nothing that any edge reaches |
| Optimize.OptimizeGraph | service/src/assembler.py:579-614 | with the parents recorded before the pass, the graph still reaches the same slots from every output of every node, no new edges appear, only DUPs with one parent go, and those without a second output do; the failing assertion is never met |
| GraphGame.SettleRun | service/src/assembler.py:579-614 | in a graph whose DUP chains lead onwards, all tokens can be passed on until each stands at the slots it reaches |
| GraphGame.SameBehaviour | service/src/assembler.py:579-614 | from tokens at the same slots, two graphs that reach the same allow exactly the same sequences of events: the same nodes fire on the same tokens and the same is printed |
| Wiring.FanReaches | service/src/assembler.py:541-556 | following edges through DUPs from a definition reaches its uses |
| Wiring.Wire | service/src/assembler.py:386-614 | parsing, fan-out and DUP removal together: every definition and every output of a row with two reaches its share of the uses, and every edge to an instruction ends at an input that names a variable |
| Wiring.EdgesHaveRoom | service/src/assembler.py:333-335 | whatever an edge leads to has an input without a literal: the assertion about two literals cannot fail |
| Placement.Placer.Target | service/src/assembler.py:297-348 | the destination word of an edge; its target gets the next address if it has none |
| Placement.Placer.Visit | service/src/assembler.py:272-351 | a visited node gets its final words and label literal, which later addresses do not change |
| Placement.Placer.Run | service/src/assembler.py:245-368 | exactly the reachable instructions get addresses, each one, the first node first, all words are final, and the lists of constants and labels are those of the placed nodes |
| Relocation.ConstantsAre | service/src/assembler.py:302-316 | the constants are exactly the destinations that lead to OUTD or OUTS |
| Relocation.LabelsAre | service/src/assembler.py:282-295 | the labels are exactly the first literals that name a label |
| Relocation.EdgesMove | service/src/instruction_store.c:241-255 | loaded behind other code, every edge leads to its target moved by the offset, with the same input and matching; OUTD, OUTS and /dev/null stay |
| Relocation.LabelMoves | service/src/instruction_store.c:256-263 | a label literal leads to its target moved by the offset |
| Assembled.Decodes | service/src/assembler.py:345-348 | the word of an edge decodes to the address, input and matching function of its target, and to no I/O address |
| Assembled.MatchingAgrees | service/src/assembler.py:330-343 | MATCHING_BOTH is chosen if and only if the instruction store takes the two-token branch |
| Assembled.NeverLost | service/src/instruction_store.c:541-591 | a token sent along any edge passes the I/O switch and never falls into the branch that should not be reached |
| Assembled.SecondOutputMarked | service/src/assembler.py:181 | the second output is sent unless its word is 0: the first input of the first instruction, needing no partner |
| Assembled.OutputPrints | service/src/assembler.py:302-308 | an edge to OUTD prints the token's data |
| Rendering.RowsParse | service/src/assembler.py:386-518 | the rows of a compiled program parse to one node a line, and every name to one definition |
| Rendering.NoneBreaks | service/src/assembler.py:386-518 | the assembler refuses no compiled program |
| Rendering.UsesAreSlots | service/src/assembler.py:522-540 | the uses of a text are exactly the slots that read the name |
| Circuit.Assemble | service/src/assembler.py:245-368 | parsing, fan-out, DUP removal and placement in sequence give a graph and instructions that satisfy all of the above together |
| Circuit.BuiltImplements | service/src/assembler.py:386-614 | what is built from a compiled program is a circuit of it: every output of every line leads to exactly the slots that read its name, once each |
| Circuit.AllMarked | service/src/assembler.py:181 | in a compiled program every second output is marked, because no edge leads to the literal it begins with |
| Firing.PassOn | service/src/processing_unit.c:174-435 | the packet of an added DUP sends tokens to where its token was to arrive |
| Firing.Fire | service/src/processing_unit.c:174-435 | the packet of any line sends exactly the tokens the line makes, to exactly the slots that read them |
| Following.PartnersMeet | service/src/matching_unit.c:85-119 | tokens with one key come to different inputs of one instruction under one tag |
| Running.Step | service/src/instruction_store.c:414-592 | every step of the machine fires one line of the token game, or none, and then what is under way has less far to go |
| Running.StateSafe | service/src/matching_unit.c:67-128 | every state that follows the game is safe |
| Beginning.ReadyIsLiteral | service/src/instruction_store.c:30-65 | the instructions sent before the loop are exactly those of the literals |
| Beginning.AlwaysSafe | service/src/processing_unit.c:97-172 | no state of any run of a loaded program is unsafe |
| Quiescence.QuietIsSilent | service/src/instruction_store.c:414-592 | when the machine has nothing more to do, no line of the game can fire |
| EndToEnd.PrintsNothingElse | service/src/io_switch.c:9-52 | at any moment of any run, of programs that never end too, what has been printed is part of the dataflow result, each value at most once a variable |
| EndToEnd.PrintsExactly | service/src/io_switch.c:9-52 | a run that ends has printed exactly the dataflow result |
| EndToEnd.SourcePrinted | service/src/compiler.py:165-350 | if the source terminates, a run of the machine that ends has printed exactly the final values of the source, and before that nothing else |
| EndToEnd.LoadedIsSafe | service/src/processing_unit.c:97-172 | all runs of a loaded program that end do so in one state after one number of steps |
| Counting.CountsFollow | service/src/types.h:50-58 | in fewer than 2^32 - 1 firings no iteration count wraps: all that is assumed of the areas is that they keep tags apart |
| Halting.HaltsExactly | service/src/compiler.py:257-350 | every loop the dataflow enters has a last turn if and only if the source terminates |
| Finiteness.AreaEnds | service/src/compiler.py:257-350 | every activation of a loop of a halting program has a last turn |
| Finiteness.TerminatingFinite | service/src/compiler.py:165-350 | if the source terminates, whatever tokens the compiled lines can support are finitely many |
| Finiteness.FiniteTerminates | service/src/compiler.py:165-350 | if a set of tokens that misses none is finite, the source terminates |
| Execution.DupNearer | service/src/assembler.py:541-556 | what an added DUP sends has less far to go than what it received, so chains of DUPs delay a token boundedly |
| Ending.TerminatingEnds | service/src/processing_unit.c:97-172 | if the source terminates, so does the machine with exactly its values printed, and every run continues to that end in the same number of steps in all |
| Ending.QuietTerminates | service/src/processing_unit.c:97-172 | a machine that has nothing more to do has run a program that terminates |
| Ending.EndsExactly | service/src/processing_unit.c:97-172 | the machine can come to rest if and only if the source terminates |
| Ending.TerminatingFresh | service/src/processing_unit.c:316-328 | for a terminating program, areas that keep tags apart long enough keep them apart for ever |
| Ending.StuckRuns | service/src/compiler.py:257-350 | the program x = 1; while (x) { x = x; } y = 5 never comes to rest on the machine and prints nothing but one 5 |
| Ending.StoredIsLoaded | service/src/instruction_store.c:30-65 | the loaded file of a compiled program decodes to the program all these theorems are about |
| Numbers.AddressOfWord | service/src/types.h:66-78 | addresses as numbers and as words are the same below 2^28 |
| Trap.TurnConserves | service/src/processing_unit.c:102-170 | a turn keeps every trapped token waiting, released or discarded, exactly one of them, if and only if the drawn keys are not pending |
| Trap.RunConserves | service/src/processing_unit.c:102-170 | the same over whole runs with fresh keys |
| Trap.SentOrTrapped | service/src/processing_unit.c:138-170 | every result is sent at once or trapped; none is made up and none dropped |
| Trap.YesChangesNothing | service/src/processing_unit.c:108-135 | with a handler that always says yes and has answered everything, the tokens sent are those of the untrapped unit, up to order |
| Trap.ProcessingUnit.SingleStep | service/src/processing_unit.c:45-95 | three notices to the handler, and the token is kept under the key, in the hash table |
| Trap.ProcessingUnit.RunTurn | service/src/processing_unit.c:102-171 | one packet on the real hash table gives the specified table and output |
| Loader.IncrementMoves | service/src/instruction_store.c:105-112 | a moved word leads that many instructions further, to the same input with the same matching |
| Loader.IsInList | service/src/instruction_store.c:67-92 | true if and only if some entry names the instruction and has the flag |
| Loader.FindExport | service/src/instruction_store.c:16-28 | the first export of the name |
| Loader.InstructionStore.Relocate | service/src/instruction_store.c:237-284 | all but constant destinations and /dev/null, and the listed literals, are moved; privileged opcodes become DUP |
| Loader.InstructionStore.LoadFile | service/src/instruction_store.c:218-371 | when a load succeeds and the whole new store; an unknown reference changes nothing, a late failure leaves the instructions longer by the module and no exports |
| Loader.InstructionStore.LoadBytes | service/src/instruction_store.c:152-216 | loading the bytes the assembler writes for a file loads that file |
| Loader.BlockStays | service/src/instruction_store.c:232-285 | after any successful loads module k sits behind all earlier ones, linked as it was when it was loaded |
| Loader.FirstExporterWins | service/src/instruction_store.c:287-357 | what a name once resolves to it resolves to for ever |
| Loader.NewExportFound | service/src/instruction_store.c:335-357 | a new name resolves to its own word moved by the module's offset |
| Linked.OpcodeRoundTrip | service/src/types.h:7-41 | the numbers of the opcodes tell them apart, and none a compiled program uses is privileged |
| Linked.RecordDecoded | service/src/assembler.py:178-196 | an instruction written as a record and read as a C structure is the same instruction |
| Linked.FileWritten | service/src/assembler.py:201-229 | whatever the assembler makes can be written and read back, as long as its two lists fit their 16-bit lengths |
| Linked.BlockDecoded | service/src/instruction_store.c:237-284 | the relocated block is instruction by instruction the program the assembler would have made for that place |
| Linked.LoadedHolds | service/src/instruction_store.c:218-371 | one load puts the program behind what is there, at its new place, and changes nothing else |
| Linked.StaysHeld | service/src/instruction_store.c:232-285 | there it stays through all later loads |
| Linked.HeldAlone | service/src/instruction_store.c:218-285 | in an empty store it is the assembled program itself |
| Linked.WriteAndLoad | service/src/assembler.py:675-688 | from the assembler's lists through the bytes of the file to the store |
| Format.PatchRoundTrip | service/src/assembler.py:66-82 | an entry and its four flags survive writing and reading |
| Format.ExternalRoundTrip | service/src/assembler.py:84-92 | an external reference survives, with a name of up to 255 bytes |
| Format.ExportRoundTrip | service/src/assembler.py:94-102 | an export survives |
| Format.InstructionSurvives | service/src/assembler.py:178-196 | an instruction survives with signed literals, missing destinations as /dev/null, and the marker |
| Format.FileRoundTrip | service/src/instruction_store.c:152-216 | reading with the loader's pointer arithmetic recovers all lists of a written file, and the size checks pass |
| Format.WriteFile | service/src/assembler.py:201-229 | the serializers write the specified bytes |

## Left out

- Functions, returns, `extern`, `export` and `asm` in the compiler, and the call sequence through RTD: the compiler theorem is about assignments, arithmetic, conditionals and loops.
- `div`, which the compiler does not implement, and the special functions other than OUTD.
- OUTD inside branches and loops: the modelled programs print variables behind their last statement.
- Variables first defined inside a loop or in one branch only: their tokens are partial by design.
- Whether a program that never terminates prints on the machine what it could: the theorems say what it may print; the token game prints it in every fair run.
- Runs of a program among other modules: loaded at an offset it is the same program with its addresses moved, but the theorems about runs are stated for the store that holds it alone.
- The grammar and the parser of the source language.
- RND, HLT, LOD, file operations, the input module, processes, signals and timeouts.
- Bounded queues between the units in the step system: the queue protocol is proved on its own.
- Names in an extern list of the assembler, and removal of a DUP that assigns an extern name, which loses the reference.
- Allocation failures, and the contents of freshly allocated memory.
- Circuit.Assemble: gives no result for a graph of more than 0xFFFFFFB nodes, whose addresses would run into those for I/O, or for a label that marks no instruction; the assembler does not check the first and fails on the second.
- Delivery.PrintsSafely: is about the print lines behind the program.
- Loader.InstructionStore.LoadFile: excludes a reference to the instruction just behind the module, which writes outside the store.
- Parser.ParseRows: has no rows for `export` and `extern`, and a label stands before its row, so two labels in a row do not occur.
- HashTable.KHash.Put: does not say what the value slot of a new key holds after a rehash, where it is whatever the grown array holds; without one the slots are unchanged.
- Trap.ProcessingUnit.RunTurn: asks for fewer than 2^31 buckets, beyond which the table cannot grow for another token.
