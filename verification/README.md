# HVM: a verified model

HVM is a runtime for the Interaction Calculus: terms live in a heap of 64-bit words, `SUP` nodes hold two values at
once, `DUP` nodes share one expression between two readers, and both carry labels. This project models the parts of
the runtime where that is most delicate and proves what they are for. Paths below are relative to the repository.

## What is modelled

**Meaning and interaction rules** (`U32Ops`, `U32Laws`, `Calculus`, `Reduction`, `Quotes`, `Laws`, `Heap`, `Rules`,
`RulesInc`, `RulesDup`, `RulesEql`, `Interact`). The terms are numbers, erasures, wildcards, names, constructors of
any arity, superpositions, readers of `DUP` cells, `OP2`, `AND`, `OR`, `EQL` and `INC`. A term denotes a value once
each label is given a stream of bits: a superposition of label L takes the next bit of L's stream to choose a side,
side i of a `DUP` of label L puts bit i in front of it. A heap comes with a table that gives each live cell its owner
(for a `DUP` cell, one owner a side) and a rank that falls along references. Every rule is proved on the heap as it
is: slots of the consumed nodes are reused in place, and the twin reader of a `DUP` cell, which may sit anywhere, is
followed.

Three things are proved of every rule, at the redex and at every term above it. The meaning is kept. The term gets
smaller: the weight of a superposition is more than the sum of its sides, that of an operation the product of its
operands, a reader weighs nothing, and among terms of one weight the readers have less far to go (`Reduction`). And it
keeps the sorts it has: *single* (no superposition), *numeric* (it can only become a number or an erasure), *silent*
(no `INC` and nothing that makes one or gets stuck on a test), *tame* (every `INC` is where it can come to the top:
none in a field of a constructor or of an operation that can get stuck; all comparisons are tame). `Quotes` writes a
value out as a term: no term that can have that value is lighter, so a step leaves it as it is, and it is the only
form without a superposition, erasure, `INC`, reader or redex at any position.

**The machine** (`Machine`, `Ending`, `Runtime`). The enter and apply transitions of `wnf` with their frames, the
bound on interactions, and `wnf_rebuild`. `Machine` is the step function with the proofs: each transition keeps the
heap, with the stack plugged back, in order and every root's meaning, so that bounded runs cut up in any way agree.
`Ending` shows that every run ends, on every heap in order. `Runtime` is the imperative form: a class with the heap,
the next free cell, the stack and the counter as fields, one method for each interaction and the loops of the source,
each proved to write what the rule proved sound writes. `Load` lays any term without a `DUP` out in cells and shows
that it meets the conditions of all this.

**Collapse** (`RulesCnf`, `Jam`, `Cnf`, `KeyQueue`, `Collapse`, `CollapseEnds`, `CollapseTame`, `CollapseOrder`,
`CollapseFair`, `CollapseWorker`, `CollapseTerms`, `CollapseInc`, `CollapseLayers`). `cnf_at` lifts the first
superposition, spreads erasures and clones siblings on the heap. The worker takes cells from the bucketed key queue.
Collapse ends on every cell of every heap in order. Where the cell holds a tame term the lines printed are exactly the
clean values it can have, each written out in full: the cell of the line reads as the value's own term, node for node.
Where it holds a silent one they come out level by level from left to right, every branch comes to the head of the
queue within a bound, and with an output limit exactly the first ones are shown, whatever the batch size.

**Structural equality** (`Calculus`, `CollapseEql`). `===` on terms without superpositions, run on the heap with every
`INC` followed, ends with the number or the erasure that it is on the values: one line or none. On values of numbers,
names and constructors it is deep equality. With superpositions, its lines are the answers for the values compared.

**Parallel normalisation** (`ChaseLev`, `Normalize`, `DupCell`). The work-stealing deque with its loads, stores,
buffer accesses and compare-and-swaps as separate steps of one owner and any number of thieves; the workers with their
visited set and pending counter; and two threads racing on one `DUP` cell. All are state machines with sequentially
consistent steps, and the theorems are about all runs.

**Parsing and instantiation** (`AutoDup`, `AutoDupHeap`, `Alo`, `AloHeap`, `Infix`, `Literal`). The rewriting of a
variable used several times into a chain of `DUP` binders, as a function on terms and in place on cells; the expansion
of book terms one layer at a time against substitution all at once; precedence climbing; string literals.

**Compiled loops** (`AotLoops`). The loops emitted for definitions that recurse on a unary constructor, against the
interactions of the definition.

The main results are `Machine.StepKeeps`, `Ending.RunEnds`, `CollapseEnds.CollapseEnds`, `CollapseTerms.TameCollapse`,
`CollapseTerms.SilentOrder`, `Quotes.QuotedStays`, `CollapseInc.HiddenExact`, `CollapseLayers.LayeredExact`,
`CollapseEql.EqlComes`, `CollapseEql.EqlDecides`, `CollapseWorker.EvalCollapse`, `CollapseFair.FairSilent`,
`ChaseLev.ExactlyOnce`, `Normalize.ZeroIsFinal`, `Normalize.TraversalIsClosed`, `DupCell.FiresOnce`,
`AutoDup.TwoRewrites`, `AutoDup.SidesOnce`, `AloHeap.Bank.Exhaust`, `Infix.ParseExact`, `AotLoops.AddTailLoop`,
`Literal.LiteralReads`.

## Where the code differs from what is said of it

- The head of `clang/cnf/_.c` says that no `SUP`, `ERA` or `INC` is left at any position. The loop over the fields
  looks for `ERA` and `SUP` only, so an `INC` in a field stays and hides what is below it. `Cnf` and `Collapse` carry
  a flag, `plain`, that says whether an `INC` or a stuck reader was met. `CollapseTerms.TameCollapse` and
  `CollapseTerms.ExactNormal`: on terms in which no `INC` can get into a field, what the head says is so.
  `CollapseInc.HiddenExact`: a constructor with `INC`s in its fields is printed as it stands, so it is so if and only
  if there is no `INC`; what is printed is right in meaning at least if and only if the term has one clean value.
  `CollapseLayers.LayeredExact`: with superpositions, erasures and `INC`s above such constructors, it is so if and
  only if the term is tame. `CollapseInc.IncHidesChoice` is a term with two values that is printed on one line.
- `clang/wnf/alo_dup.c` takes the length of the binder list as 16 bits. `AloHeap.DupExact`: value and body keep their
  environment if and only if fewer than 65536 binders are in scope.
- `clang/parse/term/app.c` gives `===`, `.&.` and `.|.` "the same precedence" as `==`, `&&` and `||`, but takes them
  at any level. `Infix.ByTableExact` says on which rows, exactly, the parser follows the table of precedences all the
  same, and `Infix.BothIsGreedy` is a row on which it does not.
- The counter of the emitted loops has 32 bits. `AotLoops.AddLoopExact`: the result is the definition's if and only if
  the number of successors is below 2^32.
- UTF-8 output takes any 32-bit number. `Literal.Utf8Exact`: it reads back if and only if it is below 2^21.

## Model

| member | source | states |
|---|---|---|
| `Laws.DupSupAnnihilates` | clang/wnf/dup_sup.c:11-28 | A reader of label L over a superposition of label L means the side it chooses; the step makes the term smaller and keeps every sort it has. |
| `Laws.DupSupCommutes` | clang/wnf/dup_sup.c:11-28 | A reader of label L over a superposition of another label becomes the superposition of two readers: the same meaning, the same weight, the readers nearer their ends. |
| `Laws.DupCtr` | clang/wnf/dup_nod.c:8-29 | Copying a constructor of any arity becomes copying its fields, of the same meaning and weight with the readers nearer their ends. |
| `Laws.DupBin` | clang/wnf/dup_nod.c:8-29 | The same for the nodes with two fields. |
| `Laws.BinSupLeft` | clang/wnf/op2_sup.c:5-13 | For OP2, AND, OR and EQL, a superposition in the strict field distributes over the node when the other field is shared under the same label; although the field is then there twice, the term is lighter. |
| `Laws.BinSupRight` | clang/wnf/eql_sup.c:21-31 | The same for the second field of EQL. |
| `Laws.NumSupLaw` | clang/wnf/op2_num_sup.c:5-12 | With a number as first operand no sharing is needed. |
| `Laws.BinIncLeft` | clang/wnf/and_inc.c:4-11 | An INC comes up out of the strict field: the same meaning, a lighter term, and sorts are kept. |
| `Laws.EqlOneLaw` | clang/wnf/eql_ctr.c:33-37 | Comparing one-field constructors becomes comparing the fields, under an INC or not. |
| `Laws.EqlPeelLaw` | clang/wnf/eql_ctr.c:39-51 | Comparing two constructors becomes an AND of comparing all fields but the last, and the last, with the two INCs or without: the same meaning at any arity, a lighter term, sorts kept. |
| `Laws.CtrSup` | clang/cnf/_.c:270-299 | A superposition in any field of a constructor comes up when the other fields are shared: the same meaning, a lighter term, sorts kept. |
| `Reduction.SameBin` | clang/wnf/_.c:81-822 | A node whose operand takes a step takes a step: meaning, weight and sorts are a congruence. |
| `Reduction.SameCtr` | clang/wnf/_.c:81-822 | The same for constructors of any arity. |
| `Quotes.QuotedNormal` | clang/cnf/_.c:1-5 | A term is a clean value written out, for all choices, if and only if it has no superposition, erasure, INC, reader or redex at any position. |
| `Quotes.QuoteReads` | clang/cnf/_.c:1-5 | A value that a term can have, written out as a term, means that value under all choices. |
| `Quotes.QuoteLeast` | clang/cnf/_.c:137-299 | No term that can have a clean value is lighter than the value written out, and of those as light the only one without readers is that itself. |
| `Quotes.QuotedStays` | clang/cnf/_.c:215-299 | So a field that is written out stays as it is, node for node, whatever is reduced or lifted around it. |
| `Calculus.EqlAnswers` | clang/wnf/_.c:573-681 | EQL of any two values comes to a number or an erasure, never to anything stuck. |
| `Calculus.EqlIsEquality` | clang/wnf/eql_ctr.c:10-52 | On values made of numbers, names and constructors the EQL/AND chain is 1 on equal values and 0 on different ones. |
| `U32Laws.DigitOps` | clang/term/op2_u32.c:31-48 | AND, OR, XOR and NOT work digit by digit on all 32 binary digits. |
| `U32Laws.ShiftLeft` | clang/term/op2_u32.c:40-42 | A left shift by fewer than 32 moves the digits up and drops those that leave the word. |
| `U32Laws.ShiftRight` | clang/term/op2_u32.c:43-45 | A right shift by fewer than 32 moves the digits down and fills with zeros. |
| `U32Laws.DivMod` | clang/term/op2_u32.c:25-30 | Quotient and remainder give the dividend back; by zero both are zero. |
| `Heap.ChangeWf` | clang/wnf/dup_sup.c:11-28 | Any in-place change that overwrites only cells below the redex, owned from inside it, keeps the ownership and rank table in order. |
| `Heap.ChangeSound` | clang/wnf/dup_sup.c:11-28 | Such a change keeps the meaning of every live cell it does not overwrite, the twin reader's included, once the redex and what moves keep theirs. |
| `Heap.ChangeKept` | clang/wnf/dup_sup.c:11-28 | Seen from outside the redex, such a change leaves every cell as it was, up to meaning. |
| `Heap.KeptThen` | clang/wnf/eql_ctr.c:10-52 | A further change at a cell made by a first one composes with it. |
| `Rules.BinSupSound` | clang/wnf/op2_sup.c:5-13 | OP2-SUP, AND-SUP, OR-SUP and EQL-SUP with their slots reused keep every live root: its meaning under every choice, its sorts, and its weight or less; the redex itself gets smaller. |
| `Rules.AtomSound` | clang/wnf/and_num.c:8-17 | A node replaced by an atom of equal meaning leaves a sound heap. |
| `Rules.ForwardSound` | clang/wnf/or_num.c:8-17 | A node replaced by one of its fields of equal meaning leaves a sound heap. |
| `Rules.OpenSound` | clang/wnf/_.c:498-536 | Turning to the second operand of an OP2 is a sound change. |
| `RulesInc.BinIncSound` | clang/wnf/and_inc.c:4-11 | Lifting INC out of an operand with slots reused is sound. |
| `RulesInc.NumSupSound` | clang/wnf/op2_num_sup.c:5-12 | OP2-NUM-SUP with the superposition's slots reused is sound. |
| `RulesInc.RebuildSound` | clang/wnf/op2_inc.c:16-23 | Rebuilding an OP2 whose first operand is a number is sound. |
| `RulesDup.AnnihilateSound` | clang/wnf/dup_sup.c:11-17 | Equal labels: one side is returned, the other waits in the DUP cell for the twin; both readers keep their meaning. |
| `RulesDup.DupAtomSound` | clang/wnf/dup_nod.c:8-15 | An atom is handed to both readers. |
| `RulesDup.NodSound` | clang/wnf/dup_nod.c:8-29 | A node's field slots become DUP cells read from two new blocks; both readers and all fields keep their meaning. |
| `RulesEql.OneSound` | clang/wnf/eql_ctr.c:33-37 | Comparing two one-field constructors is comparing the fields, in the old EQL node, below a new INC or not. |
| `RulesEql.PeelSound` | clang/wnf/eql_ctr.c:39-51 | Splitting the last fields off a comparison into an AND is sound, with INCs over the AND and the last comparison or without. |
| `RulesEql.Chain` | clang/wnf/eql_ctr.c:46-51 | The whole AND chain, for any arity, keeps every root's meaning and leaves a heap in order. |
| `RulesEql.Suc` | clang/wnf/eql_ctr.c:34-37 | The same for successors, with their INC. |
| `RulesEql.Con` | clang/wnf/eql_ctr.c:40-44 | The same for list cells, with INC on the tail and on the whole. |
| `RulesCnf.RaiseLaw` | clang/cnf/_.c:270-299 | Lifting a superposition over a node, with the siblings shared under its label, keeps the meaning. |
| `RulesCnf.RaiseKept` | clang/cnf/_.c:270-299 | The same on the heap, with fields cloned and the node rebuilt in place: every root keeps its meaning. |
| `Interact.BinSupFires` | clang/wnf/and_sup.c:5-15 | The cells AND-SUP and its like write lead from a heap in order to a heap in order, and touch nothing seen from outside the redex. |
| `Interact.BinIncFires` | clang/wnf/eql_inc.c:4-23 | The same for the INC rules of EQL, AND, OR and OP2. |
| `Interact.NumSupFires` | clang/wnf/op2_num_sup.c:5-12 | The same for OP2-NUM-SUP. |
| `Interact.NumIncFires` | clang/wnf/op2_inc.c:16-23 | The same for OP2-INC on the second operand. |
| `Interact.NumStuckFires` | clang/wnf/_.c:563-568 | Rebuilding a stuck OP2 keeps every root's meaning. |
| `Interact.DupAtomFires` | clang/wnf/dup_nam.c:5-9 | Copying an atom keeps every root's meaning, the twin's included. |
| `Interact.AnnihilateFires` | clang/heap/subst_cop.c:1-4 | The same for annihilation. |
| `Interact.NodFires` | clang/wnf/dup_nod.c:8-29 | The same for DUP-NOD, and for DUP-SUP with different labels, at any arity. |
| `Interact.EqlCtrFires` | clang/wnf/eql_ctr.c:10-52 | The same for EQL-CTR at any arity, with its INC wrappers. |
| `Machine.StepKeeps` | clang/wnf/_.c:81-822 | At every enter and apply transition the heap with the stack plugged back stays in order, every root keeps its meaning, and a term being applied is reduced. |
| `Machine.StepsKeep` | clang/wnf/_.c:81-822 | The same over any number of steps. |
| `Machine.RebuildKeeps` | clang/wnf/_.c:8-68 | Plugging the whole stack back keeps every root's meaning. |
| `Machine.WnfAtKeeps` | clang/wnf/_.c:824-852 | Reducing a cell with any bound leaves a heap in order in which that cell and every root mean what they meant. |
| `Machine.RunsKeep` | clang/wnf/_.c:862-912 | The same for any sequence of bounded runs. |
| `Machine.RunsAgree` | clang/wnf/_.c:862-912 | Runs cut up in different ways leave terms of the same meaning. |
| `Machine.FinishedReduced` | clang/wnf/_.c:81-822 | A run that ends leaves a term whose head shows the meaning the cell had at the start. |
| `Machine.AnswersAgree` | clang/wnf/_.c:862-912 | However the work is cut into bounded runs, runs that end in neither a superposition nor an INC end in the same head. |
| `Ending.SpineSmaller` | clang/wnf/_.c:81-822 | When the term at the machine gets smaller, so does the whole term with the stack plugged back. |
| `Ending.StepBefore` | clang/wnf/_.c:81-822 | Every transition leaves less to do: interactions make the whole term smaller, the others use up substitutions or shorten the way through it. |
| `Ending.RunEnds` | clang/wnf/_.c:81-822 | From every state of the machine, on any heap in order, the run comes to its end. |
| `Ending.AlwaysEnds` | clang/wnf/_.c:862-912 | Whatever bounded runs came before, one more run ends, and beyond that bound always with the same answer. |
| `Ending.OneAnswer` | clang/wnf/_.c:862-912 | For terms without superpositions and INC makers, runs cut up in any two ways end, and end in the same head. |
| `Runtime.Runtime.TermClone` | clang/term/clone.c:1-9 | A value goes to a new DUP cell with its two readers. |
| `Runtime.Runtime.DupSup` | clang/wnf/dup_sup.c:11-28 | The cells written and the term returned are those of the rule proved sound, for equal and for different labels. |
| `Runtime.Runtime.DupNod` | clang/wnf/dup_nod.c:8-29 | The same for any arity, with its loop over two blocks. |
| `Runtime.Runtime.BinSupL` | clang/wnf/or_sup.c:5-15 | The same for OP2-SUP, AND-SUP, OR-SUP and EQL-SUP-L. |
| `Runtime.Runtime.EqlSupR` | clang/wnf/eql_sup.c:21-31 | The same for EQL-SUP-R. |
| `Runtime.Runtime.BinIncL` | clang/wnf/or_inc.c:4-11 | The same for AND-INC, OR-INC and EQL-INC-L. |
| `Runtime.Runtime.EqlIncR` | clang/wnf/eql_inc.c:16-23 | The same for EQL-INC-R. |
| `Runtime.Runtime.Op2IncX` | clang/wnf/op2_inc.c:4-11 | The same for OP2-INC-X, which allocates a node. |
| `Runtime.Runtime.Op2IncY` | clang/wnf/op2_inc.c:16-23 | The same for OP2-INC-Y. |
| `Runtime.Runtime.Op2NumSup` | clang/wnf/op2_num_sup.c:5-12 | The same for OP2-NUM-SUP. |
| `Runtime.Runtime.AndChain` | clang/wnf/eql_ctr.c:46-51 | The loop that builds the AND chain writes the cells of the rule proved sound. |
| `Runtime.Runtime.EqlCtr` | clang/wnf/eql_ctr.c:10-52 | EQL-CTR writes the cells of the rule proved sound, in all its cases. |
| `Runtime.Runtime.WnfRebuild` | clang/wnf/_.c:8-68 | The loop that pops all frames does what the rebuilding proved sound does, and empties the stack. |
| `Runtime.Runtime.Enter` | clang/wnf/_.c:96-260 | One enter transition. |
| `Runtime.Runtime.ApplyFrame` | clang/wnf/_.c:430-815 | One apply transition: the frame is popped and its interaction done, or the node is given up as stuck, or another frame is pushed. |
| `Runtime.Runtime.WnfAt` | clang/wnf/_.c:81-852 | The machine loop, which looks at its interaction limit on entering and before a frame is taken (lines 82 and 306), comes to an end on every heap in order, is a run of the step machine, stops only when done or at the limit and not later than it reaches it, and keeps the heap in order and every root's meaning. |
| `Load.LoadedReady` | clang/term/new/_.c:1-10 | Every term without a DUP can be laid out in cells so that the heap is in order and the cell reads back as the term. |
| `Jam.WnfJams` | clang/wnf/_.c:752-815 | Where the machine gives up on an AND or OR, the first operand it leaves is no number: nothing is stuck that could go on. |
| `Cnf.LiftKeeps` | clang/cnf/_.c:270-299 | Lifting the first superposition among the fields keeps the heap in order and every root's meaning. |
| `Cnf.CnfAtKeeps` | clang/cnf/_.c:137-299 | Collapsing a cell keeps its meaning; an erased result means erasure for all choices, and a plain result with no superposition on top is the value written out, node for node, under all choices. |
| `Cnf.CnfFieldsKeeps` | clang/cnf/_.c:215-299 | The same for the loop over the fields of a node. |
| `CollapseEnds.CnfEnds` | clang/cnf/_.c:137-299 | Collapsing a cell comes to an end, on every heap in order. |
| `CollapseTame.WnfFirm` | clang/wnf/_.c:445-493 | A reduced tame term is neither a reader nor an EQL, AND or OR. |
| `CollapseTame.CnfPlain` | clang/cnf/_.c:215-299 | Collapsing a tame term leaves no field uncollapsed, unless the result is an INC on top. |
| `CollapseInc.HiddenExact` | clang/cnf/_.c:262-268 | A constructor whose fields are numbers, names, wildcards, such constructors, or INCs over anything is printed on one line, as it stands. So the output is the term's values written out if and only if there is no INC in it; it is right in what it means if and only if the term has one clean value, and for data that is so if and only if the sides of its superpositions agree and nothing is erased. |
| `CollapseInc.DataFixed` | clang/cnf/_.c:1-5 | Data with superpositions, nested to any depth, has one clean value for all choices if and only if a walk over the term finds all sides agreeing and no erasure. |
| `CollapseLayers.LayeredExact` | clang/cnf/_.c:262-268 | For superpositions, INCs and erasures over such constructors, in any memory without substitutions that wait, what is printed are exactly the values written out if and only if the term is tame. |
| `CollapseInc.IncHidesChoice` | clang/cnf/_.c:262-268 | An INC under a constructor hides a superposition: one line is printed for a term with two values, neither written out nor right in meaning. |
| `KeyQueue.InsertLast` | clang/data/wspq.c:130-148 | A task whose key no queued one exceeds goes to the end. |
| `KeyQueue.PushListing` | clang/data/wspq.c:130-148 | Pushing onto a bucket is insertion by key, last among equals, in the queue the buckets stand for. |
| `KeyQueue.PopListing` | clang/data/wspq.c:151-167 | The oldest task of the first bucket in use is the head of that queue. |
| `KeyQueue.Wspq.constructor` | clang/data/wspq.c:85-106 | All queues start empty. |
| `KeyQueue.Wspq.Push` | clang/data/wspq.c:130-148 | The worker's queue gains the entry at its place; no other worker's bank changes; the mask marks every bucket in use. |
| `KeyQueue.Wspq.LowestBit` | clang/data/wspq.c:61-63 | The first marked bucket. |
| `KeyQueue.Wspq.Pop` | clang/data/wspq.c:151-167 | Failure means all own buckets are empty; with one worker the head of the queue is returned, with more the newest task of the first bucket in use. |
| `KeyQueue.Wspq.StealBatch` | clang/data/wspq.c:209-217 | The loop moves tasks from the victim's bucket to the thief's same bucket, oldest first, until the batch is full or the bucket empty. |
| `KeyQueue.Wspq.StealSome` | clang/data/wspq.c:170-225 | Stealing loses, copies and re-keys no task. |
| `Collapse.CollapseTells` | clang/eval/collapse.c:34-155 | A finished run gives each queued cell a tree of choices in which every environment leads to one leaf or dead end that tells its meaning, with no INC in it for a silent cell, and prints the leaves of these trees in queue order. |
| `Collapse.PrintedOnce` | clang/eval/collapse.c:34-89 | Every leaf is printed once. |
| `Collapse.LeafReached` | clang/eval/collapse.c:52-60 | Every leaf is reached by the environment that gives each label its choices in path order. |
| `Collapse.CollapseExact` | clang/eval/collapse.c:34-155 | In any memory, the lines of a finished run that left no field uncollapsed are exactly the clean values of the cell, each written out in full: the line's term is the value's own, node for node. |
| `CollapseEnds.TurnFollows` | clang/eval/collapse.c:34-89 | A turn of the loop leaves a queue in order that weighs less, of the sorts it had. |
| `CollapseEnds.CollapseEnds` | clang/eval/collapse.c:91-155 | From every queue of every heap in order collapse comes to an end, and more fuel than enough changes nothing. |
| `CollapseTame.EnumerateTame` | clang/eval/collapse.c:34-155 | No line printed for tame cells has a field left uncollapsed, through all reductions and lifts; `CollapseTerms.TameCollapse` says what that comes to. |
| `CollapseTerms.TameCollapse` | clang/eval/collapse.c:162-226 | For every cell of every heap in order that holds a tame term, DUPs and their twins and comparisons of anything among them, the run ends and its lines are exactly the clean values the term can have, each written out. |
| `CollapseTerms.ExactNormal` | clang/cnf/_.c:1-5 | No line of such an output has a superposition, an erasure, an INC, a reader or a redex at any position. |
| `CollapseTerms.TameTerm` | clang/eval/collapse.c:162-226 | The same for every tame term without a DUP, from the term itself: it is loaded, and collapsed. |
| `CollapseTerms.SilentOrder` | clang/eval/collapse.c:52-60 | For every cell of every heap in order that holds a silent term the run ends, and its lines are the leaves, each written out, of a tree of choices that tells what the term means, level by level and from left to right. |
| `CollapseTerms.CollapseCell` | clang/eval/collapse.c:162-226 | Under an output limit the first leaves in that order are shown, for every batch size, and the worker is done with any fuel from a bound on that is given. |
| `CollapseTerms.TermEnds` | clang/eval/collapse.c:162-226 | Collapse of any term without DUP, loaded, ends. |
| `CollapseEql.AnswerRun` | clang/eval/collapse.c:34-89 | A term without superpositions that means a number is printed on one line as that number, whatever INCs are followed, and one that means an erasure is not printed. |
| `CollapseEql.EqlComes` | clang/wnf/_.c:573-681 | In any memory, a comparison of any two terms without superpositions ends, ANY and ERA among them: in one line with the number that EQL of their values is, or in no line when that is an erasure. |
| `CollapseEql.EqlDecides` | clang/wnf/eql_ctr.c:10-52 | In any memory, a comparison of terms without superpositions whose values are made of numbers, names and constructors ends in one line: 1 if the values are equal and 0 if not, SUC and CON and their INCs included. |
| `CollapseEql.WholeEquality` | clang/wnf/eql_ctr.c:10-52 | For terms of numbers, names and constructors, naturals and lists among them, it is equality of the terms. |
| `CollapseOrder.BreadthFirst` | clang/eval/collapse.c:52-60 | The queue prints the leaves of a tree of choices without INC level by level and from left to right, at any depth. |
| `CollapseFair.Fair` | clang/eval/collapse.c:91-155 | While the turns go on without an INC, every queued branch comes to the head within as many turns as the weight, 3^(63-key) each, of those ahead of it. |
| `CollapseFair.FairSilent` | clang/eval/collapse.c:91-155 | In a silent queue they do go on: every queued branch comes to the head within that bound, whatever the fuel beyond enough. |
| `CollapseFair.TurnsAre` | clang/eval/collapse.c:91-155 | The turns counted are those of the enumeration: what is printed later is printed by the queue they leave. |
| `CollapseWorker.Printer.Emit` | clang/eval/collapse.c:64-86 | Whatever the batch size, a line is shown exactly while fewer than the limit have been, and the stop flag is raised at the limit. |
| `CollapseWorker.ProcessLoc` | clang/eval/collapse.c:34-89 | One popped task is handled as in the enumeration, following INC at once. |
| `CollapseWorker.Drain` | clang/eval/collapse.c:91-155 | The worker shows the first lines of the enumeration up to the limit. |
| `CollapseWorker.EvalCollapse` | clang/eval/collapse.c:162-226 | Exactly the first min(limit, number) lines are shown. |
| `ChaseLev.StepRefines` | clang/data/wsq.c:66-137 | Every atomic step of the owner or a thief keeps the invariant and is a step of a plain queue: append, take last, take first, or nothing. |
| `ChaseLev.RunRefines` | clang/data/wsq.c:66-137 | The same over whole runs, for any number of thieves. |
| `ChaseLev.ExactlyOnce` | clang/data/wsq.c:66-137 | In every interleaving the tasks pushed are those returned, those in hand and those queued, with multiplicity, and bot - top never exceeds the capacity. |
| `ChaseLev.NeverTwice` | clang/data/wsq.c:79-137 | A task pushed once is not returned twice, nor returned while queued. |
| `ChaseLev.WonStealIsCurrent` | clang/data/wsq.c:117-134 | A compare-and-swap that would succeed holds the entry at the index it compares, although the slot was read earlier and the ring may have wrapped. |
| `ChaseLev.LastTaskIsSafe` | clang/data/wsq.c:89-112 | When pop takes a task without a compare-and-swap, no thief can take that task. |
| `ChaseLev.SlotIsRemainder` | clang/data/wsq.c:66-76 | The ring slot is the remainder by the capacity. |
| `Normalize.ZeroIsFinal` | clang/eval/normalize.c:73-119 | pending counts the active workers, and once it is zero, or a worker has left, no task exists anywhere nor appears later. |
| `Normalize.EvaluatedOnce` | clang/eval/normalize.c:36-58 | No location is evaluated twice, in any run of any number of workers. |
| `Normalize.TraversalIsClosed` | clang/eval/normalize.c:30-119 | Once a worker has left, the root and every location handed on by an evaluated one have been evaluated, the fallback on a full deque included. |
| `Normalize.StepKeepsCountInv` | clang/eval/normalize.c:73-119 | Every step keeps the counter equal to the number of active workers, and inactive workers empty-handed. |
| `DupCell.FiresOnce` | clang/wnf/_.c:445-493 | With two threads on the two sides of one DUP cell the interaction fires at most once, and each side gets its own part of it. |
| `DupCell.ZeroMeans` | clang/heap/take.c:1-17 | The cell is zero exactly while one thread holds the expression or after both have their parts; never do both hold it. |
| `DupCell.SpinIsShort` | clang/heap/take.c:10-16 | A thread that finds zero waits for the other one, which holds the expression. |
| `AutoDup.CountUses` | clang/parse/count_uses.c:3-24 | The explicit-stack loop counts the occurrences. |
| `AutoDup.ExpandKeeps` | clang/parse/auto_dup.c:22-111 | The rewritten term reads back as the same tree, whatever use count is claimed. |
| `AutoDup.TargetOnce` | clang/parse/auto_dup.c:100-108 | With the right count the target is left with one use. |
| `AutoDup.SidesOnce` | clang/parse/auto_dup.c:27-36 | Each side of each new binder is used once. |
| `AutoDup.OthersStay` | clang/parse/auto_dup.c:22-60 | Other references to outer binders are untouched. |
| `AutoDup.InnerShift` | clang/parse/auto_dup.c:37-45 | References to binders inside move up by the number of new binders. |
| `AutoDup.ExpandScoped` | clang/parse/auto_dup.c:64-111 | The result is in scope. |
| `AutoDup.TwoRewrites` | clang/parse/term/dup.c:141-144 | Rewriting both sides of a DUP, one after the other, keeps the meaning and leaves at most one use of each. |
| `AutoDup.FirstChainStays` | clang/parse/term/dup.c:102-105 | The second rewrite leaves the chain of the first linear. |
| `AutoDupHeap.Parser.GoAt` | clang/parse/auto_dup.c:22-60 | The in-place walk turns the cells of a tree into those of the rewritten tree, and advances the counter by its uses. |
| `AutoDupHeap.Parser.WrapUp` | clang/parse/auto_dup.c:98-109 | The chain-building loop puts the binders around the term. |
| `AutoDupHeap.Parser.ParseAutoDup` | clang/parse/auto_dup.c:64-111 | The cells end up holding the rewritten term; it fails exactly when the labels run out. |
| `Alo.PackUnpack` | clang/term/new/alo.c:1-16 | The packed word gives back the list and the book location. |
| `Alo.SameAlo` | clang/wnf/_.c:157-172 | An ALO determines its term and environment. |
| `Alo.PartlyStays` | clang/wnf/alo_nod.c:4-18 | Expanding one ALO leaves every partly expanded term partly expanded, although a word is used again. |
| `Alo.Complete` | clang/wnf/_.c:157-222 | With no ALO left, a lazily expanded term is the term with its whole environment substituted. |
| `Alo.OwnedStays` | clang/wnf/alo_nod.c:4-18 | No two terms ever point at the same word or block. |
| `AloHeap.LamStep` | clang/wnf/alo_lam.c:5-14 | The cells of ALO-LAM hold one layer of the lambda with a new innermost binder. |
| `AloHeap.DupStep` | clang/wnf/alo_dup.c:6-13 | The cells of ALO-DUP hold the shared value and the body with a new binder. |
| `AloHeap.DupExact` | clang/wnf/alo_dup.c:6-13 | The 16-bit length keeps the environment of value and body exactly when fewer than 65536 binders are in scope. |
| `AloHeap.NodStep` | clang/wnf/alo_nod.c:4-18 | The cells of ALO-NOD hold one layer of the node, for any arity. |
| `AloHeap.Bank.constructor` | clang/term/new/alo.c:1-4 | An ALO of a whole book term is an instance to start with. |
| `AloHeap.Bank.AloLam` | clang/wnf/alo_lam.c:5-14 | The cells written are those of the step proved right. |
| `AloHeap.Bank.AloDup` | clang/wnf/alo_dup.c:6-13 | The same, with the length cut to 16 bits. |
| `AloHeap.Bank.AloNod` | clang/wnf/alo_nod.c:4-18 | The same, with the loop over the parts. |
| `AloHeap.Bank.AloRef` | clang/wnf/alo_var.c:4-17 | The walk along the list reaches the binder of the level, and a level out of range stays free; the two readers of a DUP are looked up the same way. |
| `AloHeap.Bank.Layer` | clang/wnf/_.c:174-222 | One layer of any book term. |
| `AloHeap.Bank.Expand` | clang/wnf/_.c:157-222 | Unpacking and expanding keeps the heap of lazy terms in order. |
| `AloHeap.Bank.ExpandAll` | clang/wnf/_.c:157-222 | Expanding any cells in any order keeps every instance, and when no ALO is left it is the eager one. |
| `AloHeap.JobsOn` | clang/wnf/alo_nod.c:4-18 | An expansion replaces one waiting ALO by others that are smaller, all together. |
| `AloHeap.Bank.Exhaust` | clang/wnf/_.c:157-222 | Expanding whichever ALO one likes comes to an end, with no ALO left and the term the eager one. |
| `Infix.Yield` | clang/parse/term/app.c:13-48 | Parsing drops no atom and no operator, and keeps their order. |
| `Infix.Sound` | clang/parse/term/app.c:38-48 | The tree is grouped: a left operand ends before the operator, a right one has all it takes. |
| `Infix.ParseExact` | clang/parse/term/app.c:13-48 | A row parses to a tree exactly when the tree is grouped and has that row, for all operators with `===`, `.&.`, `OR` and `<>`. |
| `Infix.TableUnique` | clang/parse/term/opr.c:4-16 | Over the table's operators the parse is the only tree with the row in which a left child binds at least as tightly and a right child more tightly. |
| `Infix.ByTableExact` | clang/parse/term/app.c:20-37 | With `===`, `.&.` and `OR` in the classes their comments give, the parser follows the table exactly on the rows in which each of them follows a looser operator and `.&.`, `OR` are not met by their own class. |
| `Infix.BothIsGreedy` | clang/parse/term/app.c:26-31 | A row on which it does not: in `a == b .&. c == d` the rest goes into the first `==`. |
| `Infix.Parser.AppPrec` | clang/parse/term/app.c:13-48 | The climbing method moves through the row as the specification does. |
| `Infix.Parser.Term` | clang/parse/term/app.c:9-11 | The whole row is read into a grouped tree with that row. |
| `AotLoops.AddGoes` | clang/aot/emit.c:587-651 | The source of a non-tail add, on n successors, goes to n successors around its end in 4n interactions and those of the end. |
| `AotLoops.AddTailGoes` | clang/aot/emit.c:587-651 | The tail form goes to a call on the end with n successors accumulated, in 4n interactions. |
| `AotLoops.U32Goes` | clang/aot/emit.c:654-729 | The source of a sum leaves n sums around its end. |
| `AotLoops.U32TailGoes` | clang/aot/emit.c:654-729 | The tail form leaves n sums in the accumulator. |
| `AotLoops.SumsGo` | clang/wnf/_.c:498-536 | n sums with one come to the sum modulo 2^32 in n interactions. |
| `AotLoops.WrapCtr1` | clang/aot/_.c:88-100 | n constructors around a term. |
| `AotLoops.WrapOp2NumLhs` | clang/aot/_.c:103-109 | n sums around a term. |
| `AotLoops.AddTailLoop` | clang/aot/emit.c:1510-1549 | The emitted loop returns what the source goes to, with the same interactions, ending on zero or stuck. |
| `AotLoops.AddLoop` | clang/aot/emit.c:1607-1688 | The counting loop returns n mod 2^32 successors and agrees with the source up to 2^32. |
| `AotLoops.AddLoopExact` | clang/aot/emit.c:1631-1650 | It gives the source's term exactly when n is below 2^32. |
| `AotLoops.U32Loop` | clang/aot/emit.c:1887-1933 | The sum is the source's for every n; the interaction count and a stuck result agree below 2^32. |
| `AotLoops.U32TailLoop` | clang/aot/emit.c:1764-1828 | The accumulator loop returns what the source goes to, in 5n + 2 interactions for a number and a zero end, and 4n + 2 for another accumulator; ending stuck with a number, it adds at once what the source leaves as sums. |
| `Literal.Utf8Exact` | clang/parse/utf8.c:2-29 | A code point printed as UTF-8 reads back exactly when it is below 2^21. |
| `Literal.EscapeReads` | clang/parse/term/chr.c:1-24 | What is printed for an escapable code point reads back as it, in either mode, and does not start with the fence. |
| `Literal.LiteralReads` | clang/parse/term/str.c:4-21 | A printed string literal reads back as the string, up to its fence. |
| `Literal.Reader.Utf8` | clang/parse/utf8.c:2-29 | The byte reader decodes as specified, in every branch, truncated input included. |
| `Literal.Reader.CharEsc` | clang/parse/term/chr.c:1-24 | Escapes, errors at the end of the input, and plain characters. |
| `Literal.Reader.TermStr` | clang/parse/term/str.c:4-21 | The loop collects the characters up to the fence, or fails, and the list has them in order. |
| `Literal.ToList` | clang/parse/term/str.c:14-20 | The list built from the end. |

## Left out

- Lambdas, applications and their variables, `MAT`, `SWI`, `USE`, `UNS`, `PRI`, dynamic labels (`DSU`, `DDU`), `DRY` and references in the machine: variables are global and leave their scope, and the label-stream meaning does not cover them. Book terms with binders appear in `AutoDup` and `Alo`, where their structure is the point.
- Packing of tag, label and value into one word: terms are datatypes, locations and labels unbounded numbers. The packed pair of `ALO` and the width of its length are modelled.
- The heap's end: allocation never fails, except that `AloHeap` asks for room below 2^38.
- Ending.RunEnds: of the terms modelled; with lambdas and references, which are left out, runs need not end.
- The interaction counter is one number; statistics, tracing and step printing are not modelled, and `wnf_at` and `wnf_steps_at` skip terms that are already reduced, which changes nothing.
- F_OP2_NUM: the frame records the cell its operand came from, for the proofs only; no step reads it.
- Atomic exchange inside the machine: `Machine` and `Runtime` run alone on their heap, and two threads meeting in a `DUP` cell are the subject of `DupCell`, with the interaction as one opaque result.
- U32Laws.ShiftLeft: stated for shifts by fewer than 32; larger ones are undefined in C, and the model takes their amount modulo 32.
- Cnf.CnfAtKeeps: the parallel branch and its task pool are not modelled, and quoted lambdas do not occur.
- Collapse.CollapseExact: its condition is on the run; `CollapseTerms.TameCollapse` has one on the term, for the same memories.
- CollapseLayers.LayeredExact: for terms that are not tame, whether the output is exact is told of superpositions, erasures and `INC`s over constructors whose fields, to any depth, are numbers, names, wildcards, constructors and `INC`s over anything. Where a field has a superposition, an erasure or an operation beside an `INC`, only `Collapse.CollapseTells` is proved: such a branch may still be erased as a whole.
- CollapseTerms.SilentOrder: the order of the lines is told for terms in which no `INC` turns up; `Collapse.CollapseTells` gives it for all, as the order of the queue.
- Machine.AnswersAgree: two runs that end in superpositions or `INC`s may have different heads, of one meaning; `Ending.OneAnswer` is for terms that end in neither.
- Interact.EqlCtrFires: the ids of SUC and CON, which the source takes from its name table, are constants here.
- Collapse stores the collapsed term in the queued cell itself, which the source leaves with the old term; nothing reads it again.
- Several collapse workers: the queue's stealing is modelled, the shared output limit is not, as counts are batched per thread.
- KeyQueue.Wspq.Push: buckets never fill up, and task 0, which the source drops, is not special. Each deque operation is taken as one step; interleavings are in `ChaseLev`.
- ChaseLev.SlotIsRemainder: the mask of a power-of-two ring is a remainder; weak memory orderings and counter wrap-around are not modelled.
- Normalize: what evaluating a location returns is arbitrary; the spinning loop has no liveness claim.
- AutoDup.CountUses: the stack of 1024 words is unbounded here.
- AutoDup: bodies are trees; a dynamic fork, which puts one label term in several nodes, is outside.
- Alo.Complete: the label that `ALO-DUP` drops is not part of the instance; names of lambdas are left out. Book cells are kept apart from the heap, which the source puts them at the bottom of.
- Infix: calls `f(x)`, atoms and the reading of operators from characters are left out; an atom is a number.
- AotLoops: `aot_force` is the identity, so a duplicated or substituted argument counts as not a constructor; the entry points that pop arguments from the stack and an argument that ends in a third constructor, where the interpreter fails, are left out. Nodes are values, not cells.
- Literal: line and column counting; the buffer of 4096 characters is unbounded here.
- The command line, includes, the name table, the printer of terms, the foreign interface and the build of compiled programs.
