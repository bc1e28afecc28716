# Verified models of wake

[wake](https://github.com/sifive/wake) is a build language and orchestration tool. This project models the parts of it
whose correctness is hardest to see, and proves what they promise for every input, every run and every interleaving.

| modules | part of wake |
|---|---|
| `Ssa`, `SsaRelation`, `TermStreams`, `Purity`, `UsageSweep`, `Inline`, `Cse`, `Innocence`, `LiveTerms`, `Simplified`, `MergedOnce`, `Yields`, `Claims`, `Optimizer`, `TargetExample`, `MatchExample` | the SSA optimizer: its passes, each proved to keep meaning, and the pipeline they make |
| `ScopePass`, `Placement`, `Frames` | translation of flat indices to frames, code identity of functions, and partial application at run time |
| `Collector`, `Heap` | the copying garbage collector, its finalizers and its sizing |
| `Layering`, `Components` | layering and grouping of mutually dependent definitions |
| `Patterns`, `PatternExpand`, `PatternTypes` | the pattern-match compiler and its reports |
| `BuildDatabase`, `DatabaseEffects`, `BlobRemoval` | runs, locks, claims and garbage collection in the shared build database |
| `SyntaxTree` | the concrete syntax tree: building, reordering and walking it |
| `Sequences` | facts about sequences used throughout |

How to read them:

- *Meaning* of SSA code is a strict evaluator with a history of events (`Ssa`). A value *may stand for* another
  (`SsaRelation.Related`) if whatever the rest of a program can do with the one, it can do with the other, with the same
  history. A *checked* evaluation fails where an unflagged term has an effect, or depends on order; the purity pass is
  proved to make such failures impossible, and the sweep and the merge rely on exactly that. `Optimizer.Optimize` puts
  the passes together in their real order.
- The runtime calls handlers of a destructure, bodies of targets and the program itself by `claim_apply`, which fills
  one slot and runs (`Ssa.Claim`). A machine does this *exactly* as the runtime, which is stuck if the function wants
  another number of arguments; *loosely*, by an application; or insisting that the claim is *plain*: that its callee was
  not returned by a call and returns no function. A destructure with one handler may return what it likes, for the
  inliner turns it into an application. Every pass keeps loose runs and plain runs; all but the inliner keep exact ones
  (see Findings).
- A pass that did nothing would keep meaning too. What a pass must achieve is stated apart from how it does it: what is
  unflagged (`Innocence`), live (`LiveTerms`), seen through (`Simplified`) or merged (`MergedOnce`).
- State that the source changes in place is a class or an array here, and each such method is proved against a function
  of the old state; the lemmas are about those functions.
- The database is a state machine over the steps of any number of processes. A *history* is any sequence of enabled
  steps from the empty database.

`dafny verify dfyconfig.toml` checks everything.

## Model

| member | source | states |
|---|---|---|
| `Optimizer.Optimize` | src/optimizer/ssa.cpp:206-224 | All seventeen passes in their order, each with what it leaves behind: nothing to see through after inlining, nothing dead after pruning, nothing twice after merging. For every choice of primitives, when a run of the program ends, the result, with applications where the runtime claims, ends with the same events in the same order and the same value up to closures; on the runtime it does that or gets stuck at a claim, never anything else, and it does that if the program's claims are plain. No run is lost at all if the program's text shows its claims to be plain, or the result's text that it claims one-parameter functions only. |
| `Optimizer.Prune` | src/optimizer/ssa.cpp:207-210 | Both purity passes, usage and sweep: meaning kept, however functions are claimed, nothing dead left, and the order flags that are left are honest, so that merging may rely on them. |
| `Optimizer.Pruned` | src/optimizer/ssa.cpp:209-210 | Sweeping relies on effect flags whose words the order pass has since overwritten; it keeps meaning, parameters in front, and the honesty of the order flags. |
| `Optimizer.SweepFunHonest` | src/optimizer/sweep.cpp:43-56 | The words of what is kept still justify its flags after renumbering, and a function's own word is unchanged. |
| `Optimizer.MergedPreserved` | src/optimizer/ssa.cpp:216-216 | Merging a program with honest order flags keeps every unchecked run and leaves parameters in front. |
| `Optimizer.InlinedPreserved` | src/optimizer/ssa.cpp:211-211 | Inlining under any policy keeps every unchecked run with applications for claims or with plain claims; and every run, if the text before or after it shows as much; parameters stay in front. |
| `Optimizer.PreservedTrans` | src/optimizer/ssa.cpp:206-224 | Meaning preserved twice over is meaning preserved: what lets the passes be chained. |
| `Optimizer.PlainRun` | src/optimizer/ssa.cpp:206-224 | A run of the program whose claims are plain is matched on the runtime by a run of any result that keeps such runs and has no destructure with one handler. |
| `Optimizer.PlainTextPreserved` | src/optimizer/ssa.cpp:206-224 | A program whose text shows its claims to be plain loses no run. |
| `Optimizer.LooseRun` | src/optimizer/ssa.cpp:206-224 | Whenever the program ends, the result with applications for claims ends alike; and whenever the result ends on the runtime, it ends like the program. |
| `Optimizer.FitResultPreserved` | src/optimizer/ssa.cpp:206-224 | A program loses no run if every handler and target body in the result is a function of one parameter, written in sight. |
| `Claims.ProgramAgrees` | src/runtime/runtime.h:67-69 | What the text of a program says of the functions it claims carries its runs from one machine to another: applications become claims, or plain claims, and plain claims become claims. |
| `Yields.FunKeeps` | src/runtime/runtime.cpp:355-406 | A function yields data after as many arguments as its text says, its calls followed and recursion included. |
| `MatchExample.MatchQualifies` | src/dst/bind.cpp:547-552 | The match of a Boolean, its arms called by its handlers as the front end builds them, shows its claims to be plain. |
| `MatchExample.MatchFits` | src/dst/bind.cpp:465-543 | The handlers of that match are functions of one parameter in sight. |
| `MatchExample.RunnerQualifies` | src/dst/todst.cpp:767-800 | So does a program that takes a record apart to get at a function in it. |
| `TargetExample.RunsBefore` | src/dst/todst.cpp:903-914 | A target that returns a function, applied to both arguments, gives the second one before inlining. |
| `TargetExample.StuckAfter` | src/optimizer/inline.cpp:258-279 | After inlining under any policy no run of that program ends on the runtime: the merged target body waits for a parameter no one fills. |
| `Purity.PassPurity` | src/optimizer/purity.cpp:98-107 | The pass ends; its result is the same code, one more visit would change nothing, the other pass's flags are untouched, and no words that bear themselves out promise more than those it ends with. |
| `Innocence.InnocentUnflagged` | src/optimizer/purity.cpp:47-107 | In such a result no quiet operation is flagged, as told by counting calls in the text: no pure primitive, no call of a function in sight that holds only quiet terms, recursive ones included, no destructure whose handlers do; and a primitive is flagged exactly if its kind says so. |
| `Purity.PassPreserves` | src/optimizer/purity.cpp:98-107 | Every run of the program is a run of the flagged one in which each flag is honoured: an unflagged term leaves the history alone (effect) or does not depend on it either (order). |
| `Purity.ProgramSound` | src/optimizer/purity.cpp:33-107 | A run of an honestly flagged program that insists on its flags is the run that does not: no unflagged term ever does what its flag denies. |
| `Purity.FunSound` | src/optimizer/purity.cpp:79-96 | A closure keeps, call by call, what its function's word promises, recursion included. |
| `Purity.OpSound` | src/optimizer/purity.cpp:47-77 | The word computed for an operation from its operands' words is kept by every evaluation of it. |
| `Purity.TermSound` | src/optimizer/purity.cpp:35-96 | Evaluating an honestly flagged term honours its flag and keeps its word. |
| `Purity.BodySound` | src/optimizer/purity.cpp:84-91 | A stretch of a body, run with the words of what precedes it, keeps the words computed for it. |
| `Purity.SettledHonest` | src/optimizer/purity.cpp:98-107 | A fixed point of the visits is honest by its own words. |
| `Purity.PurityMono` | src/optimizer/purity.cpp:35-96 | Smaller words in, smaller words out: why the visits from all-ones words descend to a fixed point. |
| `Purity.UnmovedSettles` | src/optimizer/purity.cpp:94-105 | A visit in which no function's word moved has reached the fixed point, flags included. |
| `Purity.VisitKeepsOther` | src/optimizer/purity.cpp:35-96 | A visit for effects leaves the order flags alone, and the other way round. |
| `Purity.PurityPass.Visit` | src/optimizer/purity.cpp:35-77 | In place: a visit computes the specified flags and word, and notes whether any function's word moved. |
| `Purity.PurityPass.VisitFun` | src/optimizer/purity.cpp:79-96 | In place: a function's body under its own assumed word, and the word that results. |
| `Purity.PurityPass.VisitBody` | src/optimizer/purity.cpp:84-89 | In place: the terms in order, each seeing the words before it, and whether all are pure. |
| `UsageSweep.UsageSweepPreserves` | src/optimizer/sweep.cpp:43-64 | Every run that honours the effect flags is a run of the program without its dead terms, with the same history and a result that may stand for the original. |
| `UsageSweep.UsageSweepScoped` | src/optimizer/sweep.cpp:43-56 | No reference dangles: what is kept refers only to earlier kept terms. |
| `UsageSweep.UsageCloses` | src/optimizer/usage.cpp:50-74 | After counting, nothing live refers to anything dead, and parameters and effects are live. |
| `LiveTerms.UsageExact` | src/optimizer/usage.cpp:50-74 | A term is marked live exactly if it has an effect, is the result, or a live term after it refers to it; and marked as used once exactly if there is one such reference, counted at every depth. |
| `LiveTerms.NothingDead` | src/optimizer/sweep.cpp:43-64 | After usage and sweep every term at every depth is live. |
| `UsageSweep.SweepFunRelated` | src/optimizer/sweep.cpp:43-56 | The swept function may stand for the source function in any surroundings whose live values correspond. |
| `UsageSweep.UsagePass.PassBody` | src/optimizer/usage.cpp:50-65 | In place, last term to first: the counts and marks specified. |
| `UsageSweep.UsagePass.PassRedux` | src/optimizer/usage.cpp:28-30 | In place: one more reference for every argument. |
| `UsageSweep.UsagePass.PassTerm` | src/optimizer/usage.cpp:32-65 | In place: what one live term adds to the counts. |
| `UsageSweep.PassUsage` | src/optimizer/usage.cpp:67-74 | The whole usage pass, the program itself counted as used. |
| `UsageSweep.SweepFun` | src/optimizer/sweep.cpp:43-56 | In place: the body goes through the stream and comes back as the swept function, the stream as it was. |
| `UsageSweep.SweepOne` | src/optimizer/sweep.cpp:45-53 | In place: a live term is transferred with its references renumbered, a dead one is dropped. |
| `UsageSweep.PassSweep` | src/optimizer/sweep.cpp:58-64 | The whole sweep. |
| `TermStreams.TermStream.Transfer` | src/optimizer/ssa.h:394-398 | The next source index maps to the new end of the target scope. |
| `TermStreams.TermStream.End` | src/optimizer/ssa.h:415-418 | Returns what was appended since the checkpoint and forgets it. |
| `Cse.CsePreserves` | src/optimizer/cse.cpp:172-178 | Every run that honours the order flags is a run of the program with equal terms merged, with the same history and a result that may stand for the original. |
| `MergedOnce.NothingTwice` | src/optimizer/cse.cpp:75-84 | In the result no term that is not ordered has the key of an earlier term in its body or an enclosing one, if ordered and other terms in sight of each other share no key. |
| `MergedOnce.PureNothingTwice` | src/optimizer/cse.cpp:75-84 | So for every program without ordered terms. |
| `MergedOnce.KeysFromAlike` | src/optimizer/cse.cpp:46-170 | Terms that are the same code up to where they sit have the same key, at any nesting: the converse of Cse.AlikeFromKeys. |
| `Cse.AlikeFromKeys` | src/optimizer/cse.cpp:46-170 | Terms with equal keys are the same code up to where it sits, at any nesting. |
| `Cse.RewriteKey` | src/optimizer/cse.cpp:54-170 | The key the pass computes while rewriting is the key of the term it emits. |
| `Cse.MergedOp` | src/optimizer/cse.cpp:75-84 | An operation without order gives now what it gave before, so the earlier value may stand for it. |
| `Cse.MergedFun` | src/optimizer/cse.cpp:128-170 | The closure of an earlier function with the same key may stand for this one's. |
| `Cse.RewriteTable` | src/optimizer/cse.cpp:155-158 | Whatever a function added to the table is gone when it ends. |
| `Cse.CseFunRelated` | src/optimizer/cse.cpp:128-170 | The reduced function may stand for the source function. |
| `Cse.HashArg` | src/optimizer/cse.cpp:46-52 | Depth and offset name the index, in the innermost frame that starts at or before it. |
| `Cse.CseState.Reduce` | src/optimizer/cse.cpp:75-84 | In place: the term is kept and remembered, or dropped in favour of an earlier one. |
| `Cse.CseState.PassTerm` | src/optimizer/cse.cpp:88-126 | In place: one term of a body. |
| `Cse.CseState.PassFun` | src/optimizer/cse.cpp:128-170 | In place: the body is streamed in its own frame and popped, and its keys are erased. |
| `Cse.CseState.PassBody` | src/optimizer/cse.cpp:141-144 | In place: the terms of a body, one after the other. |
| `Cse.RunCse` | src/optimizer/cse.cpp:172-178 | The whole pass. |
| `Inline.InlinePreserves` | src/optimizer/inline.cpp:296-305 | Whatever the policy inlines, every run of the program, with applications for claims or with plain claims, is such a run of the inlined one, with the same history; a result that is plain data is equal. |
| `Inline.InlineFormed` | src/optimizer/inline.cpp:254-294 | The result has parameters in front everywhere, the arity of the merged curried functions, and no destructure with one handler. |
| `Simplified.ResultSimple` | src/optimizer/inline.cpp:74-252 | In the result no destructure takes apart, and no field is taken from, a constructor in sight; a call that completes the arguments of a function in sight names that function; and no literal is in sight of an equal one. |
| `Simplified.CallVanishes` | src/optimizer/inline.cpp:123-147 | Where the policy says so, a call of a function that only hands on what it is given leaves no code and becomes what is handed on. |
| `Simplified.InPlace` | src/optimizer/inline.cpp:123-147 | Where the policy says so, a call with all arguments is replaced by the callee's body. |
| `Simplified.CurriedMerges` | src/optimizer/inline.cpp:258-279 | A function of nothing but parameters and a function it returns takes that one's parameters too, unless that one calls itself. |
| `Simplified.OthersStay` | src/optimizer/inline.cpp:258-279 | Any other function keeps the parameters it has. |
| `Inline.ChainFlattens` | src/optimizer/inline.cpp:101-119 | Gathering a chain of partial applications and applying its function at once does what the chain did. |
| `Inline.AppFollows` | src/optimizer/inline.cpp:101-175 | What an application does, the terms emitted for it do: flattened, inlined, or left alone. |
| `Inline.CallFollows` | src/optimizer/inline.cpp:123-147 | The body emitted in place of a call does what the call did. |
| `Inline.GetFollows` | src/optimizer/inline.cpp:188-198 | A field of a constructor in sight is the term it was built from. |
| `Inline.ReduxFollows` | src/optimizer/inline.cpp:177-252 | Every kind of operation, as rewritten, does what it did. |
| `Inline.TermFollows` | src/optimizer/inline.cpp:68-294 | What any term does, the terms emitted for it do. |
| `Inline.BodyFollows` | src/optimizer/inline.cpp:281-284 | What a body does, the terms emitted for it do. |
| `Inline.StageRelated` | src/optimizer/inline.cpp:258-279 | A function merged with the functions it only returns behaves as the curried chain did, however its arguments arrive by application, and by claim wherever the claim of the chain was plain. |
| `Inline.ClaimKeptIff` | src/optimizer/inline.cpp:258-279 | What a call of a one-parameter function did, by application or by plain claim, the same call of the emitted function does. It is still fit for claim_apply exactly if its body is more than a function it returns; a curried one runs on every claim before the pass and on none after it. |
| `Inline.FunRelated` | src/optimizer/inline.cpp:254-294 | The rewritten function may stand for the source function, in applications and in plain claims. |
| `Inline.InlineState.VisitLit` | src/optimizer/inline.cpp:74-99 | In place: a literal is shared with an earlier one in scope, or kept and remembered. |
| `Inline.InlineState.Gather` | src/optimizer/inline.cpp:104-119 | In place: the function behind a chain and its arguments, last first. |
| `Inline.InlineState.VisitApp` | src/optimizer/inline.cpp:101-175 | In place: rapp_inline. |
| `Inline.InlineState.CallInPlace` | src/optimizer/inline.cpp:134-147 | In place: the callee's body is emitted over its own prefix of the scope, parameters bound to the arguments. |
| `Inline.InlineState.VisitRedux` | src/optimizer/inline.cpp:177-252 | In place: every kind of operation, a destructure as a call of its known handler or as it was. |
| `Inline.InlineState.Handled` | src/optimizer/inline.cpp:203-213 | In place: whether a destructure is known to call one handler, and which. |
| `Inline.InlineState.VisitFun` | src/optimizer/inline.cpp:254-294 | In place: the function's curried parameters and body are streamed and popped. |
| `Inline.InlineState.VisitBody` | src/optimizer/inline.cpp:281-284 | In place: the terms of a body. |
| `Inline.PassInline` | src/optimizer/inline.cpp:296-305 | The whole pass. |
| `ScopePass.CodesDecide` | src/optimizer/scope.cpp:47-122 | Two functions, wherever they sit, get the same code exactly when they are the same up to what they capture. |
| `ScopePass.FunEscapes` | src/optimizer/scope.cpp:101-116 | The escape list is the outer references of the function and all it contains, each once. |
| `ScopePass.FunSync` | src/optimizer/scope.cpp:101-116 | Functions with the same codes agree, first capture to first capture. |
| `ScopePass.EscapesFollow` | src/optimizer/scope.cpp:47-67 | A renaming that takes one function to another takes its escapes to the other's, in order. |
| `ScopePass.ArgRoundTrip` | src/optimizer/ssa.h:115-117 | Packing depth and offset in a word loses nothing exactly when the depth fits sixteen bits. |
| `ScopePass.PassScope.Walk` | src/optimizer/scope.cpp:53-59 | In place: frames out to the one holding an index, and the place in it. |
| `ScopePass.PassScope.Escape` | src/optimizer/scope.cpp:49-52 | In place: the position of an outer reference among the escapes, added if new. |
| `ScopePass.PassScope.Ref` | src/optimizer/scope.cpp:47-67 | In place: scope_arg. |
| `ScopePass.PassScope.VisitFun` | src/optimizer/scope.cpp:101-116 | In place: the function in its own frame, then its place in this one. |
| `ScopePass.ScopeProgram` | src/optimizer/scope.cpp:118-122 | The whole pass: every reference becomes depth and offset. |
| `Placement.ProgramReads` | src/optimizer/scope.cpp:47-122 | What the pass makes of a program can be read back, reference by reference at every depth, as long as frames are not nested deeper than a word can say. |
| `Frames.SplitFinds` | src/runtime/runtime.cpp:355-406 | Whatever lots a function's arguments come in, every reference of its body, by depth and offset, finds what the flat index names. |
| `Frames.BodyFinds` | src/runtime/runtime.cpp:167-170 | So does every reference once some terms of the body have run. |
| `Frames.BodyHolds` | src/runtime/runtime.cpp:117-165 | Running a body term by term keeps the frame in step with the environment. |
| `Frames.WalkFinds` | src/runtime/runtime.cpp:167-170 | The walk finds the binding the flat index named; only the program itself is not to be found. |
| `Frames.AnySplit` | src/runtime/runtime.cpp:355-406 | However arguments are split into lots, the call gets the frame a single application of all of them builds. |
| `Frames.Apply` | src/runtime/runtime.cpp:355-406 | CApp::doit: a call's frame when the arguments are complete, a longer closure otherwise. |
| `Frames.Skip` | src/runtime/runtime.cpp:367-369 | The scope under the partially applied arguments. |
| `Frames.Forward` | src/runtime/runtime.cpp:376-384 | The partially applied arguments go to the front of the new frame, first applied first; the rest is left alone. |
| `Frames.Arg` | src/runtime/runtime.cpp:167-170 | The walk over enclosing frames. |
| `Frames.EmptyLotHides` | src/runtime/runtime.cpp:393-405 | An application to no arguments keeps the captured scope in reach exactly if it never happens. |
| `Frames.ClaimApplyIs` | src/runtime/runtime.cpp:425-430 | claim_apply does what an application to one argument does exactly for a one-parameter function that has no argument yet. |
| `Frames.ClaimLeavesHole` | src/runtime/runtime.h:67-69 | A function of two parameters that is claimed gets a frame whose second slot is empty. |
| `Frames.Explore` | src/runtime/prim.cpp:102-116 | explore_escape visits the arguments so far, last first, then the captures. |
| `Frames.EscapesFound` | src/runtime/prim.cpp:110-114 | The captures explored are the values of the escapes, whatever has been applied since. |
| `Collector.Evacuate` | src/runtime/gc.cpp:250-286 | The move phase: everything reachable is copied once into consecutive pads, with isomorphic graph and redirected roots, and nothing else; the copy fits where the original was. |
| `Collector.CopyDone` | src/runtime/gc.cpp:250-286 | A finished scan makes the roots and the copy isomorphic to what was reachable. |
| `Collector.AllLiveMoved` | src/runtime/gc.cpp:266-286 | When the scan meets the free pointer, every reachable object has been moved. |
| `Collector.CopyTidy` | src/runtime/gc.cpp:266-286 | The copy is objects one after the other, each pointer at the start of one. |
| `Collector.TotalFits` | src/runtime/gc.cpp:239-247 | However many objects are moved, they fit in the pads they came from. |
| `Collector.ForwardInjective` | src/runtime/gc.h:401-416 | Different objects have different copies: sharing is kept and none is made. |
| `Collector.MoveTo` | src/runtime/gc.h:200-205 | Where the object a pointer names is now, moved if it had not been. |
| `Collector.CopyObject` | src/runtime/gc.h:401-416 | An object not yet moved is copied to the free pad and leaves a forwarding header. |
| `Collector.Descend` | src/runtime/gc.h:418-422 | The pointers of one copied object are redirected. |
| `Collector.MoveRoots` | src/runtime/gc.cpp:253-259 | Every root is moved and redirected. |
| `Collector.Scan` | src/runtime/gc.cpp:266-286 | The loop that descends into each copied object until it meets the free pointer. |
| `Heap.EnoughIff` | src/runtime/gc.cpp:153-160 | After a collection there is room for the request that caused it exactly if the heap factor is at least one or nothing survived. |
| `Heap.DesiredIs` | src/runtime/gc.cpp:153-160 | The desired size is the most that neither the linear nor the square-root rule exceeds, and the request. |
| `Heap.ElementsIs` | src/runtime/gc.cpp:237-240 | The next space is the smallest that holds all there is with the request, and that the rules desire for what survived last time. |
| `Heap.EndBeforeFree` | src/runtime/gc.cpp:306-317 | A collection asked for nothing, with a factor below one and a survivor, puts the end before the first free pad. |
| `Heap.HalfFactor` | src/runtime/config.cpp:287-291 | The factor 0.5 that .wakeroot accepts does so with two pads alive. |
| `Heap.Heap.Reserve` | src/runtime/gc.h:289-294 | A request is let on exactly if it fits, or if the end is before the free pointer and the wrapped difference is large enough. |
| `Heap.Heap.GC` | src/runtime/gc.cpp:226-317 | A whole collection: the heap is valid, what is reachable is the same graph, the dead finalizers are destroyed, the spaces change places and have the sizes the rules say; the request fits exactly if the factor is at least one or nothing is alive. |
| `Heap.Heap.Retry` | src/runtime/runtime.cpp:487-506 | Work turned away for want of memory causes one collection and then finds its room exactly if the factor is at least one or nothing is alive. |
| `Heap.Heap.Construct` | src/runtime/gc.cpp:403-403 | A new object after the others; a destroyable one heads the finalizer list; everything else unchanged. |
| `Heap.Heap.Settle` | src/runtime/gc.cpp:306-317 | The spaces change places, and the end is pulled in to the desired size. |
| `Heap.Finalize` | src/runtime/gc.cpp:288-307 | Survivors are relinked in the copy, the dead are collected for destruction. |
| `Heap.DeadOnce` | src/runtime/gc.cpp:291-305 | Every dead finalizer is destroyed, once, and no live one is. |
| `Heap.KeptAll` | src/runtime/gc.cpp:292-300 | Every live finalizer is on the new list. |
| `Heap.RelinkedSame` | src/runtime/gc.cpp:292-300 | Relinking finalizers leaves the graph isomorphic. |
| `Heap.Space.Resize` | src/runtime/gc.cpp:112-120 | Memory is kept exactly if it is at least what is needed and at most three times that; otherwise it is replaced by half as much again as is needed. |
| `Heap.CollectInto` | src/runtime/gc.cpp:250-307 | Move phase and finalizers together. |
| `SyntaxTree.ReadBack` | src/parser/cst.cpp:159-258 | What was built is what a walk by firstChildNode and nextSiblingNode finds: the last tree, its range widened to the file. |
| `SyntaxTree.ChildrenInOrder` | src/parser/cst.cpp:206-258 | The walk over child nodes visits exactly the children, in order, and is empty after the last. |
| `SyntaxTree.LayoutDecides` | src/parser/cst.cpp:40-116 | A post-order list of nodes is the layout of only one list of trees. |
| `SyntaxTree.Convert` | src/parser/cst.cpp:130-157 | The constructor: the last tree in pre-order, its own range widened; nothing if there is no tree. |
| `SyntaxTree.Reorder` | src/parser/cst.cpp:134-146 | The stack loop turns post-order into pre-order. |
| `SyntaxTree.PushKids` | src/parser/cst.cpp:141-143 | The inner loop stacks exactly the children, last first. |
| `SyntaxTree.TilesIffInOrder` | src/parser/cst.cpp:196-237 | A walk over child elements covers the node's text exactly once if and only if the children are in order. |
| `SyntaxTree.WidenedInOrder` | src/parser/cst.cpp:59-110 | Children in order stay in order inside the widened range a node gets. |
| `SyntaxTree.PassesAll` | src/parser/cst.cpp:196-204 | Whatever the ranges, the walk over elements passes every child once, in order. |
| `SyntaxTree.ElementStep` | src/parser/cst.cpp:169-204 | One step of that walk, and when it is over. |
| `SyntaxTree.Builder.AddLeaf` | src/parser/cst.cpp:40-44 | A leaf is one more tree. |
| `SyntaxTree.Builder.AddNode` | src/parser/cst.cpp:46-57 | The last trees become the children of a new one spanning them. |
| `SyntaxTree.Builder.AddNodeFrom` | src/parser/cst.cpp:59-73 | The same, begun no later than a given token. |
| `SyntaxTree.Builder.AddNodeTo` | src/parser/cst.cpp:75-89 | The same, ended no earlier than a given token. |
| `SyntaxTree.Builder.AddNodeBetween` | src/parser/cst.cpp:91-110 | The same, between two tokens. |
| `SyntaxTree.Builder.DelNodes` | src/parser/cst.cpp:112-116 | The last trees are removed, whole. |
| `SyntaxTree.Builder.Span` | src/parser/cst.cpp:50-54 | The loop that finds how many nodes the children are and where the first begins. |
| `SyntaxTree.Cursor.NextNode` | src/parser/cst.cpp:206-221 | In place: the next sibling node. |
| `SyntaxTree.Cursor.NextElement` | src/parser/cst.cpp:196-204 | In place: the next sibling element. |
| `SyntaxTree.ChildNodes` | src/parser/cst.cpp:206-258 | The loop over child nodes finds one position for each child, in order. |
| `SyntaxTree.ChildElements` | src/parser/cst.cpp:196-237 | The loop over child elements finds one for each piece, covering the same text. |
| `Layering.Fracture` | src/dst/bind.cpp:199-243 | Levels are the least that respect every use; every cycle reported contains a value and has no right levels, and is wiped out; the loop ends. |
| `Layering.Relax` | src/dst/bind.cpp:207-243 | The queue loop ends with least levels, or at a definition whose level reached the number of definitions. |
| `Layering.RelaxEdges` | src/dst/bind.cpp:235-242 | One definition pushes up what it uses. |
| `Layering.ExtractCycle` | src/dst/bind.cpp:219-233 | The cycle found from such a definition is illegal, and exactly it is wiped out. |
| `Layering.FollowBack` | src/dst/bind.cpp:220-222 | As many steps back as there are definitions end inside the cycle. |
| `Layering.WipeCycle` | src/dst/bind.cpp:223-232 | Once round the cycle, each definition wiped. |
| `Layering.IllegalUnsolvable` | src/dst/bind.cpp:202-205 | No levels are right for a cycle of uses through a value. |
| `Layering.CycleReached` | src/dst/bind.cpp:219-222 | A level that high means a cycle of predecessors, and the walk is on it. |
| `Layering.CycleHasValue` | src/dst/bind.cpp:224-232 | A cycle of predecessors contains a value, so what is reported is illegal. |
| `Layering.RaiseLeast` | src/dst/bind.cpp:236-241 | Raising a level keeps every level a lower bound of any right assignment. |
| `Components.FractureBinding` | src/dst/bind.cpp:199-278 | Least levels, and for each level, innermost first, its values and its functions in groups, and whether grouping them met a definition without an expression. |
| `Components.GroupLevel` | src/dst/bind.cpp:265-273 | Exactly the functions of a level, in contiguous groups that are its strongly connected components, each after what it uses; and the search looks into a definition that has no expression exactly if a function before it on the level reaches it. |
| `Components.GroupNext` | src/dst/bind.cpp:271-273 | One turn of the loop over the level: a function not yet visited is visited. |
| `Components.NotedVisit` | src/dst/bind.cpp:82-92 | A visit meets a definition without an expression exactly if its function, or an earlier one, reaches one still to come. |
| `Components.ReportThenStumble` | src/dst/bind.cpp:219-243 | For a function before a value defined as itself: whatever the report, the wiped value is on the function's level and is met by its visit. |
| `Components.GroupsAreComponents` | src/dst/bind.cpp:72-110 | Two functions are in one group exactly when each reaches the other. |
| `Components.NoLater` | src/dst/bind.cpp:72-110 | What a function reaches is in its group or an earlier one. |
| `Components.SCCState.Visit` | src/dst/bind.cpp:72-110 | In place: a visit leaves its function on the stack or in its finished group, with the lowlink invariant. |
| `Components.SCCState.Follow` | src/dst/bind.cpp:82-92 | In place: one edge. |
| `Components.SCCState.Pop` | src/dst/bind.cpp:94-109 | In place: what is popped is one group. |
| `Components.EndsAsGroup` | src/dst/bind.cpp:94-109 | When the lowlink is the visit's own index, what is above it on the stack is a component. |
| `Components.EndsOnStack` | src/dst/bind.cpp:94-109 | Otherwise it stays, and reaches something older. |
| `Components.BindLevel` | src/dst/bind.cpp:249-275 | The binding of one level: its values and its grouped functions. |
| `Components.ValuesAt` | src/dst/bind.cpp:252-264 | Exactly the values of the level. |
| `Patterns.CompileSelects` | src/dst/bind.cpp:447-590 | For every value of the right type and all outcomes of the guards the compiled tree does what trying the patterns in order does. |
| `Patterns.MissingIsMissed` | src/dst/bind.cpp:461-462 | If a shape is reported missing, no value of that shape matches an unguarded pattern. |
| `Patterns.UnusedNeverSelected` | src/dst/bind.cpp:545-546 | A pattern with no uses is never selected, a prototype with none never fallen through to. |
| `Patterns.BucketSelects` | src/dst/bind.cpp:489-516 | Looking only at the bucket of the value's constructor changes nothing. |
| `Patterns.BucketLighter` | src/dst/bind.cpp:477-518 | A bucket leaves less to do: the compilation ends. |
| `Patterns.FillBinds` | src/dst/bind.cpp:409-417 | Once the prototype has the pattern's detail, the pattern matches and is handed its variables' values. |
| `Patterns.RebuildIs` | src/dst/bind.cpp:424-436 | build_identity rebuilds the scrutinee. |
| `Patterns.MissingRefines` | src/dst/bind.cpp:461-462 | The shape reported missing has the prototype's detail. |
| `Patterns.UsesOnlyListed` | src/dst/bind.cpp:545-558 | Only listed patterns are used. |
| `PatternExpand.MatchSelects` | src/dst/bind.cpp:646-740 | A compiled match hands the first pattern in source order that matches with a true guard its variables' values; otherwise identity, else branch, or a reported gap. |
| `PatternExpand.UnusedIsDead` | src/dst/bind.cpp:732-737 | A pattern that is reported as impossible never matches first. |
| `PatternTypes.ReachedIff` | src/dst/bind.cpp:732-740 | Over inhabited types a pattern is reported impossible exactly if no arguments of the right types and no guards get to it. |
| `PatternTypes.IncompleteIff` | src/dst/bind.cpp:461-462 | Over inhabited types a match is reported incomplete exactly if some arguments of the right types match no unguarded pattern; no type clash is met. |
| `PatternTypes.MissingHasValue` | src/dst/bind.cpp:461-462 | The shape reported missing has a value of the right type that no unguarded pattern matches. |
| `PatternTypes.UsedIsSelected` | src/dst/bind.cpp:545-558 | A pattern with a use is selected for some value of the right type and some guards; a prototype with one is fallen through to. |
| `PatternExpand.CompileMatch` | src/dst/bind.cpp:730-740 | Compile, then report patterns no value can reach. |
| `PatternExpand.Expand` | src/dst/bind.cpp:447-590 | In place: the tree is the compiled one and the list comes back as it was, its use counts raised. |
| `PatternExpand.ExpandCase` | src/dst/bind.cpp:477-541 | In place: the list is split, its bucket compiled, and put together again. |
| `PatternExpand.ExpandSwitch` | src/dst/bind.cpp:465-543 | In place: one case for every constructor. |
| `PatternExpand.ExpandNext` | src/dst/bind.cpp:477-541 | In place: one more case, or the first failure. |
| `PatternExpand.ExpandLeaf` | src/dst/bind.cpp:544-589 | In place: the first pattern is used here, unless its guard says no. |
| `PatternExpand.FillBucket` | src/dst/bind.cpp:489-516 | In place: patterns of a constructor move to the bucket, those open there opened; a pattern of another type is the error. |
| `PatternExpand.Restore` | src/dst/bind.cpp:529-540 | In place: the bucket's patterns move back, last first, and close again. |
| `BuildDatabase.ClaimedJobLasts` | src/runtime/database.cpp:394-463 | In every history of any number of processes, a job claimed by a run is there for as long as the run is unfinished. |
| `BuildDatabase.ClaimedFileLasts` | src/runtime/database.cpp:472-476 | So is a claimed file row. |
| `DatabaseEffects.ReuseClaims` | src/runtime/database.cpp:1252-1305 | Reusing a job that is there claims it and those of its outputs that are on record, and nothing else. |
| `DatabaseEffects.ReusedLasts` | src/runtime/database.cpp:1252-1305 | In every history, from a reuse until its run ends, the job and the outputs it had are there and claimed. |
| `DatabaseEffects.InsertClaims` | src/runtime/database.cpp:1336-1399 | Inserting a job gives it a number never seen before, its claim, and its visible files, and nothing else. |
| `DatabaseEffects.InsertedLasts` | src/runtime/database.cpp:1336-1399 | In every history the job is there and claimed until its run ends. |
| `DatabaseEffects.AddClaims` | src/runtime/database.cpp:1723-1752 | Adding a file claims its row, and nothing else. |
| `DatabaseEffects.AddedLasts` | src/runtime/database.cpp:1723-1752 | In every history the row is there and claimed until its run ends. |
| `DatabaseEffects.FinishEffect` | src/runtime/database.cpp:1401-1535 | After a job finishes, exactly the jobs of its key or with an output at one of its paths are gone that no run above the watermark claims, with their claims and files; what it read and wrote is on record. |
| `DatabaseEffects.CleanEffect` | src/runtime/database.cpp:983-1006 | After a clean, exactly the jobs are gone that are not kept, have no output and no claim above the watermark; and exactly the deleted rows that no run claims and no remaining job mentions. |
| `DatabaseEffects.ClearEffect` | src/runtime/database.cpp:1563-1597 | Clearing does nothing while a run is unfinished, and leaves no job, claim or file otherwise. |
| `DatabaseEffects.PruneEffect` | src/runtime/database.cpp:1599-1640 | Pruning does nothing while a run is unfinished; otherwise exactly the jobs go that mention a deleted row or a file gone from the workspace. |
| `DatabaseEffects.HistoryReferenced` | src/runtime/database.cpp:240-345 | In every state of every history no row of run_jobs or filetree points at nothing, and job numbers are new. |
| `DatabaseEffects.PrepareEffect` | src/runtime/database.cpp:886-903 | A run begins with a number of its own, live, and claiming nothing. |
| `DatabaseEffects.FinishRunEffect` | src/runtime/database.cpp:921-937 | Ending a run records the time and drops the files it claims, and touches no other run. |
| `DatabaseEffects.WatermarkEffect` | src/runtime/database.cpp:908-918 | Right after it is computed, what lies below the watermark is exactly what no run from the first unfinished one on claims. |
| `DatabaseEffects.ProbeEffect` | src/runtime/run_lock.cpp:133-176 | A run is taken for dead exactly if its lock file is there and its lock is free, or both are gone and it began more than a day before the question. |
| `DatabaseEffects.DeadRunReaped` | src/runtime/database.cpp:939-981 | A run whose process has gone and left its lock file is marked dead, its files unclaimed, by whoever asks, probes and reaps; no other run is. |
| `BuildDatabase.LiveIsUnfinished` | src/runtime/database.cpp:939-981 | In every history a run is unfinished, its lock held and its lock file present, as long as its process lives and has not ended it. |
| `BuildDatabase.HistoryInv` | src/runtime/database.cpp:886-981 | In every state of every history the invariants hold, among them at most one row in use per path. |
| `BuildDatabase.StepInv` | src/runtime/database.cpp:886-1006 | Whatever a process does next, the invariants hold after it. |
| `BuildDatabase.LiveRunSafe` | src/runtime/database.cpp:968-980 | No step but its own end finishes a live run. |
| `BuildDatabase.ClaimedJobSafe` | src/runtime/database.cpp:436-463 | No step deletes a job that an unfinished run claims. |
| `BuildDatabase.ClaimedFileSafe` | src/runtime/database.cpp:472-476 | No step deletes a row that an unfinished run claims. |
| `BuildDatabase.RemoveBlobsSpares` | src/runtime/database.cpp:2107-2393 | Removing outputs leaves in use every row in use that another unfinished run claims. |
| `BuildDatabase.RemovedBlobDead` | src/runtime/database.cpp:2107-2393 | A blob that is removed belongs to no row in use afterwards, and to no other unfinished run's claim. |
| `BlobRemoval.RemovedIff` | src/runtime/database.cpp:2107-2393 | A row goes out of use exactly if it is given up, and some plain file is: in use, not excluded, claimed by no other unfinished run, and named or below a named directory that is likewise; told from the rows, for names without wildcards. |
| `BlobRemoval.BlobsIff` | src/runtime/database.cpp:2264-2320 | A blob goes exactly if some row in use has it, all that do are plain files given up, and no other run claims one that has it. |
| `BlobRemoval.ExcludedSpared` | src/runtime/database.cpp:2168-2169 | Whatever the names, a row in use whose path is excluded stays in use. |
| `BlobRemoval.ExcludedBlobStays` | src/runtime/database.cpp:2264-2320 | And a blob that only such rows have stays. |
| `BlobRemoval.NamedGone` | src/runtime/database.cpp:2160-2185 | A plain file asked for by name goes, unless something guards it. |
| `BlobRemoval.BelowGone` | src/runtime/database.cpp:2194-2257 | So does all that lies below a directory asked for, with the directory, if there is a plain file to take. |
| `BlobRemoval.LiteralFinds` | src/runtime/database.cpp:2202-2202 | A directory without wildcards in its name finds what lies below it, in either case of letters, and nothing else. |
| `BlobRemoval.OnlyBelowIff` | src/runtime/database.cpp:2189-2202 | Nothing but what lies below a directory is found exactly if its name has no wildcard and no letter. |
| `BlobRemoval.WildcardTakes` | src/runtime/database.cpp:2202-2202 | Removing the directory a_b takes the file axb/c along. |
| `BuildDatabase.OthersRemoveNone` | src/runtime/database.cpp:2107-2393 | No other run's removal displaces a claimed row in use. |
| `BuildDatabase.ClaimedRowInUse` | src/runtime/database.cpp:410-411 | A claimed row in use stays in use exactly as long as no step displaces it. |
| `BuildDatabase.InUseAfter` | src/runtime/database.cpp:1723-1752 | Which rows are in use after any step of any process, told from the state before it. |
| `BuildDatabase.ReclaimedInUse` | src/runtime/database.cpp:1272-1300 | After a reuse a row is in use exactly if it is the last one reused for its path, or was in use and none was. |
| `BuildDatabase.HashInUse` | src/runtime/database.cpp:2817-2849 | After any step a hash is spared exactly if a row with it, chosen from the state before the step, will be in use. |
| `BuildDatabase.ClaimedBlobSpared` | src/runtime/database.cpp:2817-2849 | Garbage collection spares a claimed blob at any later time, as long as nothing displaced its row since it was in use. |
| `BuildDatabase.ClaimedBlobSparedIff` | src/runtime/database.cpp:555-576 | After any step the blob of a claimed row in use is spared exactly if, by the state before it, the step does not displace the row or a row with the same content will be in use. |
| `BuildDatabase.ClaimedBlobLost` | tools/wake/main.cpp:521-541 | The history in which a blob that an unfinished run claims is collected. |
| `BuildDatabase.ReapWrites` | src/runtime/database.cpp:968-980 | In every history, reaping changes the row of an ended run exactly when the process took it for dead and its end is a time. |
| `BuildDatabase.LateObituary` | src/runtime/database.cpp:939-981 | Such a run was unfinished at that process's last query and ended by itself in between. |
| `BuildDatabase.ReapOverwrites` | src/runtime/database.cpp:956-980 | A history with the clock in order in which a day-old run that ended properly has its end time overwritten. |
| `BuildDatabase.ReapOverwritesYoung` | src/runtime/database.cpp:921-937 | The same for a run of any age whose process goes away before removing its lock file. |
| `BuildDatabase.AskedBefore` | src/runtime/database.cpp:942-954 | What a process takes for unfinished it found unfinished when it last asked. |
| `BuildDatabase.Store.PrepareRun` | src/runtime/database.cpp:886-903 | In place: a new run with its lock taken in the same transaction. |
| `BuildDatabase.Store.QueryIncomplete` | src/runtime/database.cpp:942-954 | In place: the other unfinished runs, row by row. |
| `BuildDatabase.Store.ProbeLock` | src/runtime/run_lock.cpp:133-176 | In place: whether a run is taken for dead, from its lock file, its lock and its age. |
| `BuildDatabase.Store.ReapDead` | src/runtime/database.cpp:968-980 | In place: dead runs are marked and their file claims cleared. |
| `BuildDatabase.Store.ComputeWatermark` | src/runtime/database.cpp:908-918 | In place: one less than the smallest unfinished run. |
| `BuildDatabase.Store.AddFile` | src/runtime/database.cpp:1723-1752 | In place: insert or revive the row, claim it, and mark the path's other rows unless it was in use all along. |
| `BuildDatabase.Store.Reuse` | src/runtime/database.cpp:1252-1305 | In place: the claiming transaction, output by output, or nothing if the job is gone. |
| `BuildDatabase.Store.Choose` | src/runtime/database.cpp:2107-2262 | In place: which rows to take, plain files and directories. |
| `BuildDatabase.Store.Remove` | src/runtime/database.cpp:2107-2393 | In place: what to take, the blobs left without a user, the marks. |
| `BuildDatabase.Store.CollectBlobs` | src/runtime/database.cpp:2817-2849 | In place: the hashes on disk that no row in use has. |

## Findings

Properties one would expect of the source, or that its comments state, and that it does not have. Each has a concrete
input and the condition under which it does hold: exact except where the entry says otherwise.

- `TargetExample.RunsBefore`, `TargetExample.StuckAfter`, with `Inline.ClaimKeptIff`, `Frames.ClaimApplyIs` and
  `Frames.ClaimLeavesHole` (src/optimizer/inline.cpp:258-279, src/runtime/runtime.cpp:254-271 and 425-430,
  src/runtime/target.cpp:241-244): the inliner merges a function with the function it only returns, without regard to
  who calls it. Handlers and target bodies are called by `claim_apply`, which ignores arguments already applied and the
  number of parameters, agrees with an application exactly for a one-parameter function with no argument yet, and leaves
  the second slot of any other empty. So `target foo x = \y y` makes `foo 1 2` give 2 before inlining and wait for ever
  after it. One function survives the pass as a callee exactly if it is not curried. For whole programs: the result does
  what the program did or gets stuck so, and nothing else (`Optimizer.LooseRun`); it does what the program did in every
  run whose claims are plain (`Optimizer.PlainRun`), and in all runs if the program's text shows them plain
  (`Optimizer.PlainTextPreserved`) or the result's text claims only one-parameter functions
  (`Optimizer.FitResultPreserved`). These are sufficient only: a function that is not fit may never be claimed.
- `BuildDatabase.ClaimedBlobLost`, `BuildDatabase.ClaimedBlobSparedIff` (src/runtime/database.cpp:2817-2849,
  tools/wake/main.cpp:521-541): the comment on garbage collection says a blob claimed by a live run is never dead.
  The query asks only for a row in use. When two unfinished runs write different content to one path, the first still
  claims its row, the row is no longer in use, and its blob is collected. It is spared exactly if the step does not
  displace the row, or a row with the same content will be in use: for a new file, the file itself or a row of another
  path; for a reuse, the last row reused for its path or one of a path not reused; for a removal, a row of a path that
  is not marked.
- `BuildDatabase.ReapOverwrites`, `BuildDatabase.ReapOverwritesYoung`, with `BuildDatabase.ReapWrites` and
  `BuildDatabase.LateObituary` (src/runtime/database.cpp:939-981): a run that ends by itself between a reaper's query and
  its probe can have its end time replaced by the mark of a dead run. It happens exactly to runs the reaper took for dead
  whose end is a time, and each of them was unfinished at that reaper's last query and ended by itself in between.
- `BlobRemoval.WildcardTakes`, with `BlobRemoval.OnlyBelowIff` and `BlobRemoval.LiteralFinds`
  (src/runtime/database.cpp:2189-2202): removing a directory is said to take the files whose paths start with its path.
  The path is used as a pattern: `_` and `%` in it match other characters, and letters match in either case. Removing
  `a_b` takes `axb/c` along. Only what lies below a directory is found, whatever else there is, exactly if its name has
  neither wildcard nor letter; without wildcards, what is found lies below it up to the case of letters.
- `Components.ReportThenStumble`, with `Components.GroupLevel` (src/dst/bind.cpp:82-91): after an illegal cyclic value
  has been reported, or for any definition left without an expression, the grouping search dereferences the missing
  expression exactly if a function before it on the same level reaches it. `def b x = c` with `def c = c` is enough,
  since definitions come in the order of their names.
- `Heap.HalfFactor`, `Heap.EnoughIff`, `Heap.EndBeforeFree` (src/runtime/gc.cpp:153-160 and 306-317,
  src/runtime/gc.h:289-290): a collection makes room for the request that caused it exactly if the heap factor is at
  least one or nothing survived. `.wakeroot` accepts 0.5 (src/runtime/config.cpp:287-291). Below one, a collection asked
  for nothing leaves the end before the free pointer, and `reserve` then takes the wrapped difference for room.
- `ScopePass.ArgRoundTrip` (src/optimizer/ssa.h:115-117): depth and offset survive packing exactly if the depth is
  below 65536; a reference out of 65536 frames comes back as depth 0.

## Left out

- Inline.InlinePreserves: an inlined function is always copied. That one used only once is emptied instead
  (src/optimizer/inline.cpp:125-152) is not modelled; it is sound only because of the use count. Exact runs
  are covered by way of loose and plain ones.
- Inline.CallFollows: the copied callee only, as for Inline.InlinePreserves.
- Inline.AppFollows: the copied callee only, as for Inline.InlinePreserves.
- Inline.ReduxFollows: the composition of a destructure with the destructure it takes apart
  (src/optimizer/inline.cpp:215-243) is not modelled; it evaluates the inner one again and rests on its order flag.
- Inline.TermFollows: without that composition and the emptied callee.
- Inline.BodyFollows: without that composition and the emptied callee.
- Inline.FunRelated: without that composition and the emptied callee.
- Inline.StageRelated: claims that are not plain, except as applications: it is false of them where the function is
  curried.
- Inline.InlineState.VisitApp: the emptied callee.
- Inline.InlineState.CallInPlace: the emptied callee.
- Inline.InlineState.VisitRedux: the composition of destructures.
- Inline.PassInline: nesting of inlined calls is bounded by a `budget`; the theorems hold for every budget, but that the
  source's inliner ends is not shown. Sizes, thresholds and use counts are an arbitrary policy.
- Optimizer.InlinedPreserved: as Inline.InlinePreserves.
- Optimizer.Optimize: says nothing of programs whose run does not end or gets stuck. That a result does not get stuck
  where the program did not is shown for plain claims and for the two texts; a handler that hands on a function it was
  given does no harm either, and is covered by the text of the result only.
- Claims.ProgramAgrees: the body of a target counts as written in sight once the function around `tget` that the front
  end applies in place has been inlined.
- Yields.FunKeeps: fields, parameters and functions defined in a group of several are not followed.
- MergedOnce.NothingTwice: where an ordered term repeats the key of one in sight, the function around it takes that key
  out of the table when it ends (src/optimizer/cse.cpp:155-158), and a later equal term is kept.
- Innocence.InnocentUnflagged: calls that are quiet although an earlier call of the same function is not.
- Purity.PassPurity: functions of 31 or more parameters, for which the source shifts an `int` too far.
- Cse.CsePreserves: hashes are taken to be injective, and operations are keyed in full, where the source keys
  primitives and constructors by name.
- SSA evaluation: primitives see closures as opaque and return data without closures; `tget` claims its
  body each time, without its memo table; applications with more arguments than parameters, which the front end does
  not produce.
- `Formed` (parameters lead, every function has one) is what src/optimizer/tossa.cpp:79-109 and 184-194 build; that
  translation itself is not modelled.
- Frames: slots are optional values; promises, continuations and scheduling are not modelled.
- Collector.Evacuate: an object is a header and pads; alignment padding, ages and statistics are not modelled, and the
  ring of roots is an array.
- Heap.Heap.GC: the square root in the size estimate is an arbitrary non-negative real; reports and limits are left out,
  and so is a negative heap factor, whose conversion to an unsigned word has no defined value.
- Patterns.CompileSelects: names, types, ascriptions and the text of diagnostics; the list after an error is unspecified.
- PatternTypes.ReachedIff: types without parameters, each with a value of finite depth.
- SyntaxTree.TilesIffInOrder: that the grammar's calls of the builder keep children in order is not shown.
- Components.FractureBinding: what the source does after it dereferences a missing expression; the model goes on as if
  the definition were a function.
- BuildDatabase.StepInv: each SQL statement is one operation on sets, file rows are identified by path, hash, type and
  mode, and work done in batches is done at once (the batches of `remove_blobs` take no more blobs than that). Output
  logs, statistics, tags, write-ahead logging and `clear_jobs` are left out, as is whether a blob is on disk at all.
- BuildDatabase.Store.ProbeLock: errors of the file system.
- SyntaxTree.Builder.AddNode: the 24-bit size field and 32-bit offsets do not wrap here.
- SyntaxTree.ChildElements: the rank/select bitmap of token starts is a set.
- The lexer, the parser, type inference, the job scheduler, the content-addressed store and the FUSE daemon.
